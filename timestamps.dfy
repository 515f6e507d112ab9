/** The part of Python's `datetime.strptime` and `strftime` the pipeline
    uses: the format "%Y-%m-%dT%H:%M:%S" followed by a literal ("+00:00" for
    fixtures, "Z" for news) or by "%z" (injuries), and the output fields %B,
    %d, %Y, %H, %M, %S and %m. */
module Timestamps {
  import opened Results
  import opened Text
  import opened JsonValues

  datatype DateTime = DateTime(year: int, month: int, day: int, hour: int, minute: int, second: int)

  predicate IsLeapYear(y: int) { (y % 4 == 0 && y % 100 != 0) || y % 400 == 0 }

  function DaysInMonth(y: int, m: int): int
    requires 1 <= m <= 12
  {
    if m == 2 then (if IsLeapYear(y) then 29 else 28)
    else if m == 4 || m == 6 || m == 9 || m == 11 then 30
    else 31
  }

  /** The moments Python's datetime can represent (whole seconds). */
  predicate Valid(dt: DateTime)
  {
    && 1 <= dt.year <= 9999
    && 1 <= dt.month <= 12
    && 1 <= dt.day <= DaysInMonth(dt.year, dt.month)
    && 0 <= dt.hour < 24 && 0 <= dt.minute < 60 && 0 <= dt.second < 60
  }

  /** Every strptime failure is a ValueError; its message is not modelled. */
  const StrptimeMismatch := "time data does not match format"

  /** Number of consecutive ASCII digits in s from position i. */
  function DigitRun(s: string, i: nat): (n: nat)
    requires i <= |s|
    ensures i + n <= |s|
    ensures forall k :: i <= k < i + n ==> IsDigit(s[k])
    ensures i + n == |s| || !IsDigit(s[i + n])
    decreases |s| - i
  {
    if i < |s| && IsDigit(s[i]) then 1 + DigitRun(s, i + 1) else 0
  }

  lemma {:induction false} DigitRunIs(s: string, i: nat, n: nat)
    requires i + n <= |s|
    requires forall k :: i <= k < i + n ==> IsDigit(s[k])
    requires i + n == |s| || !IsDigit(s[i + n])
    ensures DigitRun(s, i) == n
    decreases n
  {
    if n > 0 { DigitRunIs(s, i + 1, n - 1); }
  }

  /** A numeric directive: the digit run at i, between minWidth and maxWidth
      digits long, with a value in lo..hi. Because every directive here is
      followed by a non-digit, the regular expression strptime builds
      matches exactly such runs. Yields the value and the next position. */
  function Number(s: string, i: nat, minWidth: nat, maxWidth: nat, lo: nat, hi: nat): (r: Result<(nat, nat)>)
    requires i <= |s| && 1 <= minWidth
    ensures r.Ok? ==> lo <= r.value.0 <= hi && i < r.value.1 <= |s|
    ensures r.Err? ==> r.error == ValueError(StrptimeMismatch)
  {
    var n := DigitRun(s, i);
    if minWidth <= n <= maxWidth && AllDigits(s[i..i + n]) && lo <= DecimalValue(s[i..i + n]) <= hi
    then Ok((DecimalValue(s[i..i + n]), i + n))
    else Err(ValueError(StrptimeMismatch))
  }

  /** %d also accepts a space followed by one digit. */
  function DayNumber(s: string, i: nat): (r: Result<(nat, nat)>)
    requires i <= |s|
    ensures r.Ok? ==> 1 <= r.value.0 <= 31 && i < r.value.1 <= |s|
    ensures r.Err? ==> r.error == ValueError(StrptimeMismatch)
  {
    if i < |s| && s[i] == ' ' then Number(s, i + 1, 1, 1, 1, 9) else Number(s, i, 1, 2, 1, 31)
  }

  /** strptime compiles its pattern with IGNORECASE, so a literal letter
      of the format also matches its other case. */
  predicate LiteralMatches(a: char, c: char) { AsciiLowerChar(a) == AsciiLowerChar(c) }

  function Expect(s: string, i: nat, c: char): (r: Result<nat>)
    ensures r.Ok? ==> r.value == i + 1 <= |s|
    ensures r.Err? ==> r.error == ValueError(StrptimeMismatch)
  {
    if i < |s| && LiteralMatches(s[i], c) then Ok(i + 1) else Err(ValueError(StrptimeMismatch))
  }

  /** "%Y-%m-%d": year, month, day and the position after the day. */
  function ParseDate(s: string): (r: Result<(nat, nat, nat, nat)>)
    ensures r.Ok? ==> r.value.3 <= |s|
    ensures r.Err? ==> r.error == ValueError(StrptimeMismatch)
  {
    var y :- Number(s, 0, 4, 4, 0, 9999);
    var p1 :- Expect(s, y.1, '-');
    var mo :- Number(s, p1, 1, 2, 1, 12);
    var p2 :- Expect(s, mo.1, '-');
    var d :- DayNumber(s, p2);
    Ok((y.0, mo.0, d.0, d.1))
  }

  /** "%H:%M:%S" from position i: hour, minute, second and the position after. */
  function ParseClock(s: string, i: nat): (r: Result<(nat, nat, nat, nat)>)
    requires i <= |s|
    ensures r.Ok? ==> r.value.3 <= |s|
    ensures r.Err? ==> r.error == ValueError(StrptimeMismatch)
  {
    var h :- Number(s, i, 1, 2, 0, 23);
    var p1 :- Expect(s, h.1, ':');
    var mi :- Number(s, p1, 1, 2, 0, 59);
    var p2 :- Expect(s, mi.1, ':');
    var sec :- Number(s, p2, 1, 2, 0, 61);
    Ok((h.0, mi.0, sec.0, sec.1))
  }

  /** "%Y-%m-%dT%H:%M:%S": the fields read and the position after the seconds. */
  function ParseFields(s: string): (r: Result<(DateTime, nat)>)
    ensures r.Ok? ==> r.value.1 <= |s|
    ensures r.Err? ==> r.error == ValueError(StrptimeMismatch)
  {
    var d :- ParseDate(s);
    var p :- Expect(s, d.3, 'T');
    var c :- ParseClock(s, p);
    Ok((DateTime(d.0, d.1, d.2, c.0, c.1, c.2), c.3))
  }

  /** What follows the seconds in a format. */
  datatype Tail = Literal(text: string) | UtcOffset

  function ExpectText(s: string, i: nat, t: string): (r: Result<nat>)
    requires i <= |s|
    ensures r.Ok? ==> r.value == i + |t| <= |s|
    ensures r.Err? ==> r.error == ValueError(StrptimeMismatch)
    decreases |t|
  {
    if t == [] then Ok(i)
    else
      var j :- Expect(s, i, t[0]);
      ExpectText(s, j, t[1..])
  }

  function TwoDigits(s: string, i: nat): (r: Result<nat>)
    ensures r.Err? ==> r.error == ValueError(StrptimeMismatch)
  {
    if i + 2 <= |s| && IsDigit(s[i]) && IsDigit(s[i + 1]) then Ok(10 * DigitValue(s[i]) + DigitValue(s[i + 1]))
    else Err(ValueError(StrptimeMismatch))
  }

  /** %z: "Z" (case-sensitive), or a sign, two hour digits, an optional ':'
      and two minute digits, less than 24 hours in all. An offset with a
      seconds part is not modelled. */
  function OffsetEnd(s: string, i: nat): (r: Result<nat>)
    ensures r.Ok? ==> i < r.value <= |s|
    ensures r.Err? ==> r.error == ValueError(StrptimeMismatch) || r.error == NotModelled
  {
    if i < |s| && s[i] == 'Z' then Ok(i + 1)
    else if i < |s| && (s[i] == '+' || s[i] == '-') then
      var hh :- TwoDigits(s, i + 1);
      var j := if i + 3 < |s| && s[i + 3] == ':' then i + 4 else i + 3;
      var mm :- TwoDigits(s, j);
      if s[j] > '5' || hh * 60 + mm >= 24 * 60 then Err(ValueError(StrptimeMismatch))
      else if j + 2 < |s| && (s[j + 2] == ':' || IsDigit(s[j + 2])) then Err(NotModelled)
      else Ok(j + 2)
    else Err(ValueError(StrptimeMismatch))
  }

  /** The position after the tail that starts at i. */
  function TailEnd(s: string, i: nat, tail: Tail): (r: Result<nat>)
    requires i <= |s|
    ensures r.Ok? ==> i <= r.value <= |s|
    ensures r.Err? ==> r.error == ValueError(StrptimeMismatch) || r.error == NotModelled
  {
    match tail
    case Literal(t) => ExpectText(s, i, t)
    case UtcOffset => OffsetEnd(s, i)
  }

  /** `datetime.strptime(s, "%Y-%m-%dT%H:%M:%S" + tail)`: the whole string
      must match, and the fields must name a real date and time. */
  function Strptime(s: string, tail: Tail): (r: Result<DateTime>)
    ensures r.Ok? ==> Valid(r.value)
    ensures r.Err? ==> r.error == ValueError(StrptimeMismatch) || r.error == NotModelled
  {
    var f :- ParseFields(s);
    var end :- TailEnd(s, f.1, tail);
    if end == |s| && Valid(f.0) then Ok(f.0) else Err(ValueError(StrptimeMismatch))
  }

  /** strptime of a decoded JSON value: anything but a string is a TypeError. */
  function StrptimeJson(v: Json, tail: Tail): (r: Result<DateTime>)
    ensures r.Ok? ==> v.JStr? && r == Strptime(v.s, tail)
  {
    match v
    case JStr(s) => Strptime(s, tail)
    case _ => Err(TypeError)
  }

  /** The canonical timestamp text "YYYY-MM-DDTHH:MM:SS" the API sends. */
  function RenderIso(dt: DateTime): (s: string)
    requires Valid(dt)
    ensures |s| == 19
  {
    Pad4(dt.year) + "-" + Pad2(dt.month) + "-" + Pad2(dt.day) + "T"
      + Pad2(dt.hour) + ":" + Pad2(dt.minute) + ":" + Pad2(dt.second)
  }

  /** %B in the C locale. */
  function MonthName(m: int): string
    requires 1 <= m <= 12
  {
    ["January", "February", "March", "April", "May", "June", "July",
     "August", "September", "October", "November", "December"][m - 1]
  }

  /** strftime("%Y-%m-%d"); %Y is the year's decimal digits, unpadded as on glibc. */
  function DateText(dt: DateTime): string
    requires Valid(dt)
  {
    IntToString(dt.year) + "-" + Pad2(dt.month) + "-" + Pad2(dt.day)
  }

  /** strftime("%H:%M:%S"). */
  function TimeText(dt: DateTime): string
    requires Valid(dt)
  {
    Pad2(dt.hour) + ":" + Pad2(dt.minute) + ":" + Pad2(dt.second)
  }

  function SecondOfDay(dt: DateTime): int { 3600 * dt.hour + 60 * dt.minute + dt.second }

  lemma RenderIsoPieces(dt: DateTime)
    requires Valid(dt)
    ensures var s := RenderIso(dt);
      && s[0..4] == Pad4(dt.year) && s[4] == '-'
      && s[5..7] == Pad2(dt.month) && s[7] == '-'
      && s[8..10] == Pad2(dt.day) && s[10] == 'T'
      && s[11..13] == Pad2(dt.hour) && s[13] == ':'
      && s[14..16] == Pad2(dt.minute) && s[16] == ':'
      && s[17..19] == Pad2(dt.second)
  {
    var date := Pad4(dt.year) + "-" + Pad2(dt.month) + "-" + Pad2(dt.day);
    var time := Pad2(dt.hour) + ":" + Pad2(dt.minute) + ":" + Pad2(dt.second);
    var s := RenderIso(dt);
    assert s == date + "T" + time;
    Joined3(date, 'T', time);
    Joined5(Pad4(dt.year), '-', Pad2(dt.month), '-', Pad2(dt.day));
    Joined5(Pad2(dt.hour), ':', Pad2(dt.minute), ':', Pad2(dt.second));
    assert s[0..4] == date[..4] && s[5..7] == date[5..7] && s[8..10] == date[8..];
    assert s[11..13] == time[..2] && s[14..16] == time[3..5] && s[17..19] == time[6..];
  }

  /** The pieces of a + [x] + c sit where their lengths put them. */
  lemma Joined3(a: string, x: char, c: string)
    ensures var s := a + [x] + c;
      s[..|a|] == a && s[|a|] == x && s[|a| + 1..] == c
  {
    var s := a + [x] + c;
    assert s[..|a|] == a;
    assert s[|a| + 1..] == c;
  }

  /** The pieces of a + [x] + b + [y] + c sit where their lengths put them. */
  lemma Joined5(a: string, x: char, b: string, y: char, c: string)
    ensures var s := a + [x] + b + [y] + c;
      && s[..|a|] == a && s[|a|] == x
      && s[|a| + 1..|a| + 1 + |b|] == b && s[|a| + 1 + |b|] == y
      && s[|a| + 2 + |b|..] == c
  {
    var s := a + [x] + b + [y] + c;
    assert s[..|a|] == a;
    assert s[|a| + 1..|a| + 1 + |b|] == b;
    assert s[|a| + 2 + |b|..] == c;
  }

  lemma NumberOfPadded(s: string, i: nat, w: nat, field: string, lo: nat, hi: nat)
    requires 1 <= w && i + w <= |s| && s[i..i + w] == field && AllDigits(field) && |field| == w
    requires i + w == |s| || !IsDigit(s[i + w])
    requires lo <= DecimalValue(field) <= hi
    ensures Number(s, i, w, w, lo, hi) == Ok((DecimalValue(field), i + w))
    ensures w <= 2 ==> Number(s, i, 1, 2, lo, hi) == Ok((DecimalValue(field), i + w))
  {
    DigitRunIs(s, i, w);
  }

  /** s starts with the canonical text of dt. */
  predicate IsoLayout(s: string, dt: DateTime)
  {
    Valid(dt) && |s| >= 19 && s[..19] == RenderIso(dt)
  }

  lemma LayoutPieces(s: string, dt: DateTime)
    requires IsoLayout(s, dt)
    ensures && s[0..4] == Pad4(dt.year) && s[4] == '-'
      && s[5..7] == Pad2(dt.month) && s[7] == '-'
      && s[8..10] == Pad2(dt.day) && s[10] == 'T'
      && s[11..13] == Pad2(dt.hour) && s[13] == ':'
      && s[14..16] == Pad2(dt.minute) && s[16] == ':'
      && s[17..19] == Pad2(dt.second)
  {
    RenderIsoPieces(dt);
    var r := RenderIso(dt);
    assert s[0..4] == r[0..4] && s[5..7] == r[5..7] && s[8..10] == r[8..10];
    assert s[11..13] == r[11..13] && s[14..16] == r[14..16] && s[17..19] == r[17..19];
    assert s[4] == r[4] && s[7] == r[7] && s[10] == r[10] && s[13] == r[13] && s[16] == r[16];
  }

  lemma ParseDateOfLayout(s: string, dt: DateTime)
    requires IsoLayout(s, dt)
    ensures ParseDate(s) == Ok((dt.year, dt.month, dt.day, 10))
  {
    LayoutPieces(s, dt);
    NumberOfPadded(s, 0, 4, Pad4(dt.year), 0, 9999);
    NumberOfPadded(s, 5, 2, Pad2(dt.month), 1, 12);
    assert s[8] != ' ' by { assert s[8] == Pad2(dt.day)[0]; }
    NumberOfPadded(s, 8, 2, Pad2(dt.day), 1, 31);
  }

  /** The hour and minute of a canonical timestamp are read back, and its
      seconds field is as long as the digit run starting at position 17. */
  lemma ParseClockOfLayout(s: string, dt: DateTime)
    requires IsoLayout(s, dt)
    ensures |s| == 19 || !IsDigit(s[19]) ==> ParseClock(s, 11) == Ok((dt.hour, dt.minute, dt.second, 19))
    ensures |s| > 19 && IsDigit(s[19]) ==> ParseClock(s, 11).Err?
  {
    LayoutPieces(s, dt);
    NumberOfPadded(s, 11, 2, Pad2(dt.hour), 0, 23);
    NumberOfPadded(s, 14, 2, Pad2(dt.minute), 0, 59);
    if |s| == 19 || !IsDigit(s[19]) {
      NumberOfPadded(s, 17, 2, Pad2(dt.second), 0, 61);
    } else {
      assert DigitRun(s, 17) == 2 + DigitRun(s, 19) by {
        assert s[17] == Pad2(dt.second)[0] && s[18] == Pad2(dt.second)[1];
      }
    }
  }

  /** The fields of a canonical timestamp are read back exactly when a
      non-digit, or nothing, follows them; a digit makes them fail. */
  lemma ParseFieldsOfLayout(s: string, dt: DateTime)
    requires IsoLayout(s, dt)
    ensures |s| == 19 || !IsDigit(s[19]) ==> ParseFields(s) == Ok((dt, 19))
    ensures |s| > 19 && IsDigit(s[19]) ==> ParseFields(s).Err?
  {
    ParseDateOfLayout(s, dt);
    LayoutPieces(s, dt);
    assert Expect(s, 10, 'T') == Ok(11);
    ParseClockOfLayout(s, dt);
  }

  lemma IsoPrefixLayout(dt: DateTime, t: string)
    requires Valid(dt)
    ensures IsoLayout(RenderIso(dt) + t, dt)
  {
    assert (RenderIso(dt) + t)[..19] == RenderIso(dt);
  }

  lemma {:induction false} ExpectTextOfItself(s: string, i: nat, t: string)
    requires i + |t| <= |s| && s[i..i + |t|] == t
    ensures ExpectText(s, i, t) == Ok(i + |t|)
    decreases |t|
  {
    if t != [] {
      assert s[i] == t[0];
      assert s[i + 1..i + |t|] == t[1..];
      ExpectTextOfItself(s, i + 1, t[1..]);
    }
  }

  /** After a canonical timestamp, strptime succeeds exactly when the tail
      runs to the end of the text. */
  lemma StrptimeOfLayout(s: string, dt: DateTime, tail: Tail)
    requires IsoLayout(s, dt)
    requires |s| == 19 || !IsDigit(s[19])
    ensures Strptime(s, tail).Ok? <==> TailEnd(s, 19, tail) == Ok(|s|)
    ensures Strptime(s, tail).Ok? ==> Strptime(s, tail) == Ok(dt)
  {
    ParseFieldsOfLayout(s, dt);
  }

  /** strptime reads back every canonical timestamp followed by the literal
      its format expects. */
  lemma StrptimeLiteralRoundTrip(dt: DateTime, t: string)
    requires Valid(dt)
    requires t == [] || !IsDigit(t[0])
    ensures Strptime(RenderIso(dt) + t, Literal(t)) == Ok(dt)
  {
    var s := RenderIso(dt) + t;
    IsoPrefixLayout(dt, t);
    if t != [] { assert s[19] == t[0]; }
    assert s[19..19 + |t|] == t;
    ExpectTextOfItself(s, 19, t);
    StrptimeOfLayout(s, dt, Literal(t));
  }

  /** With %z, "Z" after a canonical timestamp is read back. */
  lemma StrptimeZuluRoundTrip(dt: DateTime)
    requires Valid(dt)
    ensures Strptime(RenderIso(dt) + "Z", UtcOffset) == Ok(dt)
  {
    var z := RenderIso(dt) + "Z";
    IsoPrefixLayout(dt, "Z");
    assert z[19] == 'Z' && |z| == 20;
    assert OffsetEnd(z, 19) == Ok(20);
    StrptimeOfLayout(z, dt, UtcOffset);
  }

  /** With %z, "+00:00" after a canonical timestamp is read back. */
  lemma StrptimeOffsetRoundTrip(dt: DateTime)
    requires Valid(dt)
    ensures Strptime(RenderIso(dt) + "+00:00", UtcOffset) == Ok(dt)
  {
    var s := RenderIso(dt) + "+00:00";
    IsoPrefixLayout(dt, "+00:00");
    assert s[19] == '+' && s[20] == '0' && s[21] == '0' && s[22] == ':' && s[23] == '0' && s[24] == '0' && |s| == 25;
    assert TwoDigits(s, 20) == Ok(0) && TwoDigits(s, 23) == Ok(0);
    assert OffsetEnd(s, 19) == Ok(25);
    StrptimeOfLayout(s, dt, UtcOffset);
  }

  /** The fixture format accepts a canonical timestamp only when the text
      after it is exactly "+00:00": any other offset raises. */
  lemma FixtureOffsetIsLiteral(dt: DateTime, offset: string)
    requires Valid(dt)
    ensures Strptime(RenderIso(dt) + offset, Literal("+00:00")).Ok? ==> offset == "+00:00"
  {
    var s := RenderIso(dt) + offset;
    IsoPrefixLayout(dt, offset);
    LiteralTailIsExact(s, dt, "+00:00");
    assert s[19..] == offset;
  }

  /** After a canonical timestamp, a format literal without letters accepts
      only the text that spells it. */
  lemma LiteralTailIsExact(s: string, dt: DateTime, t: string)
    requires IsoLayout(s, dt)
    requires forall k :: 0 <= k < |t| ==> !('A' <= t[k] <= 'Z') && !('a' <= t[k] <= 'z')
    ensures Strptime(s, Literal(t)).Ok? ==> s[19..] == t
  {
    ParseFieldsOfLayout(s, dt);
    if (|s| == 19 || !IsDigit(s[19])) && Strptime(s, Literal(t)).Ok? {
      StrptimeOfLayout(s, dt, Literal(t));
      ExpectTextNoLetters(s, 19, t);
    }
  }

  /** A literal without letters matches only itself. */
  lemma ExpectTextNoLetters(s: string, i: nat, t: string)
    requires i <= |s| && ExpectText(s, i, t) == Ok(|s|)
    requires forall k :: 0 <= k < |t| ==> !('A' <= t[k] <= 'Z') && !('a' <= t[k] <= 'z')
    ensures s[i..] == t
  {
    ExpectTextChars(s, i, t);
    forall k | 0 <= k < |t| ensures s[i + k] == t[k] {
      assert LiteralMatches(s[i + k], t[k]);
    }
  }

  lemma {:induction false} ExpectTextChars(s: string, i: nat, t: string)
    requires i <= |s| && ExpectText(s, i, t).Ok?
    ensures forall k :: 0 <= k < |t| ==> LiteralMatches(s[i + k], t[k])
    decreases |t|
  {
    if t != [] { ExpectTextChars(s, i + 1, t[1..]); }
  }

  /** strftime("%Y-%m-%d") of a parsed canonical timestamp from year 1000 on
      is its first ten characters. */
  lemma DateTextIsIsoPrefix(dt: DateTime)
    requires Valid(dt) && dt.year >= 1000
    ensures DateText(dt) == RenderIso(dt)[..10]
  {
    var y := IntToString(dt.year);
    assert |y| == 4 by { IntToStringWidth4(dt.year); }
    assert y == Pad4(dt.year) by { SameDigits(y, Pad4(dt.year)); }
  }

  lemma IntToStringWidth4(n: nat)
    requires 1000 <= n < 10000
    ensures |IntToString(n)| == 4
  {
    assert NatToString(n) == NatToString(n / 10) + [DigitChar(n % 10)];
    assert NatToString(n / 10) == NatToString(n / 100) + [DigitChar(n / 10 % 10)];
    assert NatToString(n / 100) == NatToString(n / 1000) + [DigitChar(n / 100 % 10)];
  }

  lemma {:induction false} SameDigits(a: string, b: string)
    requires |a| == |b| && AllDigits(a) && AllDigits(b) && DecimalValue(a) == DecimalValue(b)
    ensures a == b
  {
    if a != [] {
      var n := |a| - 1;
      assert DigitValue(a[n]) == DecimalValue(a) % 10 == DigitValue(b[n]);
      assert a[n] == b[n];
      SameDigits(a[..n], b[..n]);
      assert a == a[..n] + [a[n]] && b == b[..n] + [b[n]];
    }
  }

  /** strftime("%H:%M:%S") of a canonical timestamp is its characters 11 to 18. */
  lemma TimeTextIsIsoInfix(dt: DateTime)
    requires Valid(dt)
    ensures TimeText(dt) == RenderIso(dt)[11..19]
  {
    RenderIsoPieces(dt);
  }

  /** Because each field is zero-padded to two digits, comparing "%H:%M:%S"
      texts as Python strings orders them exactly by time of day. */
  lemma TimeTextOrder(a: DateTime, b: DateTime)
    requires Valid(a) && Valid(b)
    ensures StrLess(TimeText(a), TimeText(b)) <==> SecondOfDay(a) < SecondOfDay(b)
    ensures TimeText(a) == TimeText(b) <==> SecondOfDay(a) == SecondOfDay(b)
  {
    Pad2Order(a.hour, b.hour);
    Pad2Order(a.minute, b.minute);
    Pad2Order(a.second, b.second);
    StrLessConcat(Pad2(a.hour), ":" + Pad2(a.minute) + ":" + Pad2(a.second), Pad2(b.hour), ":" + Pad2(b.minute) + ":" + Pad2(b.second));
    StrLessConcat(":" + Pad2(a.minute), ":" + Pad2(a.second), ":" + Pad2(b.minute), ":" + Pad2(b.second));
    StrLessConcat(":", Pad2(a.minute), ":", Pad2(b.minute));
    StrLessConcat(":", Pad2(a.second), ":", Pad2(b.second));
    assert TimeText(a) == Pad2(a.hour) + (":" + Pad2(a.minute) + ":" + Pad2(a.second));
    assert TimeText(b) == Pad2(b.hour) + (":" + Pad2(b.minute) + ":" + Pad2(b.second));
    assert ":" + Pad2(a.minute) + ":" + Pad2(a.second) == (":" + Pad2(a.minute)) + (":" + Pad2(a.second));
    assert ":" + Pad2(b.minute) + ":" + Pad2(b.second) == (":" + Pad2(b.minute)) + (":" + Pad2(b.second));
    StrLessIrreflexive(":");
    SecondOfDayOrder(a, b);
    if TimeText(a) == TimeText(b) {
      TimeTextPieces(a);
      TimeTextPieces(b);
    }
  }

  lemma TimeTextPieces(dt: DateTime)
    requires Valid(dt)
    ensures TimeText(dt)[0..2] == Pad2(dt.hour) && TimeText(dt)[3..5] == Pad2(dt.minute) && TimeText(dt)[6..8] == Pad2(dt.second)
  {
  }

  lemma SecondOfDayOrder(a: DateTime, b: DateTime)
    requires Valid(a) && Valid(b)
    ensures SecondOfDay(a) < SecondOfDay(b) <==>
      a.hour < b.hour || (a.hour == b.hour && (a.minute < b.minute || (a.minute == b.minute && a.second < b.second)))
    ensures SecondOfDay(a) == SecondOfDay(b) <==> a.hour == b.hour && a.minute == b.minute && a.second == b.second
  {
  }
}
