/** Python string operations the pipeline relies on: decimal digits, `int()`
    and `float()` of a string, `strip`, `replace`, `lower`, `split`, slicing,
    and Python's ordering of strings. Only ASCII letters, digits and
    whitespace are given their Python meaning. */
module Text {
  import opened Results

  predicate IsDigit(c: char) { '0' <= c <= '9' }

  function DigitValue(c: char): (d: nat)
    requires IsDigit(c)
    ensures d < 10
  {
    c as int - '0' as int
  }

  function DigitChar(d: nat): (c: char)
    requires d < 10
    ensures IsDigit(c) && DigitValue(c) == d
  {
    (d + '0' as int) as char
  }

  predicate AllDigits(s: string) { forall i :: 0 <= i < |s| ==> IsDigit(s[i]) }

  /** The number a string of decimal digits denotes, most significant digit first. */
  function DecimalValue(s: string): nat
    requires AllDigits(s)
  {
    if s == [] then 0 else 10 * DecimalValue(s[..|s| - 1]) + DigitValue(s[|s| - 1])
  }

  /** Python's `str(n)` for n >= 0: the shortest decimal spelling of n. */
  function NatToString(n: nat): (s: string)
    ensures |s| > 0 && AllDigits(s) && DecimalValue(s) == n
    ensures (s[0] == '0') == (n == 0)
    ensures n == 0 ==> s == "0"
  {
    if n < 10 then [DigitChar(n)]
    else
      var p := NatToString(n / 10);
      var s := p + [DigitChar(n % 10)];
      assert s[..|s| - 1] == p;
      s
  }

  /** Python's `str(i)` for an int: a minus sign for negative numbers, then the digits. */
  function IntToString(i: int): (s: string)
    ensures |s| > 0
    ensures i >= 0 ==> AllDigits(s) && DecimalValue(s) == i
    ensures i < 0 ==> s[0] == '-' && AllDigits(s[1..]) && DecimalValue(s[1..]) == -i
  {
    if i < 0 then "-" + NatToString(-i) else NatToString(i)
  }

  /** The ASCII characters Python treats as whitespace when `int()`,
      `float()` or `strip()` trim a string. */
  predicate IsPySpace(c: char) { c == ' ' || 9 <= c as int <= 13 || 28 <= c as int <= 31 }

  /** Drops the leading characters that satisfy `drop` (Python's `lstrip`). */
  function TrimStart(s: string, drop: char -> bool): (r: string)
    ensures |r| <= |s| && r == s[|s| - |r|..]
    ensures forall k :: 0 <= k < |s| - |r| ==> drop(s[k])
    ensures r == [] || !drop(r[0])
  {
    if s != [] && drop(s[0]) then TrimStart(s[1..], drop) else s
  }

  /** Drops the trailing characters that satisfy `drop` (Python's `rstrip`). */
  function TrimEnd(s: string, drop: char -> bool): (r: string)
    ensures |r| <= |s| && r == s[..|r|]
    ensures forall k :: |r| <= k < |s| ==> drop(s[k])
    ensures r == [] || !drop(r[|r| - 1])
  {
    if s != [] && drop(s[|s| - 1]) then TrimEnd(s[..|s| - 1], drop) else s
  }

  function Trim(s: string, drop: char -> bool): string
  {
    TrimEnd(TrimStart(s, drop), drop)
  }

  /** Trimming leaves a slice of s, with only dropped characters before it
      and after it. */
  lemma TrimIsSlice(s: string, drop: char -> bool)
    ensures var r := Trim(s, drop);
      exists i :: 0 <= i <= |s| && r <= s[i..] && (forall k :: 0 <= k < i ==> drop(s[k])) && (forall k :: i + |r| <= k < |s| ==> drop(s[k]))
  {
    var a := TrimStart(s, drop);
    SliceOfSlice(s, a, TrimEnd(a, drop), drop);
  }

  /** Trimming leaves no dropped character at either end. */
  lemma TrimEnds(s: string, drop: char -> bool)
    ensures var r := Trim(s, drop); r == [] || (!drop(r[0]) && !drop(r[|r| - 1]))
  {
    var a := TrimStart(s, drop);
    var r := TrimEnd(a, drop);
    if r != [] {
      assert r[0] == a[0];
    }
  }

  /** A prefix r of a suffix a of s, where only dropped characters were cut
      off either side, is a slice of s with only dropped characters around it. */
  lemma SliceOfSlice(s: string, a: string, r: string, drop: char -> bool)
    requires |a| <= |s| && a == s[|s| - |a|..] && forall k :: 0 <= k < |s| - |a| ==> drop(s[k])
    requires |r| <= |a| && r == a[..|r|] && forall k :: |r| <= k < |a| ==> drop(a[k])
    ensures exists i :: 0 <= i <= |s| && r <= s[i..] && (forall k :: 0 <= k < i ==> drop(s[k])) && (forall k :: i + |r| <= k < |s| ==> drop(s[k]))
  {
    var i := |s| - |a|;
    assert r <= s[i..];
    forall k | i + |r| <= k < |s| ensures drop(s[k]) {
      assert s[k] == a[k - i];
    }
  }

  /** Python's `s.strip(c)` for a single character c: what is left is a
      slice of s with only c before and after it, and no c is left at either
      end of it. */
  function StripChar(s: string, c: char): (r: string)
    ensures exists i :: 0 <= i <= |s| && r <= s[i..] && (forall k :: 0 <= k < i ==> s[k] == c) && (forall k :: i + |r| <= k < |s| ==> s[k] == c)
    ensures r == [] || (r[0] != c && r[|r| - 1] != c)
    ensures (s == [] || (s[0] != c && s[|s| - 1] != c)) ==> r == s
  {
    var drop := x => x == c;
    TrimIsSlice(s, drop);
    TrimEnds(s, drop);
    Trim(s, drop)
  }

  lemma StripCharUnquotes(s: string)
    requires s == [] || (s[0] != '"' && s[|s| - 1] != '"')
    ensures StripChar("\"" + s + "\"", '"') == s
  {
    var q := "\"" + s + "\"";
    var drop := (x: char) => x == '"';
    assert q[1..] == s + "\"";
    if s == [] {
      assert TrimStart(q, drop) == TrimStart(q[1..], drop);
      assert q[1..][1..] == [];
    } else {
      assert TrimStart(q, drop) == TrimStart(s + "\"", drop) == s + "\"";
      assert (s + "\"")[..|s|] == s;
      assert TrimEnd(s + "\"", drop) == TrimEnd(s, drop) == s;
    }
  }

  function ParseDigits(negative: bool, digits: string): (r: Result<int>)
  {
    if digits != [] && AllDigits(digits) then
      Ok(if negative then 0 - DecimalValue(digits) else DecimalValue(digits))
    else Err(ValueError(InvalidIntLiteral))
  }

  const InvalidIntLiteral := "invalid literal for int() with base 10"

  /** Python's `int(s)` on a string: surrounding whitespace, an optional
      sign, then one or more decimal digits (leading zeros allowed);
      anything else raises ValueError. */
  function ParseInt(s: string): (r: Result<int>)
    ensures r.Err? ==> r.error == ValueError(InvalidIntLiteral)
  {
    var t := Trim(s, IsPySpace);
    if t != [] && (t[0] == '+' || t[0] == '-') then ParseDigits(t[0] == '-', t[1..])
    else ParseDigits(false, t)
  }

  lemma TrimNoSpace(s: string)
    requires forall k :: 0 <= k < |s| ==> !IsPySpace(s[k])
    ensures Trim(s, IsPySpace) == s
  {
  }

  /** On a string without whitespace `int()` reads the sign and digits directly. */
  lemma ParseIntOfUnpadded(s: string)
    requires forall k :: 0 <= k < |s| ==> !IsPySpace(s[k])
    ensures ParseInt(s) == if s != [] && (s[0] == '+' || s[0] == '-') then ParseDigits(s[0] == '-', s[1..]) else ParseDigits(false, s)
  {
    TrimNoSpace(s);
  }

  /** `int()` reads an optional minus sign followed by decimal digits. */
  lemma {:induction false} ParseIntOfDigits(negative: bool, digits: string)
    requires digits != [] && AllDigits(digits)
    ensures ParseInt((if negative then "-" else "") + digits) == Ok(if negative then 0 - DecimalValue(digits) else DecimalValue(digits))
  {
    var s := (if negative then "-" else "") + digits;
    if negative {
      assert s[1..] == digits;
    } else {
      assert s == digits;
    }
    forall k | 0 <= k < |s| ensures !IsPySpace(s[k]) {
      if negative && k > 0 { assert s[k] == digits[k - 1]; }
    }
    ParseIntOfUnpadded(s);
  }

  /** `int(str(i)) == i` for every int i. */
  lemma {:induction false} ParseIntRoundTrip(i: int)
    ensures ParseInt(IntToString(i)) == Ok(i)
  {
    if i < 0 {
      ParseIntOfDigits(true, NatToString(-i));
    } else {
      ParseIntOfDigits(false, NatToString(i));
      assert "" + NatToString(i) == NatToString(i);
    }
  }

  /** A decimal number mantissa / 10^exponent: the exact value of the text
      Python's `float()` was given, before rounding to binary. */
  datatype Decimal = Decimal(mantissa: int, exponent: nat)

  /** Index of the first c in s, or |s| when there is none. */
  function FirstIndex(s: string, c: char): (i: nat)
    ensures i <= |s| && c !in s[..i]
    ensures i < |s| ==> s[i] == c
    ensures i == |s| <==> c !in s
  {
    if s == [] then 0
    else if s[0] == c then 0
    else
      var j := FirstIndex(s[1..], c);
      assert s[..1 + j] == [s[0]] + s[1..][..j];
      1 + j
  }

  const InvalidFloatLiteral := "could not convert string to float"

  function ParseUnsignedDecimal(negative: bool, body: string): Result<Decimal>
  {
    var dot := FirstIndex(body, '.');
    var whole := body[..dot];
    var fraction := if dot < |body| then body[dot + 1..] else [];
    if AllDigits(whole) && AllDigits(fraction) && |whole| + |fraction| > 0 then
      var m := DecimalValue(whole + fraction);
      Ok(Decimal(if negative then 0 - m else m, |fraction|))
    else Err(ValueError(InvalidFloatLiteral))
  }

  /** Python's `float(s)` on a string, for plain decimal notation:
      whitespace, an optional sign, digits with at most one '.', and at
      least one digit. */
  function ParseFloat(s: string): (r: Result<Decimal>)
    ensures r.Err? ==> r.error == ValueError(InvalidFloatLiteral)
  {
    var t := Trim(s, IsPySpace);
    if t != [] && (t[0] == '+' || t[0] == '-') then ParseUnsignedDecimal(t[0] == '-', t[1..])
    else ParseUnsignedDecimal(false, t)
  }

  /** strftime's two-digit zero-padded field (%d, %m, %H, %M, %S). */
  function Pad2(n: nat): (s: string)
    requires n < 100
    ensures |s| == 2 && AllDigits(s) && DecimalValue(s) == n
  {
    var s := [DigitChar(n / 10), DigitChar(n % 10)];
    assert s[..1] == [DigitChar(n / 10)];
    assert s[..1][..0] == [];
    assert DecimalValue(s[..1]) == n / 10;
    s
  }

  /** A four-digit zero-padded year. */
  function Pad4(n: nat): (s: string)
    requires n < 10000
    ensures |s| == 4 && AllDigits(s) && DecimalValue(s) == n
  {
    var s := Pad2(n / 100) + Pad2(n % 100);
    assert s[..3] == Pad2(n / 100) + [s[2]];
    assert s[..2] == Pad2(n / 100);
    s
  }

  /** Python's `s.replace(a, b)` for single characters. */
  function ReplaceChar(s: string, a: char, b: char): (r: string)
    ensures |r| == |s|
    ensures forall k :: 0 <= k < |s| ==> r[k] == if s[k] == a then b else s[k]
  {
    if s == [] then [] else [if s[0] == a then b else s[0]] + ReplaceChar(s[1..], a, b)
  }

  function AsciiLowerChar(c: char): char
  {
    if 'A' <= c <= 'Z' then (c as int - 'A' as int + 'a' as int) as char else c
  }

  /** Python's `s.lower()` on ASCII letters; other characters are kept. */
  function AsciiLower(s: string): (r: string)
    ensures |r| == |s|
    ensures forall k :: 0 <= k < |s| ==> r[k] == AsciiLowerChar(s[k])
  {
    if s == [] then [] else [AsciiLowerChar(s[0])] + AsciiLower(s[1..])
  }

  /** Python's `s.split(c, 1)[0]`: everything before the first c, or the whole string. */
  function BeforeFirst(s: string, c: char): (r: string)
    ensures c !in r
    ensures |r| <= |s| && r == s[..|r|]
    ensures c !in s ==> r == s
    ensures |r| < |s| ==> s[|r|] == c
  {
    s[..FirstIndex(s, c)]
  }

  /** Python's `x[:n]` for n >= 0. */
  function Take<T>(x: seq<T>, n: nat): (r: seq<T>)
    ensures |r| == if n < |x| then n else |x|
    ensures r == x[..|r|]
  {
    if n < |x| then x[..n] else x
  }

  /** Python's `x[n:]` for n >= 0. */
  function Drop<T>(x: seq<T>, n: nat): (r: seq<T>)
    ensures |r| == if n < |x| then |x| - n else 0
    ensures r == x[|x| - |r|..]
  {
    if n < |x| then x[n..] else []
  }

  /** Python's `x[-n:]` for n > 0: the last n elements, or all of x when it is shorter. */
  function TakeLast<T>(x: seq<T>, n: nat): (r: seq<T>)
    requires n > 0
    ensures |r| == if n < |x| then n else |x|
    ensures r == x[|x| - |r|..]
  {
    if n < |x| then x[|x| - n..] else x
  }

  /** Python's `a < b` on strings: lexicographic by code point, a proper prefix first. */
  predicate StrLess(a: string, b: string)
  {
    if a == [] then b != []
    else if b == [] then false
    else if a[0] != b[0] then a[0] < b[0]
    else StrLess(a[1..], b[1..])
  }

  lemma {:induction false} StrLessIrreflexive(a: string)
    ensures !StrLess(a, a)
  {
    if a != [] { StrLessIrreflexive(a[1..]); }
  }

  lemma {:induction false} StrLessTrichotomy(a: string, b: string)
    ensures a == b || StrLess(a, b) || StrLess(b, a)
    ensures !(StrLess(a, b) && StrLess(b, a))
  {
    if a != [] && b != [] && a[0] == b[0] {
      StrLessTrichotomy(a[1..], b[1..]);
      if a[1..] == b[1..] { assert a == [a[0]] + a[1..] && b == [b[0]] + b[1..]; }
    }
  }

  lemma {:induction false} StrLessTransitive(a: string, b: string, c: string)
    requires StrLess(a, b) && StrLess(b, c)
    ensures StrLess(a, c)
  {
    if a != [] && a[0] == b[0] && b[0] == c[0] {
      StrLessTransitive(a[1..], b[1..], c[1..]);
    }
  }

  /** Comparing two strings whose first parts have the same length compares
      those parts first and the rest only on a tie. */
  lemma {:induction false} StrLessConcat(a1: string, b1: string, a2: string, b2: string)
    requires |a1| == |a2|
    ensures StrLess(a1 + b1, a2 + b2) <==> StrLess(a1, a2) || (a1 == a2 && StrLess(b1, b2))
  {
    if a1 == [] {
      assert a1 + b1 == b1 && a2 + b2 == b2;
    } else {
      assert (a1 + b1)[0] == a1[0] && (a2 + b2)[0] == a2[0];
      assert (a1 + b1)[1..] == a1[1..] + b1 && (a2 + b2)[1..] == a2[1..] + b2;
      StrLessConcat(a1[1..], b1, a2[1..], b2);
      if a1[0] == a2[0] && a1[1..] == a2[1..] { assert a1 == a2; }
    }
  }

  /** Zero-padded two-digit fields compare as strings exactly as their numbers do. */
  lemma Pad2Order(x: nat, y: nat)
    requires x < 100 && y < 100
    ensures StrLess(Pad2(x), Pad2(y)) <==> x < y
    ensures Pad2(x) == Pad2(y) <==> x == y
  {
    var px, py := Pad2(x), Pad2(y);
    assert px == [DigitChar(x / 10), DigitChar(x % 10)];
    assert py == [DigitChar(y / 10), DigitChar(y % 10)];
    assert px[1..] == [px[1]] && py[1..] == [py[1]];
    assert px[1..][1..] == [] && py[1..][1..] == [];
    assert StrLess(px[1..], py[1..]) <==> px[1] < py[1];
    assert x == 10 * (x / 10) + x % 10 && y == 10 * (y / 10) + y % 10;
  }
}
