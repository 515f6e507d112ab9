/** The fixtures section: for every round from the latest down to the
    first, the round's ten fixtures are read from the document store in
    date order and turned into display lists, the kick-off time becoming a
    label such as "August 01st, 2023 - 19:00". */
module Fixtures {
  import opened Results
  import opened Text
  import opened JsonValues
  import opened Timestamps

  /** The suffix the section puts after a day of the month: "th" for 4 to
      20, otherwise chosen by the last digit. */
  function OrdinalSuffix(day: int): string
  {
    if 4 <= day <= 20 then "th"
    else if day % 10 == 1 then "st"
    else if day % 10 == 2 then "nd"
    else if day % 10 == 3 then "rd"
    else "th"
  }

  /** The English ordinal suffix of a positive number: "th" for numbers
      ending in 11, 12 or 13, otherwise chosen by the last digit. */
  function EnglishOrdinalSuffix(n: nat): string
  {
    if 11 <= n % 100 <= 13 then "th"
    else if n % 10 == 1 then "st"
    else if n % 10 == 2 then "nd"
    else if n % 10 == 3 then "rd"
    else "th"
  }

  /** For every day of a month the section's rule gives the English suffix. */
  lemma OrdinalSuffixIsEnglish(day: int)
    requires 1 <= day <= 31
    ensures OrdinalSuffix(day) == EnglishOrdinalSuffix(day)
  {
  }

  /** `strftime("%B %d{}, %Y - %H:%M").format(suffix)`: the day keeps its
      leading zero in front of the suffix. */
  function MatchLabel(dt: DateTime): string
    requires Valid(dt)
  {
    MonthName(dt.month) + " " + Pad2(dt.day) + OrdinalSuffix(dt.day) + ", "
      + IntToString(dt.year) + " - " + Pad2(dt.hour) + ":" + Pad2(dt.minute)
  }

  /** The date part of a label reads back as the kick-off's date: the
      month's name, the day as two digits with its English ordinal suffix,
      then the year. */
  lemma MatchLabelDate(dt: DateTime)
    requires Valid(dt)
    ensures var s, m := MatchLabel(dt), |MonthName(dt.month)|;
      && |s| == m + 15 + |IntToString(dt.year)|
      && s[..m] == MonthName(dt.month) && s[m] == ' '
      && AllDigits(s[m + 1..m + 3]) && DecimalValue(s[m + 1..m + 3]) == dt.day
      && s[m + 3..m + 5] == EnglishOrdinalSuffix(dt.day) && s[m + 5..m + 7] == ", "
      && AllDigits(s[m + 7..|s| - 8]) && DecimalValue(s[m + 7..|s| - 8]) == dt.year
  {
    var month, day, suffix, year := MonthName(dt.month), Pad2(dt.day), OrdinalSuffix(dt.day), IntToString(dt.year);
    var hour, minute := Pad2(dt.hour), Pad2(dt.minute);
    assert MatchLabel(dt) == month + " " + day + suffix + ", " + year + " - " + hour + ":" + minute;
    OrdinalSuffixIsEnglish(dt.day);
    LabelLayout(month, day, suffix, year, hour, minute);
  }

  /** A label ends with the kick-off's time: " - ", then the hour and the
      minute as two digits each, separated by ':'. */
  lemma MatchLabelTime(dt: DateTime)
    requires Valid(dt)
    ensures var s := MatchLabel(dt);
      && |s| >= 16 && s[|s| - 8..|s| - 5] == " - "
      && AllDigits(s[|s| - 5..|s| - 3]) && DecimalValue(s[|s| - 5..|s| - 3]) == dt.hour
      && s[|s| - 3] == ':'
      && AllDigits(s[|s| - 2..]) && DecimalValue(s[|s| - 2..]) == dt.minute
  {
    var month, day, suffix, year := MonthName(dt.month), Pad2(dt.day), OrdinalSuffix(dt.day), IntToString(dt.year);
    var hour, minute := Pad2(dt.hour), Pad2(dt.minute);
    assert MatchLabel(dt) == month + " " + day + suffix + ", " + year + " - " + hour + ":" + minute;
    LabelLayout(month, day, suffix, year, hour, minute);
  }

  /** Where each piece of a label sits. */
  lemma LabelLayout(month: string, day: string, suffix: string, year: string, hour: string, minute: string)
    requires |day| == 2 && |suffix| == 2 && |hour| == 2 && |minute| == 2
    ensures var s, m := month + " " + day + suffix + ", " + year + " - " + hour + ":" + minute, |month|;
      && |s| == m + 15 + |year|
      && s[..m] == month && s[m] == ' ' && s[m + 1..m + 3] == day && s[m + 3..m + 5] == suffix
      && s[m + 5..m + 7] == ", " && s[m + 7..|s| - 8] == year && s[|s| - 8..|s| - 5] == " - "
      && s[|s| - 5..|s| - 3] == hour && s[|s| - 3] == ':' && s[|s| - 2..] == minute
  {
    var head := month + " " + day + suffix + ", ";
    var tail := " - " + hour + ":" + minute;
    var s := month + " " + day + suffix + ", " + year + " - " + hour + ":" + minute;
    assert s == head + year + tail;
    assert s[..|head|] == head && s[|head|..|head| + |year|] == year && s[|head| + |year|..] == tail;
    assert head[..|month|] == month && head[|month|] == ' ';
    assert head[|month| + 1..|month| + 3] == day && head[|month| + 3..|month| + 5] == suffix;
    assert tail[3..5] == hour && tail[6..] == minute;
  }

  /** The format fixture dates are parsed with. */
  const KickOffFormat := Literal("+00:00")

  /** The label of one fixture document, from its "date" field. */
  function MatchDate(data: Json): Result<string>
  {
    var date :- Get(data, "date");
    var dt :- StrptimeJson(date, KickOffFormat);
    Ok(MatchLabel(dt))
  }

  /** A fixture stamped with a canonical kick-off time gets the label of that
      time when its offset is "+00:00", and raises for every other offset. */
  lemma MatchDateOfStamp(data: Json, dt: DateTime, offset: string)
    requires Valid(dt) && Get(data, "date") == Ok(JStr(RenderIso(dt) + offset))
    ensures MatchDate(data).Ok? <==> offset == "+00:00"
    ensures offset == "+00:00" ==> MatchDate(data) == Ok(MatchLabel(dt))
  {
    FixtureOffsetIsLiteral(dt, offset);
    if offset == "+00:00" {
      StrptimeLiteralRoundTrip(dt, "+00:00");
    }
  }

  /** The name of the collection holding round n. */
  function CollectionName(n: int): string
  {
    "Regular Season - " + IntToString(n)
  }

  /** `documents[i]["data"]`: the i-th document of the round in date order. */
  function DocAt(docs: seq<Json>, i: nat): (r: Result<Json>)
    ensures r.Ok? <==> i < |docs|
    ensures r.Ok? ==> r.value == docs[i]
    ensures r.Err? ==> r.error == IndexError
  {
    if i < |docs| then Ok(docs[i]) else Err(IndexError)
  }

  /** `documents[i]["data"]` followed by a chain of subscripts. */
  function FieldAt(docs: seq<Json>, i: nat, path: seq<Step>): Result<Json>
  {
    var d :- DocAt(docs, i);
    Walk(d, path)
  }

  /** The number of fixtures the section reads per round. */
  const PerRound: nat := 10

  /** `[documents[count]["data"]...path... for count in range(10)]`. */
  function FieldList(docs: seq<Json>, path: seq<Step>): (r: Result<seq<Json>>)
    ensures r.Ok? ==> |docs| >= 10 && |r.value| == 10 && forall i :: 0 <= i < 10 ==> Walk(docs[i], path) == Ok(r.value[i])
    ensures |docs| < 10 && (forall i :: 0 <= i < |docs| ==> Walk(docs[i], path).Ok?) ==> r == Err(IndexError)
  {
    var f := i => FieldAt(docs, i, path);
    MapRangeOfList(PerRound, docs, d => Walk(d, path), f);
    MapRange(PerRound, f)
  }

  /** The match-date comprehension over the first ten documents. */
  function LabelList(docs: seq<Json>): (r: Result<seq<string>>)
    ensures r.Ok? ==> |docs| >= 10 && |r.value| == 10 && forall i :: 0 <= i < 10 ==> MatchDate(docs[i]) == Ok(r.value[i])
    ensures |docs| < 10 && (forall i :: 0 <= i < |docs| ==> MatchDate(docs[i]).Ok?) ==> r == Err(IndexError)
  {
    var f := i => (var d :- DocAt(docs, i); MatchDate(d));
    MapRangeOfList(PerRound, docs, MatchDate, f);
    MapRange(PerRound, f)
  }

  /** The display lists of a round: the match-date labels, and one list of
      raw values per path of ValuePaths (away goals, home goals, away team,
      home team, away logo, home logo). */
  datatype RoundFixtures = RoundFixtures(matchDate: seq<string>, values: seq<seq<Json>>)

  const AwayGoals := [Key("goals"), Key("away")]
  const HomeGoals := [Key("goals"), Key("home")]
  const AwayTeam := [Key("teams"), Key("away"), Key("name")]
  const HomeTeam := [Key("teams"), Key("home"), Key("name")]
  const AwayLogo := [Key("teams"), Key("away"), Key("logo")]
  const HomeLogo := [Key("teams"), Key("home"), Key("logo")]

  /** The six comprehensions of raw values, in the order they run. */
  const ValuePaths := [AwayGoals, HomeGoals, AwayTeam, HomeTeam, AwayLogo, HomeLogo]

  /** One comprehension per path, run one after the other; the first that
      raises ends the pull. */
  function FieldLists(docs: seq<Json>, paths: seq<seq<Step>>): (r: Result<seq<seq<Json>>>)
    ensures r.Ok? ==> |r.value| == |paths| && forall k :: 0 <= k < |paths| ==> FieldList(docs, paths[k]) == Ok(r.value[k])
  {
    MapList(paths, path => FieldList(docs, path))
  }

  /** `firestore_pull`: the round's documents in date order become seven
      lists, each built by its own comprehension over indices 0 to 9, one
      comprehension after the other. */
  function FirestorePull(docs: seq<Json>): (r: Result<RoundFixtures>)
    ensures r.Ok? ==> FieldLists(docs, ValuePaths).Ok? && r.value.values == FieldLists(docs, ValuePaths).value
  {
    var matchDate :- LabelList(docs);
    var values :- FieldLists(docs, ValuePaths);
    Ok(RoundFixtures(matchDate, values))
  }

  /** Every list of a pulled round has ten entries, entry i coming from
      document i; a round with fewer than ten documents raises IndexError
      once the dates of those it has are read. */
  lemma PullReadsTenDocuments(docs: seq<Json>)
    ensures var r := FirestorePull(docs);
      && (r.Ok? ==> |docs| >= 10 && |r.value.matchDate| == 10 && forall i :: 0 <= i < 10 ==> MatchDate(docs[i]) == Ok(r.value.matchDate[i]))
      && (|docs| < 10 && (forall i :: 0 <= i < |docs| ==> MatchDate(docs[i]).Ok?) ==> r == Err(IndexError))
  {
  }

  /** Entry i of each raw-value list is the value at its path in document i. */
  lemma PullReadsFields(docs: seq<Json>)
    ensures var r := FirestorePull(docs);
      r.Ok? ==> (|r.value.values| == |ValuePaths| &&
        forall k, i :: 0 <= k < |ValuePaths| && 0 <= i < 10 ==> |r.value.values[k]| == 10 && Walk(docs[i], ValuePaths[k]) == Ok(r.value.values[k][i]))
  {
    if FirestorePull(docs).Ok? {
      FieldListsRead(docs, ValuePaths);
    }
  }

  lemma FieldListsRead(docs: seq<Json>, paths: seq<seq<Step>>)
    requires FieldLists(docs, paths).Ok?
    ensures var values := FieldLists(docs, paths).value;
      |values| == |paths| &&
      forall k, i :: 0 <= k < |paths| && 0 <= i < 10 ==> |values[k]| == 10 && Walk(docs[i], paths[k]) == Ok(values[k][i])
  {
    var values := FieldLists(docs, paths).value;
    forall k, i | 0 <= k < |paths| && 0 <= i < 10
      ensures |values[k]| == 10 && Walk(docs[i], paths[k]) == Ok(values[k][i])
    {
      assert FieldList(docs, paths[k]) == Ok(values[k]);
    }
  }

  /** The rounds the section shows, in order: from maxRound down to
      minRound, none when minRound > maxRound. */
  function Countdown(maxRound: int, minRound: int): (r: seq<int>)
    ensures |r| == if minRound > maxRound then 0 else maxRound - minRound + 1
    ensures forall k :: 0 <= k < |r| ==> r[k] == maxRound - k
    decreases maxRound - minRound
  {
    if minRound > maxRound then [] else [maxRound] + Countdown(maxRound - 1, minRound)
  }

  /** Every round from minRound to maxRound is shown exactly once, and no other. */
  lemma CountdownVisitsEachOnce(maxRound: int, minRound: int, n: int)
    ensures (exists k :: 0 <= k < |Countdown(maxRound, minRound)| && Countdown(maxRound, minRound)[k] == n) <==> minRound <= n <= maxRound
    ensures forall k, m :: 0 <= k < m < |Countdown(maxRound, minRound)| ==> Countdown(maxRound, minRound)[k] > Countdown(maxRound, minRound)[m]
  {
    if minRound <= n <= maxRound {
      assert Countdown(maxRound, minRound)[maxRound - n] == n;
    }
  }

  /** The pull of round n from a store that maps a collection name to its
      documents in date order. */
  function RoundPull(store: string -> seq<Json>): int -> Result<RoundFixtures>
  {
    n => FirestorePull(store(CollectionName(n)))
  }

  /** What the section shows from roundCount down to minRound, given the
      pull of each round: the pulled rounds in order, and the exception of
      the first pull that fails. */
  function Shown(pull: int -> Result<RoundFixtures>, roundCount: int, minRound: int): (seq<RoundFixtures>, Option<PyError>)
    decreases roundCount - minRound
  {
    if roundCount < minRound then ([], None)
    else match pull(roundCount)
      case Err(e) => ([], Some(e))
      case Ok(f) =>
        var rest := Shown(pull, roundCount - 1, minRound);
        ([f] + rest.0, rest.1)
  }

  /** One step of the countdown: a failing pull ends the section, a
      successful one comes before the rounds below it. */
  lemma ShownStep(pull: int -> Result<RoundFixtures>, roundCount: int, minRound: int)
    requires roundCount >= minRound
    ensures pull(roundCount).Err? ==> Shown(pull, roundCount, minRound) == ([], Some(pull(roundCount).error))
    ensures pull(roundCount).Ok? ==>
      Shown(pull, roundCount, minRound) ==
        ([pull(roundCount).value] + Shown(pull, roundCount - 1, minRound).0, Shown(pull, roundCount - 1, minRound).1)
  {
  }

  /** The rounds are pulled in countdown order, each at most once; the
      section stops at the first failing pull and otherwise shows them all. */
  lemma {:induction false} ShownFollowsCountdown(pull: int -> Result<RoundFixtures>, maxRound: int, minRound: int)
    ensures var (shown, failure) := Shown(pull, maxRound, minRound);
      && |shown| <= |Countdown(maxRound, minRound)|
      && (forall k :: 0 <= k < |shown| ==> pull(maxRound - k) == Ok(shown[k]))
      && (failure.None? <==> |shown| == |Countdown(maxRound, minRound)|)
      && (failure.Some? ==> pull(maxRound - |shown|) == Err(failure.value))
    decreases maxRound - minRound
  {
    if maxRound >= minRound && pull(maxRound).Ok? {
      ShownFollowsCountdown(pull, maxRound - 1, minRound);
      var rest := Shown(pull, maxRound - 1, minRound);
      var shown := [pull(maxRound).value] + rest.0;
      forall k | 1 <= k < |shown|
        ensures pull(maxRound - k) == Ok(shown[k])
      {
        assert shown[k] == rest.0[k - 1];
        assert maxRound - k == (maxRound - 1) - (k - 1);
      }
    }
  }

  /** The `while round_count >= min_round` loop of `display`, for any
      pull of a round: counting down, it collects each pulled round, and
      the first failing pull ends the loop with its exception. */
  method PullRounds(pull: int -> Result<RoundFixtures>, maxRound: int, minRound: int) returns (shown: seq<RoundFixtures>, failure: Option<PyError>)
    ensures (shown, failure) == Shown(pull, maxRound, minRound)
  {
    shown := [];
    var roundCount := maxRound;
    assert [] + Shown(pull, roundCount, minRound).0 == Shown(pull, roundCount, minRound).0;
    while roundCount >= minRound
      invariant roundCount <= maxRound
      invariant Shown(pull, maxRound, minRound) == (shown + Shown(pull, roundCount, minRound).0, Shown(pull, roundCount, minRound).1)
      decreases roundCount - minRound
    {
      var pulled := pull(roundCount);
      ShownStep(pull, roundCount, minRound);
      if pulled.Err? {
        assert shown + [] == shown;
        return shown, Some(pulled.error);
      }
      assert shown + ([pulled.value] + Shown(pull, roundCount - 1, minRound).0) == (shown + [pulled.value]) + Shown(pull, roundCount - 1, minRound).0;
      shown := shown + [pulled.value];
      roundCount := roundCount - 1;
    }
    assert shown + [] == shown;
    failure := None;
  }

  /** `display`: the countdown over the rounds, each pulled from the
      Firestore collection named after it. */
  method Display(store: string -> seq<Json>, maxRound: int, minRound: int) returns (shown: seq<RoundFixtures>, failure: Option<PyError>)
    ensures (shown, failure) == Shown(RoundPull(store), maxRound, minRound)
  {
    shown, failure := PullRounds(RoundPull(store), maxRound, minRound);
  }
}
