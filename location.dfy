/** The location script: at import it collects the 20 team ids of the
    standings, asks the teams endpoint for each team's name and city, and
    normalises the three lists; the Location class then loads them as
    (ID, Team, City) rows, or drops the table. */
module Location {
  import opened Results
  import opened Text
  import opened JsonValues
  import opened Frames

  /** Where the standings hold the id of the team in place count. */
  function TeamIdPath(count: nat): seq<Step>
  {
    [Key("response"), Index(0), Key("league"), Key("standings"), Index(0), Index(count), Key("team"), Key("id")]
  }

  /** `str(json.dumps(...["team"]["id"]))` for place count. */
  function IdAt(standings: Json): nat -> Result<string>
  {
    (count: nat) => var id :- Walk(standings, TeamIdPath(count)); Dumps(id, true)
  }

  /** The id list: one entry per standings place 0..19, or the first exception. */
  function Ids(standings: Json): Result<seq<string>>
  {
    MapRange(20, IdAt(standings))
  }

  /** The `while count < 20` loop that fills id_list. */
  method FillIds(standings: Json) returns (r: Result<seq<string>>)
    ensures r == Ids(standings)
  {
    var idList: seq<string> := [];
    var count := 0;
    while count < 20
      invariant count <= 20
      invariant MapRange(count, IdAt(standings)) == Ok(idList)
    {
      var id := IdAt(standings)(count);
      if id.Err? {
        MapRangeFirstError(20, IdAt(standings), count);
        return Err(id.error);
      }
      MapRangeExtends(count, IdAt(standings));
      idList := idList + [id.value];
      count := count + 1;
    }
    r := Ok(idList);
  }

  /** Exactly 20 ids are collected, entry count from standings place count. */
  lemma {:induction false} IdsFollowStandings(standings: Json)
    requires Ids(standings).Ok?
    ensures |Ids(standings).value| == 20
    ensures forall count :: 0 <= count < 20 ==> IdAt(standings)(count) == Ok(Ids(standings).value[count])
    ensures forall count :: 0 <= count < 20 ==> Walk(standings, TeamIdPath(count)).Ok?
  {
    forall count | 0 <= count < 20 ensures Walk(standings, TeamIdPath(count)).Ok? {
      assert IdAt(standings)(count).Ok?;
    }
  }

  /** `str(json.dumps(json_res["response"][0]["team"]["name"]))` and the
      same for `["venue"]["city"]`, from the answer to one teams request. */
  function TeamAndCity(answer: Json): Result<(string, string)>
  {
    var name :- Walk(answer, [Key("response"), Index(0), Key("team"), Key("name")]);
    var team :- Dumps(name, true);
    var city :- Walk(answer, [Key("response"), Index(0), Key("venue"), Key("city")]);
    var cityText :- Dumps(city, true);
    Ok((team, cityText))
  }

  function LookupAt(api: string -> Json, ids: seq<string>): nat -> Result<(string, string)>
  {
    (k: nat) => if k < |ids| then TeamAndCity(api(ids[k])) else Err(IndexError)
  }

  /** One teams request per id, in id order, or the first exception. */
  function Lookups(api: string -> Json, ids: seq<string>): Result<seq<(string, string)>>
  {
    MapRange(|ids|, LookupAt(api, ids))
  }

  /** The team texts and the city texts of the answers, as two parallel lists. */
  function Unzip(answers: seq<(string, string)>): (r: (seq<string>, seq<string>))
    ensures |r.0| == |answers| && |r.1| == |answers|
    ensures forall k :: 0 <= k < |answers| ==> answers[k] == (r.0[k], r.1[k])
  {
    if answers == [] then ([], [])
    else
      var init := Unzip(answers[..|answers| - 1]);
      (init.0 + [answers[|answers| - 1].0], init.1 + [answers[|answers| - 1].1])
  }

  /** The `for id in id_list` loop: team_list and city_list grow together,
      entry k from the request made with id k. */
  method FillTeamsAndCities(api: string -> Json, ids: seq<string>) returns (r: Result<(seq<string>, seq<string>)>)
    ensures r.Ok? <==> Lookups(api, ids).Ok?
    ensures r.Ok? ==> r.value == Unzip(Lookups(api, ids).value)
    ensures r.Err? ==> r.error == Lookups(api, ids).error
  {
    var teamList: seq<string> := [];
    var cityList: seq<string> := [];
    for k := 0 to |ids|
      invariant MapRange(k, LookupAt(api, ids)).Ok?
      invariant |teamList| == k && |cityList| == k
      invariant forall m :: 0 <= m < k ==> MapRange(k, LookupAt(api, ids)).value[m] == (teamList[m], cityList[m])
    {
      var answer := LookupAt(api, ids)(k);
      if answer.Err? {
        MapRangeFirstError(|ids|, LookupAt(api, ids), k);
        return Err(answer.error);
      }
      MapRangeExtends(k, LookupAt(api, ids));
      teamList := teamList + [answer.value.0];
      cityList := cityList + [answer.value.1];
    }
    var unzipped := Unzip(MapRange(|ids|, LookupAt(api, ids)).value);
    assert teamList == unzipped.0 && cityList == unzipped.1;
    r := Ok((teamList, cityList));
  }

  /** Python's `eval` on the text `json.dumps` wrote for an id, as the frame
      cell it becomes: an integer literal gives the integer, a plain string
      literal the string, and `null`, `true` and `false` are undefined names.
      Other texts are not modelled. */
  function Eval(t: string): (r: Result<Cell>)
    ensures r.Ok? ==> r.value.IntCell? || r.value.TextCell?
    ensures t == "null" || t == "true" || t == "false" ==> r == Err(NameError)
  {
    if t == "null" || t == "true" || t == "false" then Err(NameError)
    else if |t| >= 2 && t[0] == '"' && t[|t| - 1] == '"' && forall k :: 1 <= k < |t| - 1 ==> Verbatim(t[k], true) then
      Ok(TextCell(t[1..|t| - 1]))
    else
      match ParseInt(t)
      case Ok(i) => if IntToString(i) == t then Ok(IntCell(i)) else Err(NotModelled)
      case Err(_) => Err(NotModelled)
  }

  /** An integer id written by `json.dumps` is read back by `eval` as the same integer. */
  lemma EvalReadsDumpedInt(i: int)
    ensures Dumps(JInt(i), true) == Ok(IntToString(i))
    ensures Eval(IntToString(i)) == Ok(IntCell(i))
  {
    var t := IntToString(i);
    assert t[0] == '-' || IsDigit(t[0]) by {
      if i >= 0 { assert IsDigit(t[0]); }
    }
    assert t != "null" && t != "true" && t != "false" && t[0] != '"';
    ParseIntRoundTrip(i);
  }

  /** A string id whose characters `json.dumps` writes as themselves is read
      back by `eval` as the same string. */
  lemma EvalReadsDumpedString(s: string)
    requires forall k :: 0 <= k < |s| ==> Verbatim(s[k], true)
    ensures Dumps(JStr(s), true) == Ok("\"" + s + "\"")
    ensures Eval("\"" + s + "\"") == Ok(TextCell(s))
  {
    var t := "\"" + s + "\"";
    assert t[0] == '"' && t[|t| - 1] == '"' && t[1..|t| - 1] == s;
    assert forall k :: 1 <= k < |t| - 1 ==> t[k] == s[k - 1];
    assert t != "null" && t != "true" && t != "false";
  }

  /** A null id makes `eval` raise NameError. */
  lemma EvalRejectsNull()
    ensures Dumps(JNull, true) == Ok("null")
    ensures Eval("null") == Err(NameError)
  {
  }

  function EvalAt(ids: seq<string>): nat -> Result<Cell>
  {
    (k: nat) => if k < |ids| then Eval(ids[k]) else Err(IndexError)
  }

  /** `id_int = [eval(team_id) for team_id in id_list]`. */
  function IdInts(ids: seq<string>): Result<seq<Cell>>
  {
    MapRange(|ids|, EvalAt(ids))
  }

  /** Each team name without its surrounding quotes. */
  function StrippedTeams(teamList: seq<string>): (r: seq<string>)
    ensures |r| == |teamList|
    ensures forall k :: 0 <= k < |teamList| ==> r[k] == StripChar(teamList[k], '"')
  {
    if teamList == [] then []
    else StrippedTeams(teamList[..|teamList| - 1]) + [StripChar(teamList[|teamList| - 1], '"')]
  }

  /** The loop over team_list. */
  method StripTeams(teamList: seq<string>) returns (strippedTeam: seq<string>)
    ensures strippedTeam == StrippedTeams(teamList)
  {
    strippedTeam := [];
    for k := 0 to |teamList|
      invariant |strippedTeam| == k
      invariant forall m :: 0 <= m < k ==> strippedTeam[m] == StripChar(teamList[m], '"')
    {
      var team := StripChar(teamList[k], '"');
      strippedTeam := strippedTeam + [team];
    }
  }

  /** A city without its quotes, cut before its first comma: a prefix of the
      unquoted city, followed there by a comma or by nothing. */
  function CityOf(city: string): (r: string)
    ensures var u := StripChar(city, '"'); r <= u && (|r| < |u| ==> u[|r|] == ',') && (',' !in u ==> r == u)
    ensures ',' !in r
    ensures r == [] || (r[0] != '"' && (',' in StripChar(city, '"') || r[|r| - 1] != '"'))
  {
    BeforeFirst(StripChar(city, '"'), ',')
  }

  /** Each city cut as CityOf cuts it. */
  function Cities(cityList: seq<string>): (r: seq<string>)
    ensures |r| == |cityList|
    ensures forall k :: 0 <= k < |cityList| ==> r[k] == CityOf(cityList[k])
  {
    if cityList == [] then []
    else Cities(cityList[..|cityList| - 1]) + [CityOf(cityList[|cityList| - 1])]
  }

  /** The loop over city_list. */
  method StripCities(cityList: seq<string>) returns (strippedCity: seq<string>)
    ensures strippedCity == Cities(cityList)
  {
    strippedCity := [];
    for k := 0 to |cityList|
      invariant |strippedCity| == k
      invariant forall m :: 0 <= m < k ==> strippedCity[m] == CityOf(cityList[m])
    {
      var city := StripChar(cityList[k], '"');
      city := BeforeFirst(city, ',');
      strippedCity := strippedCity + [city];
    }
  }

  /** A team name given as a plain JSON string comes out as that string. */
  lemma TeamNameRoundTrip(name: string)
    requires forall k :: 0 <= k < |name| ==> Verbatim(name[k], true)
    ensures Dumps(JStr(name), true) == Ok("\"" + name + "\"")
    ensures StripChar("\"" + name + "\"", '"') == name
  {
    StripCharUnquotes(name);
  }

  /** A city given as a plain JSON string comes out as its text before the
      first comma, or whole when it has no comma. */
  lemma CityRoundTrip(city: string)
    requires forall k :: 0 <= k < |city| ==> Verbatim(city[k], true)
    ensures Dumps(JStr(city), true) == Ok("\"" + city + "\"")
    ensures CityOf("\"" + city + "\"") == BeforeFirst(city, ',')
    ensures ',' !in city ==> CityOf("\"" + city + "\"") == city
  {
    StripCharUnquotes(city);
  }

  /** The module-level lists the Location class reads. */
  datatype Lists = Lists(idInt: seq<Cell>, strippedTeam: seq<string>, strippedCity: seq<string>)

  /** What importing the script computes, or the exception that stops it:
      the ids first, then the requests, then the `eval` of each id. */
  function Script(standings: Json, api: string -> Json): Result<Lists>
  {
    var ids :- Ids(standings);
    var answers :- Lookups(api, ids);
    var idInt :- IdInts(ids);
    var lists := Unzip(answers);
    Ok(Lists(idInt, StrippedTeams(lists.0), Cities(lists.1)))
  }

  /** The module body, statement by statement. */
  method Import(standings: Json, api: string -> Json) returns (r: Result<Lists>)
    ensures r == Script(standings, api)
  {
    var idList :- FillIds(standings);
    var lists :- FillTeamsAndCities(api, idList);
    var idInt :- IdInts(idList);
    var strippedTeam := StripTeams(lists.0);
    var strippedCity := StripCities(lists.1);
    r := Ok(Lists(idInt, strippedTeam, strippedCity));
  }

  /** `list(zip(id_int, stripped_team, stripped_city))`. */
  function Rows(lists: Lists): seq<seq<Cell>>
  {
    Zip([lists.idInt,
         seq(|lists.strippedTeam|, k requires 0 <= k < |lists.strippedTeam| => TextCell(lists.strippedTeam[k])),
         seq(|lists.strippedCity|, k requires 0 <= k < |lists.strippedCity| => TextCell(lists.strippedCity[k]))])
  }

  /** Three lists of one length zip into (ID, Team, City) triples, in list order. */
  lemma RowsAreTriples(lists: Lists)
    requires |lists.idInt| == |lists.strippedTeam| == |lists.strippedCity|
    ensures |Rows(lists)| == |lists.idInt|
    ensures forall k :: 0 <= k < |lists.idInt| ==>
      Rows(lists)[k] == [lists.idInt[k], TextCell(lists.strippedTeam[k]), TextCell(lists.strippedCity[k])]
  {
    var cols := [lists.idInt,
         seq(|lists.strippedTeam|, k requires 0 <= k < |lists.strippedTeam| => TextCell(lists.strippedTeam[k])),
         seq(|lists.strippedCity|, k requires 0 <= k < |lists.strippedCity| => TextCell(lists.strippedCity[k]))];
    assert MinLength(cols) == |lists.idInt| by {
      assert MinLength(cols[..2]) == |lists.idInt|;
    }
  }

  /** Entry k of each list comes from standings place k: the id's `eval`,
      and the team and the city of the answer to that id's request. */
  lemma {:induction false} ListsFollowIds(standings: Json, api: string -> Json)
    requires Script(standings, api).Ok?
    ensures Ids(standings).Ok? && Lookups(api, Ids(standings).value).Ok?
    ensures var lists := Script(standings, api).value;
      |lists.idInt| == 20 && |lists.strippedTeam| == 20 && |lists.strippedCity| == 20
    ensures forall k :: 0 <= k < 20 ==>
      var lists := Script(standings, api).value;
      var ids := Ids(standings).value;
      && Eval(ids[k]) == Ok(lists.idInt[k])
      && lists.strippedTeam[k] == StripChar(Lookups(api, ids).value[k].0, '"')
      && lists.strippedCity[k] == CityOf(Lookups(api, ids).value[k].1)
  {
    var ids := Ids(standings).value;
    var answers := Lookups(api, ids).value;
    var idInt := IdInts(ids).value;
    var pair := Unzip(answers);
    assert Script(standings, api).value == Lists(idInt, StrippedTeams(pair.0), Cities(pair.1));
    assert |ids| == 20 && |answers| == 20 && |idInt| == 20;
    forall k | 0 <= k < 20
      ensures Eval(ids[k]) == Ok(idInt[k])
    {
      assert EvalAt(ids)(k) == Ok(idInt[k]);
    }
  }

  /** When every standings team id is an integer, the id list holds their
      decimal texts and `eval` turns them back into those integers. */
  lemma {:induction false} IntegerIdsRoundTrip(standings: Json, teamIds: seq<int>)
    requires |teamIds| == 20
    requires forall k :: 0 <= k < 20 ==> Walk(standings, TeamIdPath(k)) == Ok(JInt(teamIds[k]))
    ensures Ids(standings).Ok? && IdInts(Ids(standings).value).Ok?
    ensures forall k :: 0 <= k < 20 ==> IdInts(Ids(standings).value).value[k] == IntCell(teamIds[k])
  {
    forall k | 0 <= k < 20 ensures IdAt(standings)(k) == Ok(IntToString(teamIds[k])) {
      EvalReadsDumpedInt(teamIds[k]);
    }
    var ids := Ids(standings).value;
    forall k | 0 <= k < 20 ensures EvalAt(ids)(k) == Ok(IntCell(teamIds[k])) {
      EvalReadsDumpedInt(teamIds[k]);
    }
  }

  const Headers := ["ID", "Team", "City"]

  /** `Location.load`: the rows are appended to the location table. */
  function LoadJob(locationName: string, lists: Lists): (l: Load)
    ensures l.table == locationName && l.mode == Append
    ensures l.frame.columns == Headers && l.frame.rows == Rows(lists)
  {
    Load(locationName, Append, Frame(Headers, Rows(lists)), [])
  }

  /** `Location.drop`: the location table of the project's premier_league
      dataset is removed; no other table changes. */
  function Drop(w: Warehouse, projectId: string): (r: Warehouse)
    ensures r.Keys == w.Keys - {projectId + ".premier_league.location"}
    ensures forall t :: t in r ==> r[t] == w[t]
  {
    w - {projectId + ".premier_league.location"}
  }
}
