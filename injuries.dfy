/** The injuries job: a first pass asks the injuries endpoint about each of
    the twenty teams of the standings table and keeps the teams with a
    non-empty answer; a second pass asks again about each kept team and
    writes its injured players over that team's own BigQuery table. */
module Injuries {
  import opened Results
  import opened JsonValues
  import opened Frames
  import opened Transform
  import opened Timestamps

  /** The `json_res["response"] == []` test, negated: whether the team is
      kept. An answer without a "response" key raises KeyError. */
  function HasInjuries(answer: Json): Result<bool>
  {
    var response :- Get(answer, "response");
    Ok(response != JArr([]))
  }

  /** The ids the first pass keeps, in order. `firstPass(id)` is the
      decoded answer for a team on the day of the first pass. */
  function InjuredTeams(firstPass: int -> Json, ids: seq<int>): (r: Result<seq<int>>)
    ensures r.Ok? <==> forall k :: 0 <= k < |ids| ==> HasInjuries(firstPass(ids[k])).Ok?
    ensures r.Ok? ==> |r.value| <= |ids|
    decreases |ids|
  {
    if ids == [] then Ok([])
    else
      var front := ids[..|ids| - 1];
      var last := ids[|ids| - 1];
      assert forall k :: 0 <= k < |front| ==> front[k] == ids[k];
      var kept :- InjuredTeams(firstPass, front);
      var injured :- HasInjuries(firstPass(last));
      Ok(if injured then kept + [last] else kept)
  }

  /** The first pass keeps exactly the teams whose answer is not an empty
      list, only ids it was given, and in the order it was given them. */
  lemma {:induction false} InjuredTeamsKeeps(firstPass: int -> Json, ids: seq<int>)
    requires InjuredTeams(firstPass, ids).Ok?
    ensures forall id :: id in InjuredTeams(firstPass, ids).value <==> id in ids && HasInjuries(firstPass(id)) == Ok(true)
    ensures IsSubsequence(InjuredTeams(firstPass, ids).value, ids)
    decreases |ids|
  {
    if ids != [] {
      var front := ids[..|ids| - 1];
      var last := ids[|ids| - 1];
      assert ids == front + [last];
      InjuredTeamsKeeps(firstPass, front);
      var kept := InjuredTeams(firstPass, front).value;
      if HasInjuries(firstPass(last)) == Ok(true) {
        assert (kept + [last])[..|kept|] == kept;
      }
    }
  }

  /** The first pass stops at the first answer without a "response" key. */
  lemma {:induction false} InjuredTeamsStopsAt(firstPass: int -> Json, ids: seq<int>, k: nat)
    requires k < |ids| && InjuredTeams(firstPass, ids[..k]).Ok? && HasInjuries(firstPass(ids[k])).Err?
    ensures InjuredTeams(firstPass, ids) == Err(HasInjuries(firstPass(ids[k])).error)
    decreases |ids|
  {
    var front := ids[..|ids| - 1];
    if k < |ids| - 1 {
      assert front[..k] == ids[..k] && front[k] == ids[k];
      InjuredTeamsStopsAt(firstPass, front, k);
    } else {
      assert front == ids[..k];
    }
  }

  /** `get_teams_with_injuries`: the first twenty standings ids, then the
      loop over them. */
  method GetTeamsWithInjuries(firstPass: int -> Json, teamIds: seq<int>) returns (r: Result<seq<int>>)
    ensures r.Ok? <==> IdList(teamIds).Ok? && InjuredTeams(firstPass, IdList(teamIds).value).Ok?
    ensures r.Ok? ==> r.value == InjuredTeams(firstPass, IdList(teamIds).value).value
    ensures r.Err? ==> r.error == (if IdList(teamIds).Err? then IdList(teamIds).error
                                   else InjuredTeams(firstPass, IdList(teamIds).value).error)
  {
    var idList :- IdList(teamIds);
    var injuriedTeamsList := [];
    var k := 0;
    while k < |idList|
      invariant k <= |idList|
      invariant InjuredTeams(firstPass, idList[..k]) == Ok(injuriedTeamsList)
    {
      var id := idList[k];
      assert idList[..k + 1][..k] == idList[..k];
      var response := Get(firstPass(id), "response");
      if response.Err? {
        InjuredTeamsStopsAt(firstPass, idList, k);
        return Err(response.error);
      }
      if response.value != JArr([]) {
        injuriedTeamsList := injuriedTeamsList + [id];
      }
      k := k + 1;
    }
    assert idList[..k] == idList;
    r := Ok(injuriedTeamsList);
  }

  /** The seven values the inner loop reads for entry i, in list order. The
      team id is always taken from the first entry. */
  function InjuryFields(i: int): seq<Field>
  {
    [
      Read([Key("response"), Index(0), Key("team"), Key("id")], ToInt),
      Read([Key("response"), Index(i), Key("team"), Key("name")], ToStr),
      Read([Key("response"), Index(i), Key("player"), Key("id")], ToInt),
      Read([Key("response"), Index(i), Key("player"), Key("name")], ToStr),
      Read([Key("response"), Index(i), Key("player"), Key("type")], ToStr),
      Read([Key("response"), Index(i), Key("player"), Key("reason")], ToStr),
      Read([Key("response"), Index(i), Key("fixture"), Key("date")], ToDate)
    ]
  }

  function InjuryRowAt(body: Json): nat -> Result<seq<Cell>>
  {
    i => ReadRow(body, InjuryFields(i))
  }

  /** `response_length`. */
  function ResponseLength(body: Json): Result<nat>
  {
    var response :- Get(body, "response");
    Len(response)
  }

  /** The rows of the inner loop, or the first exception. */
  function InjuryRows(body: Json): Result<seq<seq<Cell>>>
  {
    var n :- ResponseLength(body);
    MapRange(n, InjuryRowAt(body))
  }

  const Dataset := "premier_league_injuries"

  const Headers := ["team_id", "team_name", "player_id", "player_name", "injury_type",
                    "injury_reason", "injury_date"]

  const Schema := [
    Column("team_id", BqInteger), Column("team_name", BqString), Column("player_id", BqInteger),
    Column("player_name", BqString), Column("injury_type", BqString), Column("injury_reason", BqString),
    Column("injury_date", BqDate)
  ]

  lemma HeadersMatchSchema()
    ensures Names(Schema) == Headers
  {
  }

  lemma TeamNameIsText(body: Json, rows: seq<seq<Cell>>)
    requires InjuryRows(body) == Ok(rows) && rows != []
    ensures |rows[0]| == 7 && rows[0][1].TextCell?
  {
    assert InjuryRowAt(body)(0) == Ok(rows[0]);
    var f := InjuryFields(0)[1];
    assert ReadField(body, f) == Ok(rows[0][1]);
    ConvertKind(ToStr, Walk(body, f.path));
  }

  /** The load one outer iteration issues: the frame, written over the
      table named after the first row's team name; an empty answer has no
      first row and raises IndexError. */
  function InjuryLoad(body: Json): Result<Load>
  {
    var rows :- InjuryRows(body);
    if rows == [] then Err(IndexError)
    else
      TeamNameIsText(body, rows);
      Ok(Load(TeamTable(Dataset, rows[0][1].s), Replace, Frame(Headers, rows), Schema))
  }

  /** One outer iteration: the inner loop fills the lists, which are zipped
      into the frame and loaded. */
  method TeamLoad(body: Json) returns (r: Result<Load>)
    ensures r == InjuryLoad(body)
  {
    var response :- Get(body, "response");
    var responseLength :- Len(response);
    var lists :- BuildColumns(responseLength, 7, InjuryRowAt(body));
    ghost var rows := MapRange(responseLength, InjuryRowAt(body)).value;
    ZipOfColumns(lists, rows, 7);
    var frame := MakeFrame(Zip(lists), Headers);
    var df := frame.value;
    var teamNameList := lists[1];
    if |teamNameList| == 0 {
      return Err(IndexError);
    }
    TeamNameIsText(body, rows);
    r := Ok(Load(TeamTable(Dataset, teamNameList[0].s), Replace, df, Schema));
  }

  function LoadAt(secondPass: int -> Json, ids: seq<int>): nat -> Result<Load>
  {
    (k: nat) => if k < |ids| then InjuryLoad(secondPass(ids[k])) else Err(IndexError)
  }

  /** What the job leaves behind. `secondPass(id)` is the decoded answer
      for a team on the day of the second pass. */
  function Injuries(firstPass: int -> Json, secondPass: int -> Json, teamIds: seq<int>): Outcome
  {
    match IdList(teamIds)
    case Err(e) => Outcome([], Some(e))
    case Ok(ids) =>
      match InjuredTeams(firstPass, ids)
      case Err(e) => Outcome([], Some(e))
      case Ok(injured) => RunLoads(|injured|, LoadAt(secondPass, injured))
  }

  /** The `for id in injuried_teams_list` loop: one load per kept team,
      until the first exception. */
  method LoadInjuredTeams(secondPass: int -> Json, injuriedTeamsList: seq<int>) returns (o: Outcome)
    ensures o == RunLoads(|injuriedTeamsList|, LoadAt(secondPass, injuriedTeamsList))
  {
    o := Outcome([], None);
    var k := 0;
    while k < |injuriedTeamsList|
      invariant k <= |injuriedTeamsList|
      invariant o == RunLoads(k, LoadAt(secondPass, injuriedTeamsList)) && o.failure.None?
    {
      var load := TeamLoad(secondPass(injuriedTeamsList[k]));
      assert load == LoadAt(secondPass, injuriedTeamsList)(k);
      if load.Err? {
        RunLoadsStopsAt(|injuriedTeamsList|, k, LoadAt(secondPass, injuriedTeamsList));
        return Outcome(o.loads, Some(load.error));
      }
      RunLoadsStep(k, LoadAt(secondPass, injuriedTeamsList), load.value);
      o := Outcome(o.loads + [load.value], None);
      k := k + 1;
    }
  }

  /** `call_api`: the first pass, then one load per kept team. */
  method CallApi(firstPass: int -> Json, secondPass: int -> Json, teamIds: seq<int>) returns (o: Outcome)
    ensures o == Injuries(firstPass, secondPass, teamIds)
  {
    var kept := GetTeamsWithInjuries(firstPass, teamIds);
    if kept.Err? {
      return Outcome([], Some(kept.error));
    }
    o := LoadInjuredTeams(secondPass, kept.value);
  }

  /** A team whose second answer is an empty list stops the job with
      IndexError; a non-empty list is loaded exactly when its rows read. */
  lemma EmptyAnswerStops(body: Json, items: seq<Json>)
    requires Get(body, "response") == Ok(JArr(items))
    ensures items == [] ==> InjuryLoad(body) == Err(IndexError)
    ensures items != [] ==> (InjuryLoad(body).Ok? <==> InjuryRows(body).Ok?)
  {
  }

  /** Every row carries the team id of the first entry, whichever team its
      own entry names. */
  lemma TeamIdFromFirstEntry(body: Json)
    requires InjuryRows(body).Ok?
    ensures forall i :: 0 <= i < |InjuryRows(body).value| ==> InjuryRows(body).value[i][0] == InjuryRows(body).value[0][0]
  {
    var rows := InjuryRows(body).value;
    forall i | 0 <= i < |rows| ensures rows[i][0] == rows[0][0] {
      assert InjuryRowAt(body)(i) == Ok(rows[i]) && InjuryRowAt(body)(0) == Ok(rows[0]);
      assert InjuryFields(i)[0] == InjuryFields(0)[0];
      assert ReadField(body, InjuryFields(i)[0]) == Ok(rows[i][0]);
      assert ReadField(body, InjuryFields(0)[0]) == Ok(rows[0][0]);
    }
  }

  /** The injury date of a row is the date part of the fixture time. */
  lemma InjuryDateIsDatePart(body: Json, i: nat)
    requires InjuryRowAt(body)(i).Ok?
    ensures var f := InjuryFields(i)[6];
      Walk(body, f.path).Ok? && Walk(body, f.path).value.JStr? &&
      Strptime(Walk(body, f.path).value.s, UtcOffset).Ok? &&
      InjuryRowAt(body)(i).value[6] == TextCell(DateText(Strptime(Walk(body, f.path).value.s, UtcOffset).value))
  {
    var f := InjuryFields(i)[6];
    assert ReadField(body, f) == Ok(InjuryRowAt(body)(i).value[6]);
  }
}
