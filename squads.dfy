/** The squads job: for each of the twenty teams of the standings table,
    in rank order, the squad the API returns is read player by player into
    eight lists, zipped into a frame and written over that team's own
    BigQuery table. */
module Squads {
  import opened Results
  import opened JsonValues
  import opened Frames
  import opened Transform

  const PlayersPath: seq<Step> := [Key("response"), Index(0), Key("players")]

  /** The eight values the inner loop reads for player i, in list order:
      the team's id and name from the first entry, then the player's. */
  function PlayerFields(i: int): seq<Field>
  {
    [
      Read([Key("response"), Index(0), Key("team"), Key("id")], ToInt),
      Read([Key("response"), Index(0), Key("team"), Key("name")], ToStr),
      Read([Key("response"), Index(0), Key("players"), Index(i), Key("id")], ToInt),
      Read([Key("response"), Index(0), Key("players"), Index(i), Key("photo")], ToStr),
      Read([Key("response"), Index(0), Key("players"), Index(i), Key("name")], ToStr),
      Read([Key("response"), Index(0), Key("players"), Index(i), Key("age")], IntOrDefault(NullCell)),
      Read([Key("response"), Index(0), Key("players"), Index(i), Key("number")], IntOrDefault(NullCell)),
      Read([Key("response"), Index(0), Key("players"), Index(i), Key("position")], ToStr)
    ]
  }

  function PlayerRowAt(body: Json): nat -> Result<seq<Cell>>
  {
    i => ReadRow(body, PlayerFields(i))
  }

  /** `players_length`: the length of the first entry's players. */
  function PlayersLength(body: Json): Result<nat>
  {
    var players :- Walk(body, PlayersPath);
    Len(players)
  }

  /** The rows of the inner loop, or the first exception. */
  function SquadRows(body: Json): Result<seq<seq<Cell>>>
  {
    var n :- PlayersLength(body);
    MapRange(n, PlayerRowAt(body))
  }

  const Dataset := "premier_league_squads"

  const Headers := ["team_id", "team_name", "player_id", "player_photo", "player_name",
                    "player_age", "player_number", "player_position"]

  const Schema := [
    Column("team_id", BqInteger), Column("team_name", BqString), Column("player_id", BqInteger),
    Column("player_photo", BqString), Column("player_name", BqString), Column("player_age", BqInteger),
    Column("player_number", BqInteger), Column("player_position", BqString)
  ]

  lemma HeadersMatchSchema()
    ensures Names(Schema) == Headers
  {
  }

  /** The team name of the first row is the `str()` of the first entry's
      team name. */
  lemma TeamNameIsText(body: Json, rows: seq<seq<Cell>>)
    requires SquadRows(body) == Ok(rows) && rows != []
    ensures |rows[0]| == 8 && rows[0][1].TextCell?
  {
    assert PlayerRowAt(body)(0) == Ok(rows[0]);
    var f := PlayerFields(0)[1];
    assert ReadField(body, f) == Ok(rows[0][1]);
    ConvertKind(ToStr, Walk(body, f.path));
  }

  /** The load one outer iteration issues: the team's frame, written over
      the table named after the team name of its first row; a squad
      without players has no first row and raises IndexError. */
  function SquadLoad(body: Json): Result<Load>
  {
    var rows :- SquadRows(body);
    if rows == [] then Err(IndexError)
    else
      TeamNameIsText(body, rows);
      Ok(Load(TeamTable(Dataset, rows[0][1].s), Replace, Frame(Headers, rows), Schema))
  }

  /** One outer iteration: the inner loop fills the lists, which are zipped
      into the frame and loaded. */
  method TeamLoad(body: Json) returns (r: Result<Load>)
    ensures r == SquadLoad(body)
  {
    var players :- Walk(body, PlayersPath);
    var playersLength :- Len(players);
    var lists :- BuildColumns(playersLength, 8, PlayerRowAt(body));
    ghost var rows := MapRange(playersLength, PlayerRowAt(body)).value;
    ZipOfColumns(lists, rows, 8);
    var frame := MakeFrame(Zip(lists), Headers);
    var df := frame.value;
    var teamNameList := lists[1];
    if |teamNameList| == 0 {
      return Err(IndexError);
    }
    TeamNameIsText(body, rows);
    r := Ok(Load(TeamTable(Dataset, teamNameList[0].s), Replace, df, Schema));
  }

  function LoadAt(api: int -> Json, ids: seq<int>): nat -> Result<Load>
  {
    (k: nat) => if k < |ids| then SquadLoad(api(ids[k])) else Err(IndexError)
  }

  /** What the job leaves behind: the loads of the teams before the first
      exception, and that exception. `api(id)` is the decoded answer for
      a team id. */
  function Squads(api: int -> Json, teamIds: seq<int>): Outcome
  {
    match IdList(teamIds)
    case Err(e) => Outcome([], Some(e))
    case Ok(ids) => RunLoads(20, LoadAt(api, ids))
  }

  /** `call_api`: the outer loop over the twenty teams. */
  method CallApi(api: int -> Json, teamIds: seq<int>) returns (o: Outcome)
    ensures o == Squads(api, teamIds)
  {
    var idList := IdList(teamIds);
    if idList.Err? {
      return Outcome([], Some(idList.error));
    }
    var ids := idList.value;
    o := Outcome([], None);
    var outerCount := 0;
    while outerCount < 20
      invariant outerCount <= 20
      invariant o == RunLoads(outerCount, LoadAt(api, ids)) && o.failure.None?
    {
      var load := TeamLoad(api(ids[outerCount]));
      assert load == LoadAt(api, ids)(outerCount);
      if load.Err? {
        RunLoadsStopsAt(20, outerCount, LoadAt(api, ids));
        return Outcome(o.loads, Some(load.error));
      }
      RunLoadsStep(outerCount, LoadAt(api, ids), load.value);
      o := Outcome(o.loads + [load.value], None);
      outerCount := outerCount + 1;
    }
  }

  /** A team whose squad has no players stops the job with IndexError. */
  lemma EmptySquadStops(body: Json)
    requires Walk(body, PlayersPath) == Ok(JArr([]))
    ensures SquadLoad(body) == Err(IndexError)
  {
    assert PlayersLength(body) == Ok(0);
    assert SquadRows(body) == Ok([]);
  }

  /** Every row repeats the team id and team name of the first entry. */
  lemma RowsRepeatTeam(body: Json)
    requires SquadRows(body).Ok?
    ensures forall i :: 0 <= i < |SquadRows(body).value| ==>
      SquadRows(body).value[i][..2] == SquadRows(body).value[0][..2]
  {
    var rows := SquadRows(body).value;
    forall i | 0 <= i < |rows| ensures rows[i][..2] == rows[0][..2] {
      assert ReadRow(body, PlayerFields(i)) == Ok(rows[i]) && ReadRow(body, PlayerFields(0)) == Ok(rows[0]) by {
        assert PlayerRowAt(body)(i) == Ok(rows[i]) && PlayerRowAt(body)(0) == Ok(rows[0]);
      }
      assert PlayerFields(i)[..2] == PlayerFields(0)[..2];
      SharedFieldsReadAlike(body, PlayerFields(i), PlayerFields(0), 2);
    }
  }

  /** A player without an age or a number gets None in that column. */
  lemma MissingAgeOrNumberIsNull(body: Json, i: int, column: int)
    requires column == 5 || column == 6
    requires Walk(body, PlayerFields(i)[column].path) == Ok(JNull)
    ensures ReadField(body, PlayerFields(i)[column]) == Ok(NullCell)
  {
    IntOrDefaultCatches(body, PlayerFields(i)[column].path, NullCell);
  }

  /** A team's load replaces its table, with the job's schema. */
  lemma SquadLoadReplaces(body: Json)
    requires SquadLoad(body).Ok?
    ensures SquadLoad(body).value.mode == Replace && SquadLoad(body).value.schema == Schema
  {
  }

  /** Every load of the job replaces a table, with the job's schema. */
  lemma SquadLoadsReplace(api: int -> Json, teamIds: seq<int>)
    ensures var loads := Squads(api, teamIds).loads;
      forall k :: 0 <= k < |loads| ==> loads[k].mode == Replace && loads[k].schema == Schema
  {
    var o := Squads(api, teamIds);
    if IdList(teamIds).Ok? {
      var ids := IdList(teamIds).value;
      forall k | 0 <= k < |o.loads| ensures o.loads[k].mode == Replace && o.loads[k].schema == Schema {
        assert LoadAt(api, ids)(k) == Ok(o.loads[k]);
        SquadLoadReplaces(api(ids[k]));
      }
    }
  }

  /** Every load of the job replaces a table, and each written table ends up
      holding the frame of the last team to write it. */
  lemma SquadsReplaceTables(w: Warehouse, api: int -> Json, teamIds: seq<int>)
    ensures var o := Squads(api, teamIds);
      forall k :: 0 <= k < |o.loads| ==> o.loads[k].mode == Replace && o.loads[k].schema == Schema
    ensures var o := Squads(api, teamIds);
      forall k :: LastWriteTo(o.loads, k) ==>
        o.loads[k].table in ApplyAll(w, o.loads) && ApplyAll(w, o.loads)[o.loads[k].table] == o.loads[k].frame
  {
    SquadLoadsReplace(api, teamIds);
    ApplyAllReplaces(w, Squads(api, teamIds).loads);
  }
}
