/** The Postgres teams job: the twenty team ids of the standings table,
    in rank order, are each sent to the team-statistics endpoint, and nine
    values of every answer are written to the Postgres teams table. */
module Teams {
  import opened Results
  import opened JsonValues
  import opened Frames
  import opened Transform
  import PostgresLoader

  /** The nine values read from one answer, in list order. */
  const ResponseFields: seq<Field> := PrefixAll([Key("response")], [
    Read([Key("team"), Key("id")], ToInt),
    Read([Key("team"), Key("name")], ToStr),
    Read([Key("team"), Key("logo")], ToStr),
    Read([Key("form")], ToStr),
    Read([Key("clean_sheet"), Key("total")], ToInt),
    Read([Key("penalty"), Key("scored"), Key("total")], ToInt),
    Read([Key("penalty"), Key("missed"), Key("total")], ToInt),
    Read([Key("goals"), Key("for"), Key("average"), Key("total")], ToFloat),
    Read([Key("biggest"), Key("streak"), Key("wins")], ToInt)
  ])

  /** The row of iteration `count`: the answer for the count-th id. The
      request is a parameter: `api(id)` is the decoded answer for a team. */
  function RowAt(api: int -> Json, ids: seq<int>): nat -> Result<seq<Cell>>
  {
    (count: nat) => if count < |ids| then ReadRow(api(ids[count]), ResponseFields) else Err(IndexError)
  }

  /** The rows of the twenty iterations, or the first exception. */
  function Rows(api: int -> Json, teamIds: seq<int>): Result<seq<seq<Cell>>>
  {
    var ids :- IdList(teamIds);
    MapRange(20, RowAt(api, ids))
  }

  /** `call_api`: the ids are taken first, then the `while count < 20` loop
      requests each team and fills the nine lists. */
  method CallApi(api: int -> Json, teamIds: seq<int>) returns (r: Result<seq<seq<Cell>>>)
    ensures r.Ok? <==> Rows(api, teamIds).Ok?
    ensures r.Ok? ==> IsColumnsOf(r.value, Rows(api, teamIds).value, 9)
    ensures r.Err? ==> r.error == Rows(api, teamIds).error
  {
    var idList :- IdList(teamIds);
    r := BuildColumns(20, 9, RowAt(api, idList));
  }

  const Headers := ["team_id", "team", "logo", "form", "clean_sheets", "penalties_scored",
                    "penalties_missed", "average_goals", "win_streak"]

  /** `create_dataframe`: one row per team, in rank order. */
  method CreateDataFrame(api: int -> Json, teamIds: seq<int>) returns (r: Result<Frame>)
    ensures r.Ok? <==> Rows(api, teamIds).Ok?
    ensures r.Ok? ==> r.value == Frame(Headers, Rows(api, teamIds).value) && |r.value.rows| == 20
    ensures r.Err? ==> r.error == Rows(api, teamIds).error
  {
    var lists :- CallApi(api, teamIds);
    ZipOfColumns(lists, Rows(api, teamIds).value, 9);
    r := MakeFrame(Zip(lists), Headers);
  }

  /** Fewer than twenty standings rows fail before any request is made. */
  lemma ShortStandingsFail(api: int -> Json, teamIds: seq<int>)
    requires |teamIds| < 20
    ensures Rows(api, teamIds) == Err(IndexError)
  {
  }

  /** Row `count` depends on nothing but the answer for the count-th team. */
  lemma RowReadsItsTeam(api: int -> Json, other: int -> Json, teamIds: seq<int>, count: nat)
    requires |teamIds| >= 20 && count < 20 && api(teamIds[count]) == other(teamIds[count])
    ensures RowAt(api, teamIds[..20])(count) == RowAt(other, teamIds[..20])(count)
  {
  }

  /** `define_table_schema`. */
  const Schema := [
    Column("team_id", SmallInt), Column("team", VarChar(64)), Column("logo", VarChar(256)),
    Column("form", VarChar(24)), Column("clean_sheets", SmallInt), Column("penalties_scored", SmallInt),
    Column("penalties_missed", SmallInt), Column("average_goals", SmallInt), Column("win_streak", SmallInt)
  ]

  lemma HeadersMatchSchema()
    ensures Names(Schema) == Headers
  {
  }

  /** The average goals `float()` reads are declared SMALLINT: a read row's
      average never has its column's kind. */
  lemma AverageGoalsDeclaredSmallInt(answer: Json)
    requires ReadRow(answer, ResponseFields).Ok?
    ensures ReadRow(answer, ResponseFields).value[7].DecimalCell?
    ensures !Fits(ReadRow(answer, ResponseFields).value[7], Schema[7].ty)
  {
    var f := ResponseFields[7];
    assert f == Read([Key("response"), Key("goals"), Key("for"), Key("average"), Key("total")], ToFloat);
    ConvertKind(ToFloat, Walk(answer, f.path));
  }

  /** The module body: the frame is built and sent to "premier-league-schema"
      "teams" with the schema argument left out, which the loader replaces
      by the same schema. */
  method Run(w: Warehouse, api: int -> Json, teamIds: seq<int>) returns (r: Result<Warehouse>)
    ensures r.Ok? <==> Rows(api, teamIds).Ok?
    ensures r.Ok? ==> r.value == Apply(w, Load(PostgresLoader.QualifiedName("premier-league-schema", "teams"), Replace,
                                               Frame(Headers, Rows(api, teamIds).value), Schema))
    ensures r.Err? ==> r.error == Rows(api, teamIds).error
  {
    var df :- CreateDataFrame(api, teamIds);
    var load := PostgresLoader.SendDataframe("premier-league-schema", "teams", df, PostgresLoader.Omitted, Schema);
    r := Ok(Apply(w, load.value));
  }
}
