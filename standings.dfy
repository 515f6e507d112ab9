/** The standings job: the twenty entries of the league table the API
    returns are read into twelve parallel lists, zipped into a frame and
    written over the BigQuery standings table. */
module Standings {
  import opened Results
  import opened JsonValues
  import opened Frames
  import opened Transform

  /** The subscript chain of the entry read by iteration `count`. */
  function Entry(count: int): seq<Step>
  {
    [Key("response"), Index(0), Key("league"), Key("standings"), Index(0), Index(count)]
  }

  /** The twelve values one iteration reads from its entry, in list order. */
  const EntryFields: seq<Field> := [
    Read([Key("team"), Key("id")], ToInt),
    Read([Key("rank")], ToInt),
    Read([Key("team"), Key("name")], Dumped(true)),
    Read([Key("all"), Key("win")], ToInt),
    Read([Key("all"), Key("draw")], ToInt),
    Read([Key("all"), Key("lose")], ToInt),
    Read([Key("form")], Dumped(true)),
    Read([Key("points")], ToInt),
    Read([Key("all"), Key("goals"), Key("for")], ToInt),
    Read([Key("all"), Key("goals"), Key("against")], ToInt),
    Read([Key("goalsDiff")], ToInt),
    Read([Key("status")], ToStr)
  ]

  /** The row of iteration `count`. */
  function RowAt(body: Json): nat -> Result<seq<Cell>>
  {
    count => ReadRow(body, PrefixAll(Entry(count), EntryFields))
  }

  /** The rows of the twenty iterations, or the first exception. */
  function Rows(body: Json): Result<seq<seq<Cell>>>
  {
    MapRange(20, RowAt(body))
  }

  /** `call_api`: the `while count < 20` loop fills the twelve lists. */
  method CallApi(body: Json) returns (r: Result<seq<seq<Cell>>>)
    ensures r.Ok? <==> Rows(body).Ok?
    ensures r.Ok? ==> IsColumnsOf(r.value, Rows(body).value, 12)
    ensures r.Err? ==> r.error == Rows(body).error
  {
    r := BuildColumns(20, 12, RowAt(body));
  }

  const Headers := ["team_id", "rank", "team", "wins", "draws", "loses", "recent_form",
                    "points", "goals_for", "goals_against", "goal_difference", "position_status"]

  /** `create_dataframe`: the lists are zipped back into rows under the
      headers, one row per standings entry in table order. */
  method CreateDataFrame(body: Json) returns (r: Result<Frame>)
    ensures r.Ok? <==> Rows(body).Ok?
    ensures r.Ok? ==> r.value == Frame(Headers, Rows(body).value) && |r.value.rows| == 20
    ensures r.Err? ==> r.error == Rows(body).error
  {
    var lists :- CallApi(body);
    ZipOfColumns(lists, Rows(body).value, 12);
    r := MakeFrame(Zip(lists), Headers);
  }

  /** Row `count` reads the standings entry at that index and nothing else
      of the response. */
  lemma RowReadsItsEntry(body: Json, count: nat)
    requires Walk(body, Entry(count)).Ok?
    ensures RowAt(body)(count) == ReadRow(Walk(body, Entry(count)).value, EntryFields)
  {
    ReadRowPrefixed(body, Entry(count), EntryFields);
  }

  /** A table of fewer than twenty entries makes the job fail: the loop
      does not stop at the end of the list. */
  lemma ShortTableFails(body: Json, items: seq<Json>)
    requires Walk(body, Entry(0)[..5]) == Ok(JArr(items)) && |items| < 20
    ensures Rows(body).Err?
  {
    var n := |items|;
    assert Entry(n) == Entry(0)[..5] + [Index(n)];
    WalkConcat(body, Entry(0)[..5], [Index(n)]);
    assert Walk(body, Entry(n)) == Err(IndexError);
    ReadFieldPrefixed(body, Entry(n), EntryFields[0]);
    assert RowAt(body)(n).Err?;
  }

  /** `define_table_schema`. */
  const Schema := [
    Column("team_id", BqInteger), Column("rank", BqInteger), Column("team", BqString),
    Column("wins", BqInteger), Column("draws", BqInteger), Column("loses", BqInteger),
    Column("recent_form", BqString), Column("points", BqString), Column("goals_for", BqInteger),
    Column("goals_against", BqInteger), Column("goal_difference", BqInteger),
    Column("position_status", BqString)
  ]

  lemma HeadersMatchSchema()
    ensures Names(Schema) == Headers
  {
  }

  /** Every value a row holds has the kind its schema column declares,
      except points: `int()` makes it an integer, and the schema declares
      the column STRING. */
  lemma RowFitsSchemaExceptPoints(e: Json)
    requires ReadRow(e, EntryFields).Ok?
    ensures forall k :: 0 <= k < 12 ==> (Fits(ReadRow(e, EntryFields).value[k], Schema[k].ty) <==> k != 7)
  {
    var row := ReadRow(e, EntryFields).value;
    forall k | 0 <= k < 12
      ensures Fits(row[k], Schema[k].ty) <==> k != 7
    {
      var f := EntryFields[k];
      var ty := Schema[k].ty;
      ColumnConversion(k);
      assert Convert(f.conv, Walk(e, f.path)) == Ok(row[k]);
      ConvertKind(f.conv, Walk(e, f.path));
      assert f.conv == ToInt ==> row[k].IntCell?;
      assert f.conv != ToInt ==> row[k].TextCell?;
    }
  }

  /** Column k is read with `int()` exactly where the schema declares an
      integer, and at points; every other column is read as a text. */
  lemma ColumnConversion(k: nat)
    requires k < 12
    ensures EntryFields[k].Read?
    ensures EntryFields[k].conv == ToInt <==> Schema[k].ty == BqInteger || k == 7
    ensures EntryFields[k].conv in {ToInt, Dumped(true), ToStr}
    ensures Schema[k].ty in {BqInteger, BqString}
  {
    if k < 6 {
      if k < 3 { if k == 0 {} else if k == 1 {} else {} }
      else { if k == 3 {} else if k == 4 {} else {} }
    } else {
      if k < 9 { if k == 6 {} else if k == 7 {} else {} }
      else { if k == 9 {} else if k == 10 {} else {} }
    }
  }

  const Table := "premier_league_dataset.standings"

  /** `send_dataframe_to_bigquery`: the frame replaces the table. */
  function SendDataframe(frame: Frame, schema: seq<Column>): Load
  {
    Load(Table, Replace, frame, schema)
  }

  /** After the load the table holds exactly the new frame, every other
      table is untouched, and loading again changes nothing. */
  lemma SendReplacesTable(w: Warehouse, frame: Frame, schema: seq<Column>)
    ensures Apply(w, SendDataframe(frame, schema))[Table] == frame
    ensures forall t :: t in w && t != Table ==> t in Apply(w, SendDataframe(frame, schema)) && Apply(w, SendDataframe(frame, schema))[t] == w[t]
    ensures Apply(Apply(w, SendDataframe(frame, schema)), SendDataframe(frame, schema)) == Apply(w, SendDataframe(frame, schema))
  {
    ReplaceIsIdempotent(w, SendDataframe(frame, schema));
  }

  /** The module body: build the frame, then load it with the schema. */
  method Run(w: Warehouse, body: Json) returns (r: Result<Warehouse>)
    ensures r.Ok? <==> Rows(body).Ok?
    ensures r.Ok? ==> r.value == Apply(w, Load(Table, Replace, Frame(Headers, Rows(body).value), Schema))
    ensures r.Err? ==> r.error == Rows(body).error
  {
    var standingsDataframe :- CreateDataFrame(body);
    r := Ok(Apply(w, SendDataframe(standingsDataframe, Schema)));
  }
}
