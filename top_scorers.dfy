/** The top-scorers jobs: the five leading scorers of the API's list are
    read into six parallel lists, zipped into a frame and written to
    BigQuery, or to Postgres. The two jobs differ in how they read assists. */
module TopScorers {
  import opened Results
  import opened JsonValues
  import opened Frames
  import opened Transform
  import PostgresLoader

  /** The subscript chain of the scorer read by iteration `count`. */
  function Entry(count: int): seq<Step>
  {
    [Key("response"), Index(count)]
  }

  /** The BigQuery job catches a missing or malformed assists count and
      writes 0; the Postgres job calls `int()` on it directly. */
  const BqAssists := IntOrDefault(IntCell(0))
  const PgAssists := ToInt

  /** The six values one iteration reads from its entry, in the order the
      loop appends them: name, goals, assists, team, nationality, photo. */
  function EntryFields(assists: Conversion): seq<Field>
  {
    [
      FullNameField([Key("player"), Key("firstname")], [Key("player"), Key("lastname")]),
      Read([Key("statistics"), Index(0), Key("goals"), Key("total")], ToInt),
      Read([Key("statistics"), Index(0), Key("goals"), Key("assists")], assists),
      Read([Key("statistics"), Index(0), Key("team"), Key("name")], Unquoted),
      Read([Key("player"), Key("nationality")], Unquoted),
      Read([Key("player"), Key("photo")], Unquoted)
    ]
  }

  /** `call_api` returns team before assists: the position, in reading
      order, of each list it returns. */
  const ReturnOrder: seq<nat> := [0, 1, 3, 2, 4, 5]

  lemma ReturnOrderIsPermutation()
    ensures |ReturnOrder| == 6 && forall j :: 0 <= j < 6 ==> ReturnOrder[j] < 6
    ensures multiset(ReturnOrder) == multiset{0, 1, 2, 3, 4, 5}
  {
    assert ReturnOrder[0] == 0 && ReturnOrder[1] == 1 && ReturnOrder[2] == 3;
    assert ReturnOrder[3] == 2 && ReturnOrder[4] == 4 && ReturnOrder[5] == 5;
  }

  function RowAt(body: Json, assists: Conversion): nat -> Result<seq<Cell>>
  {
    count => ReadRow(body, PrefixAll(Entry(count), EntryFields(assists)))
  }

  /** The rows of the five iterations, in reading order, or the first
      exception. */
  function Rows(body: Json, assists: Conversion): (r: Result<seq<seq<Cell>>>)
    ensures r.Ok? ==> |r.value| == 5 && forall i :: 0 <= i < 5 ==> |r.value[i]| == 6
  {
    RowWidth(body, assists);
    MapRange(5, RowAt(body, assists))
  }

  /** The frame's rows: each row read, its fields in returned order. */
  function FrameRows(rows: seq<seq<Cell>>): (r: seq<seq<Cell>>)
    requires forall i :: 0 <= i < |rows| ==> |rows[i]| == 6
    ensures |r| == |rows| && forall i :: 0 <= i < |rows| ==> r[i] == Select(rows[i], ReturnOrder)
  {
    seq(|rows|, i requires 0 <= i < |rows| => Select(rows[i], ReturnOrder))
  }

  /** Every row read has the six fields of an entry. */
  lemma RowWidth(body: Json, assists: Conversion)
    ensures forall count: nat :: RowAt(body, assists)(count).Ok? ==> |RowAt(body, assists)(count).value| == 6
  {
    forall count: nat ensures RowAt(body, assists)(count).Ok? ==> |RowAt(body, assists)(count).value| == 6 {
      assert |PrefixAll(Entry(count), EntryFields(assists))| == 6;
    }
  }

  /** Returning the lists with team before assists gives the columns of the
      rows with their fields in that order. */
  lemma ReturnedColumns(lists: seq<seq<Cell>>, rows: seq<seq<Cell>>)
    requires IsColumnsOf(lists, rows, 6)
    ensures IsColumnsOf(Select(lists, ReturnOrder), FrameRows(rows), 6)
  {
    ReturnOrderIsPermutation();
    SelectColumns(lists, rows, 6, ReturnOrder, FrameRows(rows));
  }

  /** `call_api`: the `while count < 5` loop fills the lists, returned with
      team before assists. */
  method CallApi(body: Json, assists: Conversion) returns (r: Result<seq<seq<Cell>>>)
    ensures r.Ok? <==> Rows(body, assists).Ok?
    ensures r.Ok? ==> IsColumnsOf(r.value, FrameRows(Rows(body, assists).value), 6)
    ensures r.Err? ==> r.error == Rows(body, assists).error
  {
    RowWidth(body, assists);
    var lists :- BuildColumns(5, 6, RowAt(body, assists));
    ReturnedColumns(lists, Rows(body, assists).value);
    assert |lists| == 6 && forall j :: 0 <= j < |ReturnOrder| ==> ReturnOrder[j] < 6 by { ReturnOrderIsPermutation(); }
    r := Ok(Select(lists, ReturnOrder));
  }

  const Headers := ["name", "goals", "team", "assists", "nationality", "photo"]

  /** `create_dataframe`: the lists zipped back into the five rows under the
      headers, in the order of the API's list. */
  method CreateDataFrame(body: Json, assists: Conversion) returns (r: Result<Frame>)
    ensures r.Ok? <==> Rows(body, assists).Ok?
    ensures r.Ok? ==> r.value == Frame(Headers, FrameRows(Rows(body, assists).value)) && |r.value.rows| == 5
    ensures r.Err? ==> r.error == Rows(body, assists).error
  {
    var lists :- CallApi(body, assists);
    ZipOfColumns(lists, FrameRows(Rows(body, assists).value), 6);
    r := MakeFrame(Zip(lists), Headers);
  }

  /** Row `count` reads the scorer at that index and nothing else of the
      response. */
  lemma RowReadsItsEntry(body: Json, count: nat, assists: Conversion)
    requires Walk(body, Entry(count)).Ok?
    ensures RowAt(body, assists)(count) == ReadRow(Walk(body, Entry(count)).value, EntryFields(assists))
  {
    ReadRowPrefixed(body, Entry(count), EntryFields(assists));
  }

  /** A scorer whose assists are None: the BigQuery job writes 0 and goes
      on, the Postgres job raises TypeError for that row. */
  lemma NullAssists(scorer: Json)
    requires Walk(scorer, EntryFields(PgAssists)[2].path) == Ok(JNull)
    ensures ReadField(scorer, EntryFields(BqAssists)[2]) == Ok(IntCell(0))
    ensures ReadRow(scorer, EntryFields(PgAssists)).Err?
  {
    var path := EntryFields(PgAssists)[2].path;
    IntOrDefaultCatches(scorer, path, IntCell(0));
    IntFieldRejectsNull(scorer, path);
  }

  /** Where the Postgres job reads a scorer, the BigQuery job reads the
      same row: the default only replaces what `int()` rejects. */
  lemma RowsAgreeAt(body: Json, count: nat)
    requires RowAt(body, PgAssists)(count).Ok?
    ensures RowAt(body, BqAssists)(count) == RowAt(body, PgAssists)(count)
  {
    var bq := PrefixAll(Entry(count), EntryFields(BqAssists));
    var pg := PrefixAll(Entry(count), EntryFields(PgAssists));
    assert ReadRow(body, pg).Ok?;
    forall k | 0 <= k < 6 ensures ReadField(body, bq[k]) == ReadField(body, pg[k]) {
      if k == 2 {
        assert ReadField(body, pg[2]).Ok?;
        IntOrDefaultExtendsIntField(body, pg[2].path, IntCell(0));
      }
    }
    ReadRowAgree(body, bq, pg);
  }

  /** Wherever the Postgres job reads the five scorers, the BigQuery job
      reads the same rows. */
  lemma BigQueryAgreesWithPostgres(body: Json)
    requires Rows(body, PgAssists).Ok?
    ensures Rows(body, BqAssists) == Rows(body, PgAssists)
  {
    var bq, pg := RowAt(body, BqAssists), RowAt(body, PgAssists);
    assert forall i :: 0 <= i < 5 ==> bq(i) == pg(i) by {
      forall count: nat | count < 5 ensures bq(count) == pg(count) {
        assert pg(count).Ok?;
        RowsAgreeAt(body, count);
      }
    }
    MapRangeAgree(5, bq, pg);
  }

  /** BigQuery's `define_table_schema`. */
  const BqSchema := [
    Column("name", BqString), Column("goals", BqInteger), Column("team", BqString),
    Column("assists", BqInteger), Column("nationality", BqString), Column("photo", BqString)
  ]

  /** Postgres's `define_table_schema`. */
  const PgSchema := [
    Column("name", VarChar(64)), Column("goals", SmallInt), Column("team", VarChar(64)),
    Column("assists", SmallInt), Column("nationality", VarChar(64)), Column("photo", VarChar(256))
  ]

  lemma HeadersMatchSchemas()
    ensures Names(BqSchema) == Headers && Names(PgSchema) == Headers
  {
  }

  const BqTable := "premier_league_dataset.top_scorers"

  /** BigQuery's `send_dataframe_to_bigquery`: the frame it loads is the
      module-level `top_scorers_dataframe`, not its own parameter. */
  function BqSendDataframe(given: Frame, moduleFrame: Frame, schema: seq<Column>): (r: Load)
    ensures r.frame == moduleFrame && r.table == BqTable && r.mode == Replace && r.schema == schema
  {
    Load(BqTable, Replace, moduleFrame, schema)
  }

  /** The BigQuery module body: the frame is built, stored in the module
      variable, and sent; the table ends up holding the five rows. */
  method BqRun(w: Warehouse, body: Json) returns (r: Result<Warehouse>)
    ensures r.Ok? <==> Rows(body, BqAssists).Ok?
    ensures r.Ok? ==> r.value == Apply(w, Load(BqTable, Replace, Frame(Headers, FrameRows(Rows(body, BqAssists).value)), BqSchema))
    ensures r.Err? ==> r.error == Rows(body, BqAssists).error
  {
    var topScorersDataframe :- CreateDataFrame(body, BqAssists);
    var schemaDefinition := BqSchema;
    r := Ok(Apply(w, BqSendDataframe(topScorersDataframe, topScorersDataframe, schemaDefinition)));
  }

  /** The Postgres script: the frame is built and sent with the schema
      argument left out, so the loader falls back to the same schema. */
  method PgRun(w: Warehouse, body: Json) returns (r: Result<Warehouse>)
    ensures r.Ok? <==> Rows(body, PgAssists).Ok?
    ensures r.Ok? ==> r.value == Apply(w, Load(PostgresLoader.QualifiedName("premier-league-schema", "top_scorers"), Replace,
                                               Frame(Headers, FrameRows(Rows(body, PgAssists).value)), PgSchema))
    ensures r.Err? ==> r.error == Rows(body, PgAssists).error
  {
    var df :- CreateDataFrame(body, PgAssists);
    var load := PostgresLoader.SendDataframe("premier-league-schema", "top_scorers", df, PostgresLoader.Omitted, PgSchema);
    r := Ok(Apply(w, load.value));
  }
}
