/** The current-round job: the API names the current round with a label
    such as "Regular Season - 12", which is cut into the season text and
    the round number and appended to the current-round table. */
module CurrentRound {
  import opened Results
  import opened Text
  import opened JsonValues
  import opened Frames
  import opened Fixtures

  /** `call_api`: the first entry of the response's "response" list. */
  function CallApi(body: Json): Result<Json>
  {
    Walk(body, [Key("response"), Index(0)])
  }

  /** The label slicing of `create_dataframe`: the season is the first 14
      characters and the round the integer spelled from character 17 on.
      Slicing anything but a string makes `int()` or the slice raise. */
  function ParseRound(roundLabel: Json): (r: Result<(string, int)>)
    ensures r.Ok? ==> roundLabel.JStr? && r.value.0 == Take(roundLabel.s, 14) && ParseInt(Drop(roundLabel.s, 17)) == Ok(r.value.1)
    ensures r.Err? ==> r.error == TypeError || r.error == ValueError(InvalidIntLiteral)
  {
    match roundLabel
    case JStr(s) =>
      var round :- ParseInt(Drop(s, 17));
      Ok((Take(s, 14), round))
    case _ => Err(TypeError)
  }

  /** The label of round n is read back as the season "Regular Season" and
      round n. */
  lemma ParseRoundOfLabel(n: int)
    ensures ParseRound(JStr(CollectionName(n))) == Ok(("Regular Season", n))
  {
    var s := CollectionName(n);
    var digits := IntToString(n);
    assert Take(s, 14) == "Regular Season" && Drop(s, 17) == digits by {
      var prefix := "Regular Season - ";
      assert s == prefix + digits && |prefix| == 17;
      assert s[..14] == prefix[..14] == "Regular Season";
      assert s[17..] == digits;
    }
    ParseIntRoundTrip(n);
  }

  /** A label that ends before character 18 has no round number: `int("")`
      raises ValueError. */
  lemma ParseRoundOfShortLabel(s: string)
    requires |s| <= 17
    ensures ParseRound(JStr(s)) == Err(ValueError(InvalidIntLiteral))
  {
    assert Drop(s, 17) == [];
    assert Trim([], IsPySpace) == [];
  }

  /** The one-row frame of season and round, and the round number. */
  function CreateDataFrame(body: Json): (r: Result<(Frame, int)>)
    ensures r.Ok? <==> CallApi(body).Ok? && ParseRound(CallApi(body).value).Ok?
    ensures r.Ok? ==> var (season, round) := ParseRound(CallApi(body).value).value;
      r.value == (Frame(["season", "round"], [[TextCell(season), IntCell(round)]]), round)
  {
    var roundLabel :- CallApi(body);
    var parsed :- ParseRound(roundLabel);
    Ok((Frame(["season", "round"], [[TextCell(parsed.0), IntCell(parsed.1)]]), parsed.1))
  }

  /** `define_table_schema`. */
  const Schema := [Column("season", BqString), Column("round", BqInteger)]

  /** The row's columns are the schema's names, in order, and each cell has
      the kind of value its column declares. */
  lemma FrameMatchesSchema(body: Json)
    requires CreateDataFrame(body).Ok?
    ensures var f := CreateDataFrame(body).value.0;
      f.columns == Names(Schema) && |f.rows| == 1 && |f.rows[0]| == 2 &&
      Fits(f.rows[0][0], Schema[0].ty) && Fits(f.rows[0][1], Schema[1].ty)
  {
    var f := CreateDataFrame(body).value.0;
    assert f.columns == ["season", "round"] && |f.rows| == 1 && |f.rows[0]| == 2 &&
      f.rows[0][0].TextCell? && f.rows[0][1].IntCell? by {
      var parsed := ParseRound(CallApi(body).value).value;
      assert f == Frame(["season", "round"], [[TextCell(parsed.0), IntCell(parsed.1)]]);
    }
    SchemaNames();
  }

  lemma SchemaNames()
    ensures Names(Schema) == ["season", "round"] && Schema[0].ty == BqString && Schema[1].ty == BqInteger
  {
    assert |Names(Schema)| == 2 && Names(Schema)[0] == "season" && Names(Schema)[1] == "round";
  }

  const Table := "premier_league_dataset.current_round"

  /** `send_dataframe_to_bigquery`: the frame it is given is ignored; the
      API is called again through `create_dataframe`, and the new frame is
      appended to the table. */
  function SendDataframe(given: Frame, schema: seq<Column>, body: Json): (r: Result<Load>)
    ensures r.Ok? <==> CreateDataFrame(body).Ok?
    ensures r.Ok? ==> r.value == Load(Table, Append, CreateDataFrame(body).value.0, schema)
    ensures r.Err? ==> r.error == CreateDataFrame(body).error
  {
    var (frame, _) :- CreateDataFrame(body);
    Ok(Load(Table, Append, frame, schema))
  }

  /** Running the job twice for the same round stores the round twice:
      nothing compares it with the rounds already in the table. */
  lemma SendTwiceStoresRoundTwice(w: Warehouse, given: Frame, schema: seq<Column>, body: Json)
    requires SendDataframe(given, schema, body).Ok?
    ensures var l := SendDataframe(given, schema, body).value;
      var after := Apply(Apply(w, l), l);
      after[Table].rows == (if Table in w then w[Table].rows else []) + [l.frame.rows[0], l.frame.rows[0]]
  {
    var l := SendDataframe(given, schema, body).value;
    assert l.table == Table && l.mode == Append && |l.frame.rows| == 1 by {
      var frame := CreateDataFrame(body).value.0;
      assert l == Load(Table, Append, frame, schema);
    }
    AppendTwiceDuplicates(w, l);
    assert l.frame.rows == [l.frame.rows[0]];
  }
}
