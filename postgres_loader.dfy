/** `send_dataframe_to_postgresql`, shared by the Postgres jobs: it checks
    the frame and the schema argument, then replaces the table with the
    frame through `to_sql`, without the index. */
module PostgresLoader {
  import opened Results
  import opened Frames

  /** The optional `schema_definition` argument: left out (None), a
      dictionary of column types, or some other object. */
  datatype SchemaArg = Omitted | Dict(columns: seq<Column>) | NotADict

  const EmptyFrame := ValueError("DataFrame is empty.")
  const NotADictionary := ValueError("schema_definition must be a dictionary.")

  /** The qualified name `to_sql` writes to. */
  function QualifiedName(schemaName: string, tableName: string): string
  {
    schemaName + "." + tableName
  }

  /** The load issued, or the ValueError raised first: an empty frame is
      refused before the schema is looked at; an omitted schema is replaced
      by the job's default before the dictionary check. */
  function SendDataframe(schemaName: string, tableName: string, df: Frame, schemaArg: SchemaArg, default: seq<Column>): (r: Result<Load>)
    ensures r.Ok? <==> !IsEmpty(df) && !schemaArg.NotADict?
    ensures IsEmpty(df) ==> r == Err(EmptyFrame)
    ensures !IsEmpty(df) && schemaArg.NotADict? ==> r == Err(NotADictionary)
    ensures r.Ok? ==> r.value.table == QualifiedName(schemaName, tableName) && r.value.mode == Replace && r.value.frame == df
    ensures r.Ok? ==> r.value.schema == (if schemaArg.Dict? then schemaArg.columns else default)
  {
    if IsEmpty(df) then Err(EmptyFrame)
    else
      var schema := if schemaArg.Omitted? then Dict(default) else schemaArg;
      if !schema.Dict? then Err(NotADictionary)
      else Ok(Load(QualifiedName(schemaName, tableName), Replace, df, schema.columns))
  }

  /** Leaving the schema out is the same as passing the default one, and a
      successful load leaves the table holding the frame, whatever it held
      before. */
  lemma OmittedSchemaIsDefault(w: Warehouse, schemaName: string, tableName: string, df: Frame, default: seq<Column>)
    ensures SendDataframe(schemaName, tableName, df, Omitted, default) == SendDataframe(schemaName, tableName, df, Dict(default), default)
    ensures SendDataframe(schemaName, tableName, df, Omitted, default).Ok? ==>
      Apply(w, SendDataframe(schemaName, tableName, df, Omitted, default).value)[QualifiedName(schemaName, tableName)] == df
  {
  }
}
