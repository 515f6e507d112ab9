/** The news job: the articles the news API returns are read into four
    lists, made into a frame ordered by publication time, latest first,
    and written over the BigQuery news table. */
module News {
  import opened Results
  import opened Text
  import opened JsonValues
  import opened Timestamps
  import opened Frames
  import opened Transform

  /** The four values the loop reads from an article, in list order; the
      publication time keeps only the time of day. */
  const ArticleFields: seq<Field> := [
    Read([Key("title")], ToStr),
    Read([Key("url")], ToStr),
    Read([Key("urlToImage")], ToStr),
    Read([Key("publishedAt")], ToTime)
  ]

  /** What `for article in json_res["articles"]` visits. */
  function Articles(body: Json): Result<seq<Json>>
  {
    var articles :- Get(body, "articles");
    Elements(articles)
  }

  function ArticleRowAt(articles: seq<Json>): nat -> Result<seq<Cell>>
  {
    (i: nat) => if i < |articles| then ReadRow(articles[i], ArticleFields) else Err(IndexError)
  }

  /** The rows of the loop, in the API's order, or the first exception. */
  function Rows(body: Json): Result<seq<seq<Cell>>>
  {
    var articles :- Articles(body);
    MapRange(|articles|, ArticleRowAt(articles))
  }

  /** `call_api`: the loop over the articles fills the four lists. */
  method CallApi(body: Json) returns (r: Result<seq<seq<Cell>>>)
    ensures r.Ok? <==> Rows(body).Ok?
    ensures r.Ok? ==> IsColumnsOf(r.value, Rows(body).value, 4)
    ensures r.Err? ==> r.error == Rows(body).error
  {
    var articles :- Articles(body);
    r := BuildColumns(|articles|, 4, ArticleRowAt(articles));
  }

  /** One row per article, for every article returned; row i's published_at
      is the time of day, HH:MM:SS, of article i's "...T...Z" timestamp. */
  lemma RowPerArticle(body: Json, i: nat)
    requires Rows(body).Ok? && i < |Articles(body).value|
    ensures |Rows(body).value| == |Articles(body).value|
    ensures var v := Walk(Articles(body).value[i], [Key("publishedAt")]);
      v.Ok? && v.value.JStr? && Strptime(v.value.s, Literal("Z")).Ok? &&
      Rows(body).value[i][3] == TextCell(TimeText(Strptime(v.value.s, Literal("Z")).value))
  {
    var articles := Articles(body).value;
    assert ArticleRowAt(articles)(i) == Ok(Rows(body).value[i]);
    assert ReadField(articles[i], ArticleFields[3]) == Ok(Rows(body).value[i][3]);
  }

  /** A row as the loop builds it: four values, the last a text. */
  predicate Shaped(row: seq<Cell>) { |row| == 4 && row[3].TextCell? }

  predicate AllShaped(rows: seq<seq<Cell>>) { forall i :: 0 <= i < |rows| ==> Shaped(rows[i]) }

  /** Every row read has the publication time as text in its last place. */
  lemma RowsAreShaped(body: Json)
    requires Rows(body).Ok?
    ensures AllShaped(Rows(body).value)
  {
    var articles := Articles(body).value;
    var rows := Rows(body).value;
    forall i | 0 <= i < |rows| ensures Shaped(rows[i]) {
      assert ArticleRowAt(articles)(i) == Ok(rows[i]);
      assert ReadField(articles[i], ArticleFields[3]) == Ok(rows[i][3]);
      ConvertKind(ToTime, Walk(articles[i], [Key("publishedAt")]));
    }
  }

  /** The sort key: the published_at text. */
  function PublishedAt(row: seq<Cell>): string
    requires Shaped(row)
  {
    row[3].s
  }

  /** No row is published later than a row before it. */
  predicate Descending(rows: seq<seq<Cell>>)
    requires AllShaped(rows)
  {
    forall i, j :: 0 <= i < j < |rows| ==> !StrLess(PublishedAt(rows[i]), PublishedAt(rows[j]))
  }

  /** Puts a row into a descending list after the rows published later. */
  function Insert(row: seq<Cell>, sorted: seq<seq<Cell>>): (r: seq<seq<Cell>>)
    requires Shaped(row) && AllShaped(sorted) && Descending(sorted)
    ensures AllShaped(r) && Descending(r)
    ensures multiset(r) == multiset(sorted) + multiset{row}
    decreases |sorted|
  {
    if sorted == [] then [row]
    else if !StrLess(PublishedAt(row), PublishedAt(sorted[0])) then
      InsertFront(row, sorted);
      [row] + sorted
    else
      var rest := Insert(row, sorted[1..]);
      InsertBehind(row, sorted, rest);
      assert sorted == [sorted[0]] + sorted[1..];
      [sorted[0]] + rest
  }

  lemma InsertFront(row: seq<Cell>, sorted: seq<seq<Cell>>)
    requires Shaped(row) && AllShaped(sorted) && Descending(sorted) && sorted != []
    requires !StrLess(PublishedAt(row), PublishedAt(sorted[0]))
    ensures AllShaped([row] + sorted) && Descending([row] + sorted)
  {
    var r := [row] + sorted;
    forall i, j | 0 <= i < j < |r| ensures !StrLess(PublishedAt(r[i]), PublishedAt(r[j])) {
      if i == 0 {
        var a, b, c := PublishedAt(row), PublishedAt(sorted[0]), PublishedAt(r[j]);
        if j > 1 {
          assert r[j] == sorted[j - 1];
          if StrLess(a, c) {
            StrLessTrichotomy(a, b);
            StrLessTrichotomy(b, c);
            if StrLess(b, a) { StrLessTransitive(b, a, c); }
          }
        }
      } else {
        assert r[i] == sorted[i - 1] && r[j] == sorted[j - 1];
      }
    }
  }

  lemma InsertBehind(row: seq<Cell>, sorted: seq<seq<Cell>>, rest: seq<seq<Cell>>)
    requires Shaped(row) && AllShaped(sorted) && Descending(sorted) && sorted != []
    requires StrLess(PublishedAt(row), PublishedAt(sorted[0]))
    requires AllShaped(rest) && Descending(rest) && multiset(rest) == multiset(sorted[1..]) + multiset{row}
    ensures AllShaped([sorted[0]] + rest) && Descending([sorted[0]] + rest)
  {
    var r := [sorted[0]] + rest;
    var top := PublishedAt(sorted[0]);
    forall j | 0 < j < |r| ensures !StrLess(top, PublishedAt(r[j])) {
      var x := r[j];
      assert x == rest[j - 1];
      assert x in multiset(rest);
      if x == row {
        StrLessTrichotomy(PublishedAt(row), top);
      } else {
        assert x in multiset(sorted[1..]);
        var m :| 0 <= m < |sorted[1..]| && sorted[1..][m] == x;
        assert sorted[m + 1] == x;
      }
    }
    forall i, j | 0 <= i < j < |r| ensures !StrLess(PublishedAt(r[i]), PublishedAt(r[j])) {
      if i > 0 { assert r[i] == rest[i - 1] && r[j] == rest[j - 1]; }
    }
  }

  /** `sort_values(by="published_at", ascending=False)`: the same rows,
      latest publication time first. The order of rows with equal times is
      not fixed by pandas and is not specified here. */
  function SortDescending(rows: seq<seq<Cell>>): (r: seq<seq<Cell>>)
    requires AllShaped(rows)
    ensures AllShaped(r) && Descending(r)
    ensures multiset(r) == multiset(rows)
  {
    if rows == [] then []
    else
      assert rows == rows[..|rows| - 1] + [rows[|rows| - 1]];
      Insert(rows[|rows| - 1], SortDescending(rows[..|rows| - 1]))
  }

  const Headers := ["title", "url", "url_to_image", "published_at"]

  /** `create_dataframe`: the lists become the four columns and the rows
      are reordered, latest first. */
  method CreateDataFrame(body: Json) returns (r: Result<Frame>)
    ensures r.Ok? <==> Rows(body).Ok?
    ensures r.Ok? ==> AllShaped(Rows(body).value) && r.value.columns == Headers && AllShaped(r.value.rows)
    ensures r.Ok? ==> multiset(r.value.rows) == multiset(Rows(body).value) && Descending(r.value.rows)
    ensures r.Err? ==> r.error == Rows(body).error
  {
    var lists :- CallApi(body);
    ZipOfColumns(lists, Rows(body).value, 4);
    RowsAreShaped(body);
    r := Ok(Frame(Headers, SortDescending(Zip(lists))));
  }

  /** The order compares the time of day only: of two articles the one
      published later in its day comes first, whatever their dates. */
  lemma OrderIgnoresDate(a: DateTime, b: DateTime)
    requires Valid(a) && Valid(b)
    ensures !StrLess(TimeText(a), TimeText(b)) <==> SecondOfDay(b) <= SecondOfDay(a)
  {
    TimeTextOrder(a, b);
  }

  const Schema := [Column("title", BqString), Column("url", BqString), Column("url_to_image", BqString),
                   Column("published_at", BqString)]

  lemma HeadersMatchSchema()
    ensures Names(Schema) == Headers
  {
  }

  const Table := "premier_league_dataset.news"

  /** The module body: the sorted frame replaces the news table. */
  method Run(w: Warehouse, body: Json) returns (r: Result<Warehouse>)
    ensures r.Ok? <==> Rows(body).Ok?
    ensures r.Ok? ==> Table in r.value && r.value[Table].columns == Headers && AllShaped(r.value[Table].rows)
    ensures r.Ok? ==> multiset(r.value[Table].rows) == multiset(Rows(body).value) && Descending(r.value[Table].rows)
    ensures r.Ok? ==> forall t :: t in w && t != Table ==> t in r.value && r.value[t] == w[t]
    ensures r.Err? ==> r.error == Rows(body).error
  {
    var newsDataframe :- CreateDataFrame(body);
    r := Ok(Apply(w, Load(Table, Replace, newsDataframe, Schema)));
  }
}
