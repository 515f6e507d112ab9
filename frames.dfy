/** The data-frame side of the pipeline: the parallel lists each `call_api`
    fills, Python's `zip`, the pandas frame built from them, table schemas,
    and what a load does to the warehouse it writes to. */
module Frames {
  import opened Results
  import opened Text

  /** One value of a data-frame cell: an integer, a text, an exact decimal
      read by `float()`, or None. */
  datatype Cell = IntCell(i: int) | TextCell(s: string) | DecimalCell(d: Decimal) | NullCell

  /** The length of the shortest list, 0 when there is none. */
  function MinLength<T>(lists: seq<seq<T>>): (n: nat)
    ensures forall j :: 0 <= j < |lists| ==> n <= |lists[j]|
    ensures |lists| > 0 ==> exists j :: 0 <= j < |lists| && n == |lists[j]|
    ensures |lists| == 0 ==> n == 0
  {
    if |lists| == 0 then 0
    else if |lists| == 1 then |lists[0]|
    else
      var m := MinLength(lists[..|lists| - 1]);
      assert forall j :: 0 <= j < |lists| - 1 ==> lists[..|lists| - 1][j] == lists[j];
      if |lists[|lists| - 1]| < m then |lists[|lists| - 1]| else m
  }

  /** Python's `list(zip(*lists))`: tuple i holds element i of every list,
      and there are as many tuples as the shortest list has elements. */
  function Zip<T>(lists: seq<seq<T>>): seq<seq<T>>
  {
    seq(MinLength(lists), i requires 0 <= i < MinLength(lists) =>
      seq(|lists|, j requires 0 <= j < |lists| => lists[j][i]))
  }

  /** `zip` stops at the shortest list and transposes what it keeps. */
  lemma ZipTruncates<T>(lists: seq<seq<T>>)
    ensures |Zip(lists)| == MinLength(lists)
    ensures |lists| > 0 ==> exists j :: 0 <= j < |lists| && |Zip(lists)| == |lists[j]|
    ensures forall i, j :: 0 <= i < |Zip(lists)| && 0 <= j < |lists| ==> |Zip(lists)[i]| == |lists| && Zip(lists)[i][j] == lists[j][i]
  {
  }

  /** cols are the width parallel lists of rows: list j holds field j of
      every row, in row order. */
  predicate IsColumnsOf<T(==)>(cols: seq<seq<T>>, rows: seq<seq<T>>, width: nat)
  {
    && |cols| == width
    && (forall j :: 0 <= j < width ==> |cols[j]| == |rows|)
    && (forall i :: 0 <= i < |rows| ==> |rows[i]| == width)
    && (forall i, j :: 0 <= i < |rows| && 0 <= j < width ==> cols[j][i] == rows[i][j])
  }

  /** Zipping the parallel lists of some rows gives those rows back. */
  lemma ZipOfColumns<T>(cols: seq<seq<T>>, rows: seq<seq<T>>, width: nat)
    requires IsColumnsOf(cols, rows, width) && width > 0
    ensures Zip(cols) == rows
  {
    assert |Zip(cols)| == |rows| by {
      var j :| 0 <= j < |cols| && MinLength(cols) == |cols[j]|;
    }
    forall i | 0 <= i < |rows|
      ensures Zip(cols)[i] == rows[i]
    {
    }
  }

  /** The entries of xs at the positions order names, in that order: how a
      transformer returns its lists, or a frame holds its columns, in an
      order other than the one they were filled in. */
  function Select<T>(xs: seq<T>, order: seq<nat>): (r: seq<T>)
    requires forall j :: 0 <= j < |order| ==> order[j] < |xs|
    ensures |r| == |order| && forall j :: 0 <= j < |order| ==> r[j] == xs[order[j]]
  {
    seq(|order|, j requires 0 <= j < |order| => xs[order[j]])
  }

  /** Reordering the parallel lists reorders the fields of every row the
      same way. */
  lemma SelectColumns<T>(cols: seq<seq<T>>, rows: seq<seq<T>>, width: nat, order: seq<nat>, selected: seq<seq<T>>)
    requires IsColumnsOf(cols, rows, width)
    requires forall j :: 0 <= j < |order| ==> order[j] < width
    requires |selected| == |rows| && forall i :: 0 <= i < |rows| ==> selected[i] == Select(rows[i], order)
    ensures IsColumnsOf(Select(cols, order), selected, |order|)
  {
  }

  /** The `while count < n` loop of a transformer: row i is computed field
      by field, and each field is appended to its own list. The first
      exception ends the loop and the lists are lost with it. */
  method BuildColumns(n: nat, width: nat, rowAt: nat -> Result<seq<Cell>>) returns (r: Result<seq<seq<Cell>>>)
    requires forall i :: 0 <= i < n && rowAt(i).Ok? ==> |rowAt(i).value| == width
    ensures r.Ok? <==> MapRange(n, rowAt).Ok?
    ensures r.Ok? ==> IsColumnsOf(r.value, MapRange(n, rowAt).value, width)
    ensures r.Err? ==> r.error == MapRange(n, rowAt).error
  {
    var cols: seq<seq<Cell>> := seq(width, _ => []);
    var count := 0;
    while count < n
      invariant count <= n
      invariant MapRange(count, rowAt).Ok?
      invariant IsColumnsOf(cols, MapRange(count, rowAt).value, width)
    {
      var row := rowAt(count);
      if row.Err? {
        MapRangeFirstError(n, rowAt, count);
        return Err(row.error);
      }
      MapRangeExtends(count, rowAt);
      cols := seq(width, j requires 0 <= j < width => cols[j] + [row.value[j]]);
      count := count + 1;
    }
    r := Ok(cols);
  }

  lemma MapRangeExtends<T>(i: nat, f: nat -> Result<T>)
    requires MapRange(i, f).Ok? && f(i).Ok?
    ensures MapRange(i + 1, f) == Ok(MapRange(i, f).value + [f(i).value])
  {
  }

  /** A pandas frame: column names and rows. */
  datatype Frame = Frame(columns: seq<string>, rows: seq<seq<Cell>>)

  /** `pd.DataFrame(rows, columns=headers)`: a row of another width is a ValueError. */
  function MakeFrame(rows: seq<seq<Cell>>, headers: seq<string>): (r: Result<Frame>)
    ensures r.Ok? <==> forall i :: 0 <= i < |rows| ==> |rows[i]| == |headers|
    ensures r.Ok? ==> r.value.columns == headers && r.value.rows == rows
    ensures r.Err? ==> r.error.ValueError?
  {
    if forall i :: 0 <= i < |rows| ==> |rows[i]| == |headers| then Ok(Frame(headers, rows))
    else Err(ValueError("columns passed do not match the data"))
  }

  /** `df.empty`: no rows or no columns. */
  predicate IsEmpty(f: Frame) { |f.rows| == 0 || |f.columns| == 0 }

  /** The declared types of BigQuery ("STRING", "INTEGER", "DATE") and of
      SQLAlchemy (SMALLINT, String(n)). */
  datatype ColumnType = BqString | BqInteger | BqDate | SmallInt | VarChar(length: nat)

  datatype Column = Column(name: string, ty: ColumnType)

  function Names(schema: seq<Column>): (r: seq<string>)
    ensures |r| == |schema|
    ensures forall k :: 0 <= k < |schema| ==> r[k] == schema[k].name
  {
    seq(|schema|, k requires 0 <= k < |schema| => schema[k].name)
  }

  /** Whether a cell has the kind of value its declared column type holds;
      None fits any column. */
  predicate Fits(c: Cell, ty: ColumnType)
  {
    match c
    case NullCell => true
    case IntCell(_) => ty == BqInteger || ty == SmallInt
    case TextCell(_) => ty == BqString || ty == BqDate || ty.VarChar?
    case DecimalCell(_) => false
  }

  /** `if_exists="replace"` or `"append"`. */
  datatype WriteMode = Replace | Append

  /** One write of a frame to a table, as `to_gbq`, `to_sql` (always
      without the index) or `load_table_from_dataframe` issue it. */
  datatype Load = Load(table: string, mode: WriteMode, frame: Frame, schema: seq<Column>)

  /** The tables a warehouse holds, by name. */
  type Warehouse = map<string, Frame>

  /** The warehouse after a load: the target table is replaced by the frame,
      or the frame's rows are added after the rows it already holds;
      no other table changes. */
  function Apply(w: Warehouse, l: Load): (r: Warehouse)
    ensures r.Keys == w.Keys + {l.table}
    ensures forall t :: t in w && t != l.table ==> r[t] == w[t]
    ensures l.mode == Replace ==> r[l.table] == l.frame
    ensures l.mode == Append ==> r[l.table].rows == (if l.table in w then w[l.table].rows else []) + l.frame.rows
  {
    match l.mode
    case Replace => w[l.table := l.frame]
    case Append =>
      if l.table in w then w[l.table := Frame(w[l.table].columns, w[l.table].rows + l.frame.rows)]
      else w[l.table := l.frame]
  }

  /** A replacing load can be repeated without changing the result. */
  lemma ReplaceIsIdempotent(w: Warehouse, l: Load)
    requires l.mode == Replace
    ensures Apply(Apply(w, l), l) == Apply(w, l)
  {
  }

  /** An appending load repeated stores its rows twice: nothing compares
      what is written with what is already there. */
  lemma AppendTwiceDuplicates(w: Warehouse, l: Load)
    requires l.mode == Append
    ensures Apply(Apply(w, l), l)[l.table].rows == (if l.table in w then w[l.table].rows else []) + l.frame.rows + l.frame.rows
  {
  }

  /** The warehouse after several loads, in order. */
  function ApplyAll(w: Warehouse, loads: seq<Load>): Warehouse
    decreases |loads|
  {
    if loads == [] then w else ApplyAll(Apply(w, loads[0]), loads[1..])
  }

  /** Load k is the last of the loads to write its table. */
  predicate LastWriteTo(loads: seq<Load>, k: int)
  {
    0 <= k < |loads| && forall m :: k < m < |loads| ==> loads[m].table != loads[k].table
  }

  /** After replacing loads, each written table holds the frame of the last
      load to it, whatever it held before; tables no load names are
      unchanged. */
  lemma {:induction false} ApplyAllReplaces(w: Warehouse, loads: seq<Load>)
    requires forall k :: 0 <= k < |loads| ==> loads[k].mode == Replace
    ensures forall k :: LastWriteTo(loads, k) ==> loads[k].table in ApplyAll(w, loads) && ApplyAll(w, loads)[loads[k].table] == loads[k].frame
    ensures forall t :: t in w && (forall k :: 0 <= k < |loads| ==> loads[k].table != t) ==> t in ApplyAll(w, loads) && ApplyAll(w, loads)[t] == w[t]
    decreases |loads|
  {
    if loads != [] {
      var w1 := Apply(w, loads[0]);
      var rest := loads[1..];
      assert forall m :: 0 <= m < |rest| ==> rest[m] == loads[m + 1];
      ApplyAllReplaces(w1, rest);
      forall k | LastWriteTo(loads, k)
        ensures loads[k].table in ApplyAll(w, loads) && ApplyAll(w, loads)[loads[k].table] == loads[k].frame
      {
        if k > 0 {
          assert rest[k - 1] == loads[k];
          assert LastWriteTo(rest, k - 1);
        } else {
          assert forall m :: 0 <= m < |rest| ==> rest[m].table != loads[0].table;
        }
      }
    }
  }

  /** What a run of per-team loads leaves behind: the loads issued, in
      order, and the exception that stopped the run, if any. Loads issued
      before the exception stay written. */
  datatype Outcome = Outcome(loads: seq<Load>, failure: Option<PyError>)

  /** The outcome of a loop that issues the load of item k for k = 0, 1,
      ... n-1 and stops at the first exception. */
  function RunLoads(n: nat, loadAt: nat -> Result<Load>): (o: Outcome)
    ensures |o.loads| <= n
    ensures forall k :: 0 <= k < |o.loads| ==> loadAt(k) == Ok(o.loads[k])
    ensures o.failure.None? ==> |o.loads| == n
    ensures o.failure.Some? ==> |o.loads| < n && loadAt(|o.loads|) == Err(o.failure.value)
  {
    if n == 0 then Outcome([], None)
    else
      var before := RunLoads(n - 1, loadAt);
      if before.failure.Some? then before
      else
        match loadAt(n - 1)
        case Ok(l) => Outcome(before.loads + [l], None)
        case Err(e) => Outcome(before.loads, Some(e))
  }

  /** A successful load after a run without exception is added at its end. */
  lemma RunLoadsStep(i: nat, loadAt: nat -> Result<Load>, l: Load)
    requires RunLoads(i, loadAt).failure.None? && loadAt(i) == Ok(l)
    ensures RunLoads(i + 1, loadAt) == Outcome(RunLoads(i, loadAt).loads + [l], None)
  {
  }

  /** The loop stops at the first load that raises. */
  lemma {:induction false} RunLoadsStopsAt(n: nat, i: nat, loadAt: nat -> Result<Load>)
    requires i < n && RunLoads(i, loadAt).failure.None? && loadAt(i).Err?
    ensures RunLoads(n, loadAt) == Outcome(RunLoads(i, loadAt).loads, Some(loadAt(i).error))
    decreases n
  {
    if n - 1 > i {
      RunLoadsStopsAt(n - 1, i, loadAt);
    }
  }

  /** The `[df.iloc[i, 0] for i in range(20)]` comprehension over the
      team-id column of the standings query: a table of fewer than twenty
      rows raises IndexError. */
  function IdList(teamIds: seq<int>): (r: Result<seq<int>>)
    ensures r.Ok? <==> |teamIds| >= 20
    ensures r.Ok? ==> r.value == teamIds[..20]
    ensures r.Err? ==> r.error == IndexError
  {
    if |teamIds| >= 20 then Ok(teamIds[..20]) else Err(IndexError)
  }

  /** The per-team table: `name.replace(" ", "_").lower()` after the
      dataset name. */
  function TeamTable(dataset: string, teamName: string): string
  {
    dataset + "." + AsciiLower(ReplaceChar(teamName, ' ', '_'))
  }

  /** The table name keeps the team name's length and holds no space and no
      ASCII capital; names that differ only there share a table. */
  lemma TeamTableShape(dataset: string, a: string, b: string)
    ensures var t := TeamTable(dataset, a);
      |t| == |dataset| + 1 + |a| && t[..|dataset| + 1] == dataset + "." &&
      forall k :: |dataset| + 1 <= k < |t| ==> t[k] != ' ' && !('A' <= t[k] <= 'Z')
    ensures |a| == |b| && (forall k :: 0 <= k < |a| ==> AsciiLowerChar(if a[k] == ' ' then '_' else a[k]) == AsciiLowerChar(if b[k] == ' ' then '_' else b[k]))
      ==> TeamTable(dataset, a) == TeamTable(dataset, b)
  {
    var t := TeamTable(dataset, a);
    var suffix := AsciiLower(ReplaceChar(a, ' ', '_'));
    assert t == dataset + "." + suffix;
    forall k | |dataset| + 1 <= k < |t| ensures t[k] != ' ' && !('A' <= t[k] <= 'Z') {
      assert t[k] == suffix[k - |dataset| - 1];
    }
    if |a| == |b| && (forall k :: 0 <= k < |a| ==> AsciiLowerChar(if a[k] == ' ' then '_' else a[k]) == AsciiLowerChar(if b[k] == ' ' then '_' else b[k])) {
      assert AsciiLower(ReplaceChar(a, ' ', '_')) == AsciiLower(ReplaceChar(b, ' ', '_'));
    }
  }
}
