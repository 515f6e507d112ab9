/** The point-progression chart: each of the top five teams' form string
    ("WDLWW...") becomes its running points total after every match, and
    the five lists are transposed into one row per gameweek. */
module PointProgression {
  import opened Results
  import opened Frames

  /** Points a result letter earns: a win 3, a draw 1, anything else 0. */
  function StepPoints(c: char): nat
  {
    if c == 'W' then 3 else if c == 'D' then 1 else 0
  }

  /** Points earned over a whole form string. */
  function Total(form: string): nat
  {
    if form == [] then 0 else Total(form[..|form| - 1]) + StepPoints(form[|form| - 1])
  }

  /** The running totals: entry k is the points after the first k+1 results. */
  function Running(form: string): (r: seq<int>)
    ensures |r| == |form|
  {
    seq(|form|, k requires 0 <= k < |form| => Total(form[..k + 1]))
  }

  /** How many times c occurs in s. */
  function Count(s: string, c: char): nat
  {
    if s == [] then 0 else (if s[0] == c then 1 else 0) + Count(s[1..], c)
  }

  lemma {:induction false} CountSnoc(s: string, x: char, c: char)
    ensures Count(s + [x], c) == Count(s, c) + (if x == c then 1 else 0)
    decreases |s|
  {
    if s == [] {
      assert [x][1..] == [];
    } else {
      assert (s + [x])[1..] == s[1..] + [x];
      CountSnoc(s[1..], x, c);
    }
  }

  /** A form's total is 3 points per win plus 1 per draw. */
  lemma {:induction false} TotalCountsResults(form: string)
    ensures Total(form) == 3 * Count(form, 'W') + Count(form, 'D')
    decreases |form|
  {
    if form != [] {
      var init := form[..|form| - 1];
      TotalCountsResults(init);
      CountSnoc(init, form[|form| - 1], 'W');
      CountSnoc(init, form[|form| - 1], 'D');
      assert init + [form[|form| - 1]] == form;
    }
  }

  /** The last running total equals 3 x wins + draws. */
  lemma LastEntryCountsResults(form: string)
    requires form != []
    ensures Running(form)[|form| - 1] == 3 * Count(form, 'W') + Count(form, 'D')
  {
    assert form[..|form|] == form;
    TotalCountsResults(form);
  }

  /** Each step adds exactly the points of its result letter, starting from 0. */
  lemma RunningSteps(form: string, k: nat)
    requires k < |form|
    ensures Running(form)[k] == (if k == 0 then 0 else Running(form)[k - 1]) + StepPoints(form[k])
  {
    var prefix := form[..k + 1];
    assert prefix[..|prefix| - 1] == form[..k] && prefix[|prefix| - 1] == form[k];
    assert Running(form)[k] == Total(form[..k]) + StepPoints(form[k]);
    if k == 0 { assert form[..0] == []; }
  }

  /** The running total never decreases and is never negative. */
  lemma {:induction false} RunningMonotone(form: string, i: nat, j: nat)
    requires i <= j < |form|
    ensures 0 <= Running(form)[i] <= Running(form)[j]
    decreases j - i
  {
    if i < j {
      RunningMonotone(form, i, j - 1);
      RunningSteps(form, j);
    }
  }

  /** `calculate_points`: the form strings are column 1 of the first five
      team rows (fewer rows is an IndexError); each becomes its running
      totals. */
  method CalculatePoints(forms: seq<string>) returns (r: Result<seq<seq<int>>>)
    ensures r.Err? <==> |forms| < 5
    ensures r.Err? ==> r.error == IndexError
    ensures r.Ok? ==> |r.value| == 5 && forall t :: 0 <= t < 5 ==> r.value[t] == Running(forms[t])
  {
    if |forms| < 5 {
      return Err(IndexError);
    }
    var teamForms: seq<seq<int>> := [[], [], [], [], []];
    var count := 0;
    while count < 5
      invariant 0 <= count <= 5 && |teamForms| == 5
      invariant forall t :: 0 <= t < count ==> teamForms[t] == Running(forms[t])
      invariant forall t :: count <= t < 5 ==> teamForms[t] == []
    {
      var form := forms[count];
      var points := 0;
      var k := 0;
      ghost var before := teamForms;
      while k < |form|
        invariant 0 <= k <= |form| && |teamForms| == 5
        invariant points == Total(form[..k])
        invariant teamForms[count] == Running(form)[..k]
        invariant forall t :: 0 <= t < 5 && t != count ==> teamForms[t] == before[t]
      {
        var c := form[k];
        if c == 'W' {
          points := points + 3;
        } else if c == 'D' {
          points := points + 1;
        } else {
          points := points + 0;
        }
        assert form[..k + 1][..k] == form[..k];
        teamForms := teamForms[count := teamForms[count] + [points]];
        k := k + 1;
      }
      assert Running(form)[..|form|] == Running(form);
      count := count + 1;
    }
    r := Ok(teamForms);
  }

  function IntRows(rows: seq<seq<int>>): (r: seq<seq<Cell>>)
    ensures |r| == |rows|
    ensures forall g :: 0 <= g < |rows| ==> |r[g]| == |rows[g]| && forall t :: 0 <= t < |rows[g]| ==> r[g][t] == IntCell(rows[g][t])
  {
    seq(|rows|, g requires 0 <= g < |rows| => seq(|rows[g]|, t requires 0 <= t < |rows[g]| => IntCell(rows[g][t])))
  }

  /** `create_dataframe`: the headers are the names in column 3 of the first
      five standings rows (fewer rows is an IndexError), and the rows are
      the transposed team lists. */
  function CreateDataFrame(standingsNames: seq<string>, teamForms: seq<seq<int>>): Result<Frame>
  {
    if |standingsNames| < 5 then Err(IndexError)
    else MakeFrame(IntRows(Zip(teamForms)), standingsNames[..5])
  }

  /** The chart's frame: one row per gameweek up to the shortest form
      (`zip` truncates), row g holding the g-th running total of each of
      the five teams, under the first five standings names. */
  lemma ChartFrame(forms: seq<string>, standingsNames: seq<string>)
    requires |forms| >= 5 && |standingsNames| >= 5
    ensures var teamForms := seq(5, t requires 0 <= t < 5 => Running(forms[t]));
      var f := CreateDataFrame(standingsNames, teamForms);
      && f.Ok?
      && f.value.columns == standingsNames[..5]
      && |f.value.rows| == MinLength(teamForms)
      && (forall t :: 0 <= t < 5 ==> |f.value.rows| <= |forms[t]|)
      && (exists t :: 0 <= t < 5 && |f.value.rows| == |forms[t]|)
      && (forall g, t :: 0 <= g < |f.value.rows| && 0 <= t < 5 ==> f.value.rows[g][t] == IntCell(Running(forms[t])[g]))
  {
    var teamForms := seq(5, t requires 0 <= t < 5 => Running(forms[t]));
    ZipTruncates(teamForms);
    var rows := IntRows(Zip(teamForms));
    assert forall g :: 0 <= g < |rows| ==> |rows[g]| == 5;
    var f := CreateDataFrame(standingsNames, teamForms);
    assert f == Ok(Frame(standingsNames[..5], rows));
    assert forall t :: 0 <= t < 5 ==> |teamForms[t]| == |forms[t]|;
    var t :| 0 <= t < 5 && MinLength(teamForms) == |teamForms[t]|;
    assert |f.value.rows| == |forms[t]|;
    forall g, u | 0 <= g < |rows| && 0 <= u < 5
      ensures rows[g][u] == IntCell(Running(forms[u])[g])
    {
      assert Zip(teamForms)[g][u] == teamForms[u][g];
    }
  }
}
