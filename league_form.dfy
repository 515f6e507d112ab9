/** The league-form section: the teams ranked 6th to 20th are laid out in
    five columns of three, each shown as its logo and a label with its
    position and its last five results. */
module LeagueForm {
  import opened Results
  import opened Text
  import opened JsonValues

  /** The two leading columns of a teams row the section reads: the logo
      address and the form string. */
  datatype TeamRow = TeamRow(logo: string, form: string)

  /** One markdown item of the list: a centred image with a source
      address, or a centred paragraph naming a league position and some
      results. */
  datatype Markdown = Image(src: string) | FormLabel(position: int, results: string)

  const LabelOpen := "<p style='text-align: center; padding-top: 0.8rem;'>"
  const LabelClose := "</p>"

  /** The HTML text `st.markdown` receives for an item. */
  function Render(m: Markdown): string
  {
    match m
    case Image(src) => "<img style='display: block; margin-left: auto; margin-right: auto; width: 75px;' src='" + src + "'/>"
    case FormLabel(position, results) => LabelOpen + IntToString(position) + "th / " + results + LabelClose
  }

  /** The image entry of a team: its logo. */
  function ImageHtml(team: TeamRow): Markdown
  {
    Image(team.logo)
  }

  /** The label entry of the team at a position index: the index plus one,
      the literal "th", and the last five form characters. */
  function LabelHtml(index: int, team: TeamRow): Markdown
  {
    FormLabel(index + 1, TakeLast(team.form, 5))
  }

  /** The label names position index+1 with "th" whatever the position,
      and shows the last five results, or all of them when there are fewer. */
  lemma LabelShowsPositionAndForm(index: int, team: TeamRow)
    ensures exists shown: string ::
      && Render(LabelHtml(index, team)) == LabelOpen + IntToString(index + 1) + "th / " + shown + LabelClose
      && |shown| == (if |team.form| < 5 then |team.form| else 5)
      && team.form == team.form[..|team.form| - |shown|] + shown
  {
    var shown := TakeLast(team.form, 5);
    assert team.form == team.form[..|team.form| - |shown|] + shown;
  }

  /** The markdown list the section renders for some position indices:
      an image and then a label per index, in index order. A position the
      frame does not have is an IndexError. */
  function TeamHtml(teams: seq<TeamRow>, indices: seq<int>): (r: Result<seq<Markdown>>)
    ensures r.Err? ==> r.error == IndexError
    ensures r.Ok? ==> |r.value| == 2 * |indices|
    decreases |indices|
  {
    if indices == [] then Ok([])
    else
      var init := indices[..|indices| - 1];
      var last := indices[|indices| - 1];
      var front :- TeamHtml(teams, init);
      match PyIndex(|teams|, last)
      case None => Err(IndexError)
      case Some(p) => Ok(front + [ImageHtml(teams[p]), LabelHtml(last, teams[p])])
  }

  /** The list renders exactly when every index names a row of the frame. */
  lemma {:induction false} TeamHtmlRenders(teams: seq<TeamRow>, indices: seq<int>)
    ensures TeamHtml(teams, indices).Ok? <==> forall k :: 0 <= k < |indices| ==> PyIndex(|teams|, indices[k]).Some?
    decreases |indices|
  {
    if indices != [] {
      var init := indices[..|indices| - 1];
      assert forall k :: 0 <= k < |init| ==> init[k] == indices[k];
      TeamHtmlRenders(teams, init);
    }
  }

  /** Entries 2k and 2k+1 of the list are the image and the label of the
      team at indices[k]. */
  lemma {:induction false} TeamHtmlEntries(teams: seq<TeamRow>, indices: seq<int>, k: nat)
    requires TeamHtml(teams, indices).Ok? && k < |indices|
    ensures PyIndex(|teams|, indices[k]).Some?
    ensures var p := PyIndex(|teams|, indices[k]).value;
      var r := TeamHtml(teams, indices).value;
      r[2 * k] == ImageHtml(teams[p]) && r[2 * k + 1] == LabelHtml(indices[k], teams[p])
    decreases |indices|
  {
    var init := indices[..|indices| - 1];
    assert forall j :: 0 <= j < |init| ==> init[j] == indices[j];
    if k < |init| {
      TeamHtmlEntries(teams, init, k);
    }
  }

  /** Adding an index that names no row fails. */
  lemma TeamHtmlSnocMissing(teams: seq<TeamRow>, indices: seq<int>, index: int)
    requires PyIndex(|teams|, index).None?
    ensures TeamHtml(teams, indices + [index]).Err?
  {
    var whole := indices + [index];
    assert whole[..|whole| - 1] == indices;
  }

  /** Adding an index that names a row appends its image and then its label. */
  lemma TeamHtmlSnoc(teams: seq<TeamRow>, indices: seq<int>, index: int, p: nat)
    requires TeamHtml(teams, indices).Ok? && PyIndex(|teams|, index) == Some(p)
    ensures p < |teams|
    ensures TeamHtml(teams, indices + [index]) == Ok(TeamHtml(teams, indices).value + [ImageHtml(teams[p])] + [LabelHtml(index, teams[p])])
  {
    var whole := indices + [index];
    assert whole[..|whole| - 1] == indices;
    var front := TeamHtml(teams, indices).value;
    assert front + [ImageHtml(teams[p]), LabelHtml(index, teams[p])] == front + [ImageHtml(teams[p])] + [LabelHtml(index, teams[p])];
  }

  /** `generate_team_html`: for each index, the row at that position is
      read and its image and label entries are appended. */
  method GenerateTeamHtml(teams: seq<TeamRow>, indices: seq<int>) returns (r: Result<seq<Markdown>>)
    ensures r == TeamHtml(teams, indices)
  {
    var markdownList: seq<Markdown> := [];
    var k := 0;
    while k < |indices|
      invariant k <= |indices|
      invariant TeamHtml(teams, indices[..k]) == Ok(markdownList)
    {
      var index := indices[k];
      assert indices[..k + 1] == indices[..k] + [index];
      var slot := PyIndex(|teams|, index);
      if slot.None? {
        TeamHtmlSnocMissing(teams, indices[..k], index);
        TeamHtmlFailsAfter(teams, indices, k + 1);
        return Err(IndexError);
      }
      TeamHtmlSnoc(teams, indices[..k], index, slot.value);
      var teamInfo := teams[slot.value];
      markdownList := markdownList + [ImageHtml(teamInfo)];
      markdownList := markdownList + [LabelHtml(index, teamInfo)];
      k := k + 1;
    }
    assert indices[..k] == indices;
    r := Ok(markdownList);
  }

  /** A list that fails on a prefix of the indices fails on all of them. */
  lemma {:induction false} TeamHtmlFailsAfter(teams: seq<TeamRow>, indices: seq<int>, n: nat)
    requires n <= |indices| && TeamHtml(teams, indices[..n]).Err?
    ensures TeamHtml(teams, indices) == Err(IndexError)
  {
    TeamHtmlRenders(teams, indices[..n]);
    TeamHtmlRenders(teams, indices);
    var k :| 0 <= k < n && PyIndex(|teams|, indices[..n][k]).None?;
    assert indices[k] == indices[..n][k];
  }

  /** The positions the `display` loop gives column i. */
  function ColumnIndices(i: int): (r: seq<int>)
    ensures |r| == 3
  {
    [i + 5, i + 10, i + 15]
  }

  /** Over the five columns the indices cover positions 5 to 19 (ranks 6 to
      20), each exactly once. */
  lemma ColumnsPartitionRest(p: int)
    ensures (5 <= p < 20) <==> exists i, j :: 0 <= i < 5 && 0 <= j < 3 && ColumnIndices(i)[j] == p
    ensures forall i, j, i', j' ::
      (0 <= i < 5 && 0 <= j < 3 && 0 <= i' < 5 && 0 <= j' < 3 && ColumnIndices(i)[j] == p && ColumnIndices(i')[j'] == p)
      ==> i == i' && j == j'
  {
    if 5 <= p < 20 {
      var i, j := (p - 5) % 5, (p - 5) / 5;
      assert ColumnIndices(i)[j] == p;
    }
  }

  /** Column i renders exactly when the frame has a row at position i+15,
      its largest index. */
  lemma ColumnRenders(teams: seq<TeamRow>, i: nat)
    ensures TeamHtml(teams, ColumnIndices(i)).Ok? <==> i + 15 < |teams|
  {
    var r := TeamHtml(teams, ColumnIndices(i));
    TeamHtmlRenders(teams, ColumnIndices(i));
    if !r.Ok? {
      var k :| 0 <= k < 3 && PyIndex(|teams|, ColumnIndices(i)[k]).None?;
    }
  }

  /** What the section renders for the rest of the league: one markdown
      list per column, column i showing positions i+5, i+10 and i+15. */
  function RestOfLeague(teams: seq<TeamRow>): (r: Result<seq<seq<Markdown>>>)
    ensures r.Ok? ==> |r.value| == 5 && forall i :: 0 <= i < 5 ==> TeamHtml(teams, ColumnIndices(i)) == Ok(r.value[i])
    ensures r.Err? ==> r.error == IndexError
  {
    MapRange(5, i => TeamHtml(teams, ColumnIndices(i)))
  }

  /** The section renders exactly when the frame has all twenty teams. */
  lemma RestOfLeagueNeedsTwenty(teams: seq<TeamRow>)
    ensures RestOfLeague(teams).Ok? <==> |teams| >= 20
  {
    ColumnRenders(teams, 4);
    if |teams| >= 20 {
      forall i: nat | i < 5 ensures TeamHtml(teams, ColumnIndices(i)).Ok? {
        ColumnRenders(teams, i);
      }
    }
  }
}
