/** The datasets of the three report charts (components/report-charts.tsx):
    the state pie, the commits bar chart over the first ten PRs and the
    days-to-merge line over the first ten merged PRs. */
module Charts {
  import opened Records
  import opened Numerals
  import opened Metrics

  /** The charts the component renders, in the order of their canvases. */
  datatype Chart = Pie | Bar | Line

  const RenderedCharts := [Pie, Bar, Line]

  /** At most this many PRs appear in the bar and line charts. */
  const ChartWindow := 10

  function Min(a: int, b: int): int {
    if a <= b then a else b
  }

  /** Pie data: the MERGED, OPEN and DECLINED counts, in that order. */
  function PieData(prs: seq<PullRequest>): (r: seq<nat>)
    ensures |r| == 3
    ensures r[0] + r[1] + r[2] <= |prs|
    ensures r == [Summarize(prs).mergedPRs, Summarize(prs).openPRs, Summarize(prs).declinedPRs]
  {
    StatesPartition(prs);
    [CountState(prs, Merged), CountState(prs, Open), CountState(prs, Declined)]
  }

  /** `title.substring(0, 20) + "..."`: the ellipsis is appended to every
      title, also to one shorter than 20 characters. */
  function BarLabel(title: string): (r: string)
    ensures |r| == Min(20, |title|) + 3
    ensures r[..|r| - 3] == title[..Min(20, |title|)] && r[|r| - 3..] == "..."
  {
    title[..Min(20, |title|)] + "..."
  }

  /** Bar labels: the first `min(10, |prs|)` titles, shortened. */
  function BarLabels(prs: seq<PullRequest>): (r: seq<string>)
    ensures |r| == Min(ChartWindow, |prs|)
    ensures forall i :: 0 <= i < |r| ==> r[i] == BarLabel(prs[i].title)
  {
    seq(Min(ChartWindow, |prs|), i requires 0 <= i < Min(ChartWindow, |prs|) => BarLabel(prs[i].title))
  }

  /** Bar values: the commits of the same PRs. */
  function BarValues(prs: seq<PullRequest>): (r: seq<int>)
    ensures |r| == Min(ChartWindow, |prs|)
    ensures forall i :: 0 <= i < |r| ==> r[i] == prs[i].commits
  {
    seq(Min(ChartWindow, |prs|), i requires 0 <= i < Min(ChartWindow, |prs|) => prs[i].commits)
  }

  /** Every bar has a label and a value, both from the same PR. */
  lemma BarChartAligned(prs: seq<PullRequest>)
    ensures |BarLabels(prs)| == |BarValues(prs)| <= |prs|
  {
  }

  /** Line labels "PR 1" .. "PR n" for the first ten merged PRs with days. */
  function LineLabels(prs: seq<PullRequest>): (r: seq<string>)
    ensures |r| == Min(ChartWindow, |MergedWithDays(prs)|)
    ensures forall i :: 0 <= i < |r| ==> r[i] == "PR " + NatToString(i + 1)
  {
    var n := Min(ChartWindow, |MergedWithDays(prs)|);
    seq(n, i requires 0 <= i < n => "PR " + NatToString(i + 1))
  }

  /** Line values: `pr.days_to_merge || 0` for the same PRs. */
  function LineValues(prs: seq<PullRequest>): (r: seq<real>)
    ensures |r| == Min(ChartWindow, |MergedWithDays(prs)|)
  {
    var merged := MergedWithDays(prs);
    var n := Min(ChartWindow, |merged|);
    seq(n, i requires 0 <= i < n => merged[i].daysToMerge.GetOr(0.0))
  }

  /** Each point of the line chart is the days to merge of a MERGED PR of the
      list that has them; with the field typed as an optional number, the
      `|| 0` default only turns a 0 into 0. */
  lemma LineValuesAreMergeTimes(prs: seq<PullRequest>, i: nat)
    requires i < |LineValues(prs)|
    ensures |LineLabels(prs)| == |LineValues(prs)|
    ensures var pr := MergedWithDays(prs)[i];
      pr in prs && pr.state == Merged && pr.daysToMerge == Some(LineValues(prs)[i])
  {
    var pr := MergedWithDays(prs)[i];
    assert pr in MergedWithDays(prs);
  }

  /** The line chart's labels are pairwise different. */
  lemma LineLabelsDistinct(prs: seq<PullRequest>, i: nat, j: nat)
    requires i < j < |LineLabels(prs)|
    ensures LineLabels(prs)[i] != LineLabels(prs)[j]
  {
    var a, b := LineLabels(prs)[i], LineLabels(prs)[j];
    NatToStringInjective(i + 1, j + 1);
    assert a[3..] == NatToString(i + 1);
    assert b[3..] == NatToString(j + 1);
  }
}
