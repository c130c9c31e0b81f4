/** The summary the dashboard derives from a PR list: totals, per-state
    counts and the average days to merge (app/page.tsx). All arithmetic is
    exact; the browser's floating point is not modelled. */
module Metrics {
  import opened Records

  /** `prs.filter(pr => pr.state === state).length` */
  function CountState(prs: seq<PullRequest>, state: string): (n: nat)
    ensures n <= |prs|
    ensures n == 0 <==> forall i :: 0 <= i < |prs| ==> prs[i].state != state
  {
    if prs == [] then 0
    else (if prs[0].state == state then 1 else 0) + CountState(prs[1..], state)
  }

  /** The two activity counters summed over a PR list. */
  datatype Counter = Comments | Commits

  function CounterOf(pr: PullRequest, counter: Counter): int {
    match counter
    case Comments => pr.comments
    case Commits => pr.commits
  }

  /** `prs.reduce((sum, pr) => sum + (pr.comments || 0), 0)` and the same for
      commits. The counters are integers, so `|| 0` changes no value. */
  function Total(prs: seq<PullRequest>, counter: Counter): (sum: int)
    ensures (forall i :: 0 <= i < |prs| ==> CounterOf(prs[i], counter) >= 0) ==> sum >= 0
  {
    if prs == [] then 0 else CounterOf(prs[0], counter) + Total(prs[1..], counter)
  }

  /** The filter both the summary and the average use. */
  predicate HasMergeTime(pr: PullRequest) {
    pr.state == Merged && pr.daysToMerge.Some?
  }

  /** `prs.filter(pr => pr.state === "MERGED" && pr.days_to_merge !== undefined)` */
  function MergedWithDays(prs: seq<PullRequest>): (r: seq<PullRequest>)
    ensures |r| <= |prs|
    ensures forall i :: 0 <= i < |r| ==> HasMergeTime(r[i])
    ensures forall pr :: pr in r <==> pr in prs && HasMergeTime(pr)
  {
    if prs == [] then []
    else (if HasMergeTime(prs[0]) then [prs[0]] else []) + MergedWithDays(prs[1..])
  }

  /** `pr.days_to_merge || 0` for each record. */
  function DaysOf(prs: seq<PullRequest>): (ds: seq<real>)
    ensures |ds| == |prs|
    ensures forall i :: 0 <= i < |prs| ==> ds[i] == prs[i].daysToMerge.GetOr(0.0)
  {
    if prs == [] then [] else [prs[0].daysToMerge.GetOr(0.0)] + DaysOf(prs[1..])
  }

  function SumReal(ds: seq<real>): real {
    if ds == [] then 0.0 else ds[0] + SumReal(ds[1..])
  }

  /** `calculateAvgDaysToMerge`: the mean days to merge over merged PRs that
      carry the field, 0 when there are none. */
  function AvgDaysToMerge(prs: seq<PullRequest>): (avg: real)
    ensures MergedWithDays(prs) == [] ==> avg == 0.0
    ensures MergedWithDays(prs) != [] ==>
      avg == SumReal(DaysOf(MergedWithDays(prs))) / |MergedWithDays(prs)| as real
  {
    var merged := MergedWithDays(prs);
    if |merged| == 0 then 0.0 else SumReal(DaysOf(merged)) / |merged| as real
  }

  /** The summary handed to the PDF generator (app/page.tsx, lines 161-169). */
  datatype Summary = Summary(
    totalPRs: nat,
    totalComments: int,
    totalCommits: int,
    mergedPRs: nat,
    openPRs: nat,
    declinedPRs: nat,
    avgDaysToMerge: real)

  function Summarize(prs: seq<PullRequest>): (s: Summary)
    ensures s.totalPRs == |prs|
    ensures s.mergedPRs + s.openPRs + s.declinedPRs <= s.totalPRs
    ensures s.mergedPRs + s.openPRs + s.declinedPRs == s.totalPRs <==>
      forall i :: 0 <= i < |prs| ==> prs[i].state in StateOptions
  {
    StatesPartition(prs);
    Summary(
      |prs|,
      Total(prs, Comments),
      Total(prs, Commits),
      CountState(prs, Merged),
      CountState(prs, Open),
      CountState(prs, Declined),
      AvgDaysToMerge(prs))
  }

  /** The three state counts never exceed the PR count, and reach it exactly
      when every state is one of OPEN, MERGED and DECLINED. */
  lemma {:induction false} StatesPartition(prs: seq<PullRequest>)
    ensures CountState(prs, Merged) + CountState(prs, Open) + CountState(prs, Declined) <= |prs|
    ensures CountState(prs, Merged) + CountState(prs, Open) + CountState(prs, Declined) == |prs| <==>
      forall i :: 0 <= i < |prs| ==> prs[i].state in StateOptions
  {
    if prs != [] {
      var rest := prs[1..];
      StatesPartition(rest);
      var st := prs[0].state;
      var hits := (if st == Merged then 1 else 0) + (if st == Open then 1 else 0) + (if st == Declined then 1 else 0);
      assert hits <= 1 && (hits == 1 <==> st in StateOptions);
      assert CountState(prs, Merged) + CountState(prs, Open) + CountState(prs, Declined)
        == hits + CountState(rest, Merged) + CountState(rest, Open) + CountState(rest, Declined);
      assert forall i :: 1 <= i < |prs| ==> prs[i] == rest[i - 1];
    }
  }

  /** Counts add up over concatenated lists, so the state counts of the
      per-repository results joined together are the sums of theirs. */
  lemma {:induction false} CountStateAdditive(a: seq<PullRequest>, b: seq<PullRequest>, state: string)
    ensures CountState(a + b, state) == CountState(a, state) + CountState(b, state)
  {
    if a == [] {
      assert a + b == b;
    } else {
      assert (a + b)[1..] == a[1..] + b;
      CountStateAdditive(a[1..], b, state);
    }
  }

  /** Comment and commit totals add up over concatenated lists. */
  lemma {:induction false} TotalAdditive(a: seq<PullRequest>, b: seq<PullRequest>, counter: Counter)
    ensures Total(a + b, counter) == Total(a, counter) + Total(b, counter)
  {
    if a == [] {
      assert a + b == b;
    } else {
      assert (a + b)[1..] == a[1..] + b;
      TotalAdditive(a[1..], b, counter);
    }
  }

  /** The merged-with-days filter commutes with concatenation. */
  lemma {:induction false} MergedWithDaysAdditive(a: seq<PullRequest>, b: seq<PullRequest>)
    ensures MergedWithDays(a + b) == MergedWithDays(a) + MergedWithDays(b)
  {
    if a == [] {
      assert a + b == b;
    } else {
      assert (a + b)[1..] == a[1..] + b;
      MergedWithDaysAdditive(a[1..], b);
    }
  }

  lemma DivThenMul(a: real, n: real)
    requires n > 0.0
    ensures (a / n) * n == a
  {
  }

  lemma MulStrictMono(a: real, b: real, n: real)
    requires n > 0.0 && a < b
    ensures a * n < b * n
  {
  }

  lemma {:induction false} SumBounds(ds: seq<real>, lo: real, hi: real)
    requires forall i :: 0 <= i < |ds| ==> lo <= ds[i] <= hi
    ensures |ds| as real * lo <= SumReal(ds) <= |ds| as real * hi
  {
    if ds != [] {
      SumBounds(ds[1..], lo, hi);
      assert (|ds| - 1) as real * lo + lo == |ds| as real * lo;
      assert (|ds| - 1) as real * hi + hi == |ds| as real * hi;
    }
  }

  lemma QuotientBetween(total: real, n: real, lo: real, hi: real)
    requires n > 0.0 && n * lo <= total <= n * hi
    ensures lo <= total / n <= hi
  {
    var q := total / n;
    DivThenMul(total, n);
    if q < lo {
      MulStrictMono(q, lo, n);
    }
    if q > hi {
      MulStrictMono(hi, q, n);
    }
  }

  /** A mean lies between any lower and upper bound of what it averages. */
  lemma MeanWithinBounds(ds: seq<real>, lo: real, hi: real)
    requires ds != []
    requires forall i :: 0 <= i < |ds| ==> lo <= ds[i] <= hi
    ensures lo <= SumReal(ds) / |ds| as real <= hi
  {
    SumBounds(ds, lo, hi);
    QuotientBetween(SumReal(ds), |ds| as real, lo, hi);
  }

  /** The average lies between any lower and upper bound of the days to merge
      it averages; in particular between their minimum and maximum. */
  lemma AvgWithinBounds(prs: seq<PullRequest>, lo: real, hi: real)
    requires MergedWithDays(prs) != []
    requires forall pr :: pr in MergedWithDays(prs) ==> lo <= pr.daysToMerge.value <= hi
    ensures lo <= AvgDaysToMerge(prs) <= hi
  {
    var merged := MergedWithDays(prs);
    var ds := DaysOf(merged);
    forall i | 0 <= i < |ds| ensures lo <= ds[i] <= hi {
      assert merged[i] in merged;
    }
    MeanWithinBounds(ds, lo, hi);
  }

  /** What the dashboard's summary card shows (app/page.tsx, lines 191-198);
      `avgDaysToMerge` is None where the card shows a dash. */
  datatype Display = Display(totalPRs: nat, totalComments: int, totalCommits: int, avgDaysToMerge: Option<real>)

  function DisplaySummary(prs: seq<PullRequest>): (d: Display)
    ensures d.avgDaysToMerge.None? <==> MergedWithDays(prs) == []
    ensures d.avgDaysToMerge.Some? ==> d.avgDaysToMerge.value == Summarize(prs).avgDaysToMerge
    ensures d.totalPRs == Summarize(prs).totalPRs
    ensures d.totalComments == Summarize(prs).totalComments
    ensures d.totalCommits == Summarize(prs).totalCommits
  {
    var merged := MergedWithDays(prs);
    Display(
      |prs|,
      Total(prs, Comments),
      Total(prs, Commits),
      if |merged| > 0 then Some(SumReal(DaysOf(merged)) / |merged| as real) else None)
  }
}
