/** The threshold rules of the evaluation report (lib/pdf-generator.ts):
    sub-scores, the overall score, its label, the improvement suggestions and
    the assessment tiers. Rates are compared by exact cross-multiplication
    (`merged / total * 100 > 80` becomes `merged * 100 > 80 * total`). */
module Scoring {
  import opened Metrics

  /** `mergedPRs / totalPRs * 100`, exactly. */
  function MergeRate(s: Summary): real
    requires s.totalPRs > 0
  {
    (s.mergedPRs as real / s.totalPRs as real) * 100.0
  }

  /** `totalComments / totalPRs`, exactly. */
  function CommentsPerPR(s: Summary): real
    requires s.totalPRs > 0
  {
    s.totalComments as real / s.totalPRs as real
  }

  /** `merged / total * 100 > pct`, by cross-multiplication. */
  predicate RateAbove(merged: nat, total: nat, pct: int) {
    merged * 100 > pct * total
  }

  /** The merge rate is a percentage: `rate * total == merged * 100`, never
      negative, and at most 100 when no more PRs are merged than there are. */
  lemma MergeRatePercent(s: Summary)
    requires s.totalPRs > 0
    ensures MergeRate(s) * s.totalPRs as real == s.mergedPRs as real * 100.0
    ensures MergeRate(s) >= 0.0
    ensures s.mergedPRs <= s.totalPRs ==> MergeRate(s) <= 100.0
  {
    var t := s.totalPRs as real;
    var q := s.mergedPRs as real / t;
    assert q * t == s.mergedPRs as real;
    assert MergeRate(s) * t == s.mergedPRs as real * 100.0;
    ScaleCompare(MergeRate(s), 100.0, t);
  }

  /** Comments per PR times the PR count gives back the comment total, and
      the ratio is non-negative exactly when the total is. */
  lemma CommentsPerPRRatio(s: Summary)
    requires s.totalPRs > 0
    ensures CommentsPerPR(s) * s.totalPRs as real == s.totalComments as real
    ensures CommentsPerPR(s) >= 0.0 <==> s.totalComments >= 0
  {
    CommentsPerPRExact(s, 0);
  }

  /** Cross-multiplication decides exactly the comparison of the rate. */
  lemma RateAboveExact(s: Summary, pct: int)
    requires s.totalPRs > 0
    ensures RateAbove(s.mergedPRs, s.totalPRs, pct) <==> MergeRate(s) > pct as real
    ensures LowMergeRate(s) <==> MergeRate(s) < 70.0
  {
    var t := s.totalPRs as real;
    var q := s.mergedPRs as real / t;
    assert q * t == s.mergedPRs as real;
    assert MergeRate(s) * t == s.mergedPRs as real * 100.0;
    ScaleCompare(MergeRate(s), pct as real, t);
    ScaleCompare(70.0, MergeRate(s), t);
  }

  /** Comparing per-PR comments with a bound is comparing totals. */
  lemma CommentsPerPRExact(s: Summary, k: int)
    requires s.totalPRs > 0
    ensures s.totalComments < k * s.totalPRs <==> CommentsPerPR(s) < k as real
  {
    var t := s.totalPRs as real;
    assert CommentsPerPR(s) * t == s.totalComments as real;
    ScaleCompare(k as real, CommentsPerPR(s), t);
  }

  lemma ScaleCompare(a: real, b: real, t: real)
    requires t > 0.0
    ensures a > b <==> a * t > b * t
  {
  }

  /** 10 / 8 / 6 / 4 for an average below 2 / 5 / 10 days / otherwise. */
  function SpeedScore(avg: real): (r: int)
    ensures r == 10 || r == 8 || r == 6 || r == 4
  {
    if avg < 2.0 then 10 else if avg < 5.0 then 8 else if avg < 10.0 then 6 else 4
  }

  /** 10 / 8 / 6 for a merge rate above 80 / above 60 / otherwise. */
  function QualityScore(merged: nat, total: nat): (r: int)
    requires total > 0
    ensures r == 10 || r == 8 || r == 6
  {
    if RateAbove(merged, total, 80) then 10 else if RateAbove(merged, total, 60) then 8 else 6
  }

  /** 10 / 8 / 6 for more than 20 / more than 10 PRs / otherwise. */
  function ActivityScore(totalPRs: nat): (r: int)
    ensures r == 10 || r == 8 || r == 6
  {
    if totalPRs > 20 then 10 else if totalPRs > 10 then 8 else 6
  }

  /** A faster average never earns a lower speed score. */
  lemma SpeedScoreAntitone(a: real, b: real)
    requires a <= b
    ensures SpeedScore(a) >= SpeedScore(b)
  {
  }

  /** A higher merge rate never earns a lower quality score. */
  lemma QualityScoreMonotone(m1: nat, t1: nat, m2: nat, t2: nat)
    requires t1 > 0 && t2 > 0
    requires m1 * t2 <= m2 * t1
    ensures QualityScore(m1, t1) <= QualityScore(m2, t2)
  {
    if RateAbove(m1, t1, 80) {
      RateAboveCarries(m1, t1, m2, t2, 80);
    } else if RateAbove(m1, t1, 60) {
      RateAboveCarries(m1, t1, m2, t2, 60);
    }
  }

  lemma RateAboveCarries(m1: nat, t1: nat, m2: nat, t2: nat, pct: nat)
    requires t1 > 0 && t2 > 0
    requires m1 * t2 <= m2 * t1
    requires RateAbove(m1, t1, pct)
    ensures RateAbove(m2, t2, pct)
  {
    assert m1 * 100 * t2 > pct * t1 * t2 by {
      MulStrict(m1 * 100, pct * t1, t2);
    }
    assert m1 * t2 * 100 <= m2 * t1 * 100;
    assert pct * t2 * t1 < m2 * 100 * t1;
    if m2 * 100 <= pct * t2 {
      MulWeak(m2 * 100, pct * t2, t1);
    }
  }

  lemma {:induction false} MulStrict(a: int, b: int, n: nat)
    requires a > b && n > 0
    ensures a * n > b * n
  {
    if n > 1 {
      MulStrict(a, b, n - 1);
      assert a * n == a * (n - 1) + a;
      assert b * n == b * (n - 1) + b;
    }
  }

  lemma MulWeak(a: int, b: int, n: nat)
    requires a <= b
    ensures a * n <= b * n
  {
  }

  function SubScoreSum(s: Summary): int
    requires s.totalPRs > 0
  {
    SpeedScore(s.avgDaysToMerge) + QualityScore(s.mergedPRs, s.totalPRs) + ActivityScore(s.totalPRs)
  }

  /** `Math.round(sum / 3 * 10)`: the integer nearest to `10 * sum / 3`.
      A third is never exactly half-way, so the rounding mode is immaterial. */
  function RoundedTenths(sum: int): (r: int)
    ensures 6 * r - 3 < 20 * sum < 6 * r + 3
  {
    var q := (20 * sum + 3) / 6;
    var m := (20 * sum + 3) % 6;
    assert 20 * sum + 3 == 6 * q + m && 0 <= m < 6;
    // 20 * sum + 3 is odd, so the remainder is 1, 3 or 5
    assert m != 0 && m != 2 && m != 4 by {
      assert 2 * (10 * sum - 3 * q) + 3 == m;
    }
    q
  }

  /** `calculateOverallScore`, in tenths: the score shown is `tenths / 10`. */
  function OverallScore(s: Summary): (tenths: int)
    requires s.totalPRs > 0
    ensures 53 <= tenths <= 100
    ensures 6 * tenths - 3 < 20 * SubScoreSum(s) < 6 * tenths + 3
  {
    RoundedTenths(SubScoreSum(s))
  }

  /** The worked example: 10 PRs, 9 merged, 1.5 days on average score 8.7,
      a "Strong Contributor!". */
  lemma OverallScoreExample()
    ensures OverallScore(Summary(10, 30, 50, 9, 1, 0, 1.5)) == 87
    ensures ScoreLabel(87) == "Strong Contributor!"
  {
  }

  /** The labels, lowest first. */
  const ScoreLabels := ["Needs Improvement", "Satisfactory Performance", "Good Contributor",
                        "Strong Contributor!", "Outstanding Contributor!"]

  /** How many of the thresholds 6, 7, 8 and 9 a score reaches. */
  function LabelRank(tenths: int): (k: nat)
    ensures k < |ScoreLabels|
  {
    (if tenths >= 60 then 1 else 0) + (if tenths >= 70 then 1 else 0) +
    (if tenths >= 80 then 1 else 0) + (if tenths >= 90 then 1 else 0)
  }

  /** `getScoreLabel`: thresholds tried from the highest down, first match wins. */
  function ScoreLabel(tenths: int): (text: string)
    ensures text == ScoreLabels[LabelRank(tenths)]
  {
    if tenths >= 90 then "Outstanding Contributor!"
    else if tenths >= 80 then "Strong Contributor!"
    else if tenths >= 70 then "Good Contributor"
    else if tenths >= 60 then "Satisfactory Performance"
    else "Needs Improvement"
  }

  /** A higher score never gets a lower label. */
  lemma ScoreLabelMonotone(a: int, b: int)
    requires a <= b
    ensures LabelRank(a) <= LabelRank(b)
  {
  }

  const MergeRateAdvice := "Focus on improving PR quality to increase merge rate"
  const ReviewCycleAdvice := "Work on reducing PR size for faster review cycles"
  const EngagementAdvice := "Engage more in code reviews and discussions"
  const BacklogAdvice := "Reduce open PR backlog by focusing on completion"
  const KeepUpPraise := "Continue maintaining excellent performance standards"
  const MentoringPraise := "Consider mentoring junior developers"

  /** The corrective messages in rule order. */
  const Advice := [MergeRateAdvice, ReviewCycleAdvice, EngagementAdvice, BacklogAdvice]

  /** The four rules: merge rate below 70, more than 7 days to merge,
      fewer than 2 comments per PR, more than 5 open PRs. */
  predicate LowMergeRate(s: Summary) { s.mergedPRs * 100 < 70 * s.totalPRs }
  predicate SlowMerging(s: Summary) { s.avgDaysToMerge > 7.0 }
  predicate LowEngagement(s: Summary) { s.totalComments < 2 * s.totalPRs }
  predicate OpenBacklog(s: Summary) { s.openPRs > 5 }

  predicate AnyRuleFires(s: Summary) {
    LowMergeRate(s) || SlowMerging(s) || LowEngagement(s) || OpenBacklog(s)
  }

  /** The position of a message in rule order (4 for anything else). */
  function AdviceRank(msg: string): nat {
    if msg == MergeRateAdvice then 0
    else if msg == ReviewCycleAdvice then 1
    else if msg == EngagementAdvice then 2
    else if msg == BacklogAdvice then 3
    else 4
  }

  /** The six messages are distinct: each advice has its own rank, and
      neither praise message is an advice. */
  lemma AdviceRanks()
    ensures AdviceRank(MergeRateAdvice) == 0 && AdviceRank(ReviewCycleAdvice) == 1
    ensures AdviceRank(EngagementAdvice) == 2 && AdviceRank(BacklogAdvice) == 3
    ensures AdviceRank(KeepUpPraise) == 4 && AdviceRank(MentoringPraise) == 4
    ensures KeepUpPraise != MentoringPraise
  {
    // the lengths differ, except for two messages of 52 characters whose
    // last characters differ
    assert MergeRateAdvice[51] == 'e' && KeepUpPraise[51] == 's';
  }

  /** `generateSuggestions`: every rule that fires adds its message, in rule
      order; when none fires, the two praise messages are given instead. */
  function Suggestions(s: Summary): (r: seq<string>)
    requires s.totalPRs > 0
    ensures 1 <= |r| <= 4
    ensures r == [KeepUpPraise, MentoringPraise] <==> !AnyRuleFires(s)
    ensures AnyRuleFires(s) ==> r == Fired(s)
  {
    var fired := Fired(s);
    AdviceRanks();
    assert KeepUpPraise !in Advice;
    if |fired| == 0 then [KeepUpPraise, MentoringPraise] else fired
  }

  /** The messages of the rules that fire, in rule order. */
  function Fired(s: Summary): (r: seq<string>)
    ensures |r| <= 4 && (|r| == 0 <==> !AnyRuleFires(s))
    ensures forall m :: m in r ==> m in Advice
  {
    (if LowMergeRate(s) then [MergeRateAdvice] else []) +
    (if SlowMerging(s) then [ReviewCycleAdvice] else []) +
    (if LowEngagement(s) then [EngagementAdvice] else []) +
    (if OpenBacklog(s) then [BacklogAdvice] else [])
  }

  /** Each advice is given exactly when its rule fires, and the praise is
      given only when no rule fires. */
  lemma SuggestionsFollowRules(s: Summary)
    requires s.totalPRs > 0
    ensures var r := Suggestions(s);
      (MergeRateAdvice in r <==> LowMergeRate(s)) &&
      (ReviewCycleAdvice in r <==> SlowMerging(s)) &&
      (EngagementAdvice in r <==> LowEngagement(s)) &&
      (BacklogAdvice in r <==> OpenBacklog(s)) &&
      (AnyRuleFires(s) ==> KeepUpPraise !in r && MentoringPraise !in r)
  {
    AdviceRanks();
  }

  /** The advice comes in rule order, each message at most once. */
  lemma SuggestionsInRuleOrder(s: Summary)
    requires s.totalPRs > 0 && AnyRuleFires(s)
    ensures var r := Suggestions(s);
      forall i, j :: 0 <= i < j < |r| ==> AdviceRank(r[i]) < AdviceRank(r[j])
  {
    AdviceRanks();
  }

  /** The speed tiers, fastest first. */
  const SpeedTiers := ["Very Fast", "Fast", "Moderate", "Slow"]

  /** The speed assessment uses the buckets of the speed sub-score. */
  function SpeedTier(avg: real): (tier: string)
    ensures tier == SpeedTiers[(10 - SpeedScore(avg)) / 2]
  {
    if avg < 2.0 then "Very Fast" else if avg < 5.0 then "Fast" else if avg < 10.0 then "Moderate" else "Slow"
  }

  /** The quality tiers, best first. */
  const QualityTiers := ["Excellent", "Good", "Needs Improvement"]

  /** The quality assessment uses the thresholds of the quality sub-score. */
  function QualityTier(merged: nat, total: nat): (tier: string)
    requires total > 0
    ensures tier == QualityTiers[(10 - QualityScore(merged, total)) / 2]
  {
    if RateAbove(merged, total, 80) then "Excellent"
    else if RateAbove(merged, total, 60) then "Good"
    else "Needs Improvement"
  }

  /** The engagement assessment on comments per PR: low below 2, good
      below 5, high otherwise. */
  function EngagementTier(s: Summary): (tier: string)
    requires s.totalPRs > 0
    ensures tier == "Low engagement" <==> LowEngagement(s)
    ensures tier == "Good collaboration" <==> 2 * s.totalPRs <= s.totalComments < 5 * s.totalPRs
    ensures tier == "High engagement" <==> s.totalComments >= 5 * s.totalPRs
  {
    if s.totalComments < 2 * s.totalPRs then "Low engagement"
    else if s.totalComments < 5 * s.totalPRs then "Good collaboration"
    else "High engagement"
  }

  /** The engagement tiers are the buckets of the real ratio the report
      compares: below 2, from 2 to below 5, and 5 or more comments per PR. */
  lemma EngagementTierOnRatio(s: Summary)
    requires s.totalPRs > 0
    ensures EngagementTier(s) == "Low engagement" <==> CommentsPerPR(s) < 2.0
    ensures EngagementTier(s) == "Good collaboration" <==> 2.0 <= CommentsPerPR(s) < 5.0
    ensures EngagementTier(s) == "High engagement" <==> CommentsPerPR(s) >= 5.0
  {
    CommentsPerPRExact(s, 2);
    CommentsPerPRExact(s, 5);
  }

  /** The engagement assessment calls engagement low exactly when the
      engagement suggestion is made. */
  lemma LowEngagementAdvised(s: Summary)
    requires s.totalPRs > 0
    ensures EngagementTier(s) == "Low engagement" <==> EngagementAdvice in Suggestions(s)
  {
    SuggestionsFollowRules(s);
  }

  /** The adjective of the executive summary: "efficient" below an average
      of 3 days to merge, "moderate" from 3 days on. */
  function VelocityWord(avg: real): (word: string)
    ensures word == "efficient" <==> avg < 3.0
    ensures word == "moderate" <==> avg >= 3.0
  {
    if avg < 3.0 then "efficient" else "moderate"
  }
}
