/** The aggregate scoring of an assessment: the weighted overall score over
    the scored dimensions, the readiness level it falls into, and the
    executive recommendation. */
module Scoring {
  import opened Common
  import opened Assessment
  import opened Analyzers

  /* ------------------------------------------------------------ score table */

  /** The `dimension_scores` dictionary reduced to the stored scores: each
      stored result is assigned under its dimension, a later assignment
      replacing an earlier one. */
  function ScoreTable(scores: seq<DimensionScore>): (m: map<Dimension, real>)
    ensures forall d :: d in m <==> exists k :: 0 <= k < |scores| && scores[k].dimension == d
    ensures forall d :: d in m ==> exists k :: 0 <= k < |scores| && scores[k].dimension == d && m[d] == scores[k].score as real
  {
    if |scores| == 0 then map[]
    else
      var prev := scores[..|scores| - 1];
      var last := scores[|scores| - 1];
      assert forall k :: 0 <= k < |prev| ==> prev[k] == scores[k];
      ScoreTable(prev)[last.dimension := last.score as real]
  }

  /* ---------------------------------------------------------- overall score */

  /** The sum of `score * weight(d)` over the listed dimensions that are scored. */
  function WeightedSum(m: map<Dimension, real>, ds: seq<Dimension>, weight: Dimension -> PositiveReal): real {
    if |ds| == 0 then 0.0
    else
      var d := ds[|ds| - 1];
      WeightedSum(m, ds[..|ds| - 1], weight) + (if d in m then m[d] * weight(d) else 0.0)
  }

  /** The sum of the positive weights of the listed dimensions that are
      scored; it is zero exactly when none of them is scored. */
  function TotalWeight(m: map<Dimension, real>, ds: seq<Dimension>, weight: Dimension -> PositiveReal): (w: real)
    ensures w >= 0.0
    ensures w == 0.0 <==> forall k :: 0 <= k < |ds| ==> ds[k] !in m
  {
    if |ds| == 0 then 0.0
    else
      var d := ds[|ds| - 1];
      var prev := ds[..|ds| - 1];
      assert forall k :: 0 <= k < |prev| ==> prev[k] == ds[k];
      TotalWeight(m, prev, weight) + (if d in m then weight(d) else 0.0)
  }

  /** `_calculate_overall_score`: the weighted mean of the stored scores over
      the weight table, 0 when nothing was scored. */
  function OverallScore(m: map<Dimension, real>): (r: real)
    ensures m == map[] ==> r == 0.0
  {
    var w := TotalWeight(m, AllDimensions, Weight);
    if w == 0.0 then 0.0 else WeightedSum(m, AllDimensions, Weight) / w
  }

  lemma ScaleMonotone(x: real, y: real, w: real)
    requires x <= y && w >= 0.0
    ensures x * w <= y * w
  {
    assert (y - x) * w >= 0.0;
  }

  /** The total weight of the scored dimensions, each weight scaled by `c`. */
  function ScaledWeight(m: map<Dimension, real>, ds: seq<Dimension>, weight: Dimension -> PositiveReal, c: real): real {
    if |ds| == 0 then 0.0
    else
      var d := ds[|ds| - 1];
      ScaledWeight(m, ds[..|ds| - 1], weight, c) + (if d in m then c * weight(d) else 0.0)
  }

  lemma Distribute(c: real, t: real, w: real, t': real)
    requires t' == t + w
    ensures c * t' == c * t + c * w
  {
  }

  lemma {:induction false} ScaledWeightIs(m: map<Dimension, real>, ds: seq<Dimension>, weight: Dimension -> PositiveReal, c: real)
    ensures ScaledWeight(m, ds, weight, c) == c * TotalWeight(m, ds, weight)
  {
    if |ds| > 0 {
      var d := ds[|ds| - 1];
      var prev := ds[..|ds| - 1];
      ScaledWeightIs(m, prev, weight, c);
      if d in m {
        Distribute(c, TotalWeight(m, prev, weight), weight(d), TotalWeight(m, ds, weight));
      }
    }
  }

  /** The weighted sum is at least the smallest possible score times the
      total weight ... */
  lemma {:induction false} WeightedSumAbove(m: map<Dimension, real>, ds: seq<Dimension>, weight: Dimension -> PositiveReal,
                                            lo: real)
    requires forall d :: d in m ==> lo <= m[d]
    ensures ScaledWeight(m, ds, weight, lo) <= WeightedSum(m, ds, weight)
  {
    if |ds| > 0 {
      var d := ds[|ds| - 1];
      WeightedSumAbove(m, ds[..|ds| - 1], weight, lo);
      if d in m {
        ScaleMonotone(lo, m[d], weight(d));
      }
    }
  }

  /** ... and at most the largest possible score times the total weight. */
  lemma {:induction false} WeightedSumBelow(m: map<Dimension, real>, ds: seq<Dimension>, weight: Dimension -> PositiveReal,
                                            hi: real)
    requires forall d :: d in m ==> m[d] <= hi
    ensures WeightedSum(m, ds, weight) <= ScaledWeight(m, ds, weight, hi)
  {
    if |ds| > 0 {
      var d := ds[|ds| - 1];
      WeightedSumBelow(m, ds[..|ds| - 1], weight, hi);
      if d in m {
        ScaleMonotone(m[d], hi, weight(d));
      }
    }
  }

  /** Dividing out a positive factor keeps an inequality. */
  lemma Unscale(x: real, y: real, w: real)
    requires w > 0.0 && x * w <= y * w
    ensures x <= y
  {
    assert (y - x) * w >= 0.0;
  }

  /** A quotient `s / w` with `lo * w <= s` is at least `lo`. */
  lemma QuotientAbove(s: real, w: real, lo: real)
    requires w > 0.0 && lo * w <= s
    ensures lo <= s / w
  {
    var q := s / w;
    assert q * w == s;
    Unscale(lo, q, w);
  }

  /** A quotient `s / w` with `s <= hi * w` is at most `hi`. */
  lemma QuotientBelow(s: real, w: real, hi: real)
    requires w > 0.0 && s <= hi * w
    ensures s / w <= hi
  {
    var q := s / w;
    assert q * w == s;
    Unscale(q, hi, w);
  }

  /** With something scored, the overall score is the weighted sum over the
      positive total weight. */
  lemma OverallScoreIsMean(m: map<Dimension, real>)
    requires m != map[]
    ensures TotalWeight(m, AllDimensions, Weight) > 0.0
    ensures OverallScore(m) == WeightedSum(m, AllDimensions, Weight) / TotalWeight(m, AllDimensions, Weight)
  {
    var d :| d in m;
    var i := DimensionIndex(d);
    assert AllDimensions[i] in m;
  }

  /** The overall score is at least the smallest stored score ... */
  lemma OverallScoreAbove(m: map<Dimension, real>, lo: real)
    requires m != map[]
    requires forall d :: d in m ==> lo <= m[d]
    ensures lo <= OverallScore(m)
  {
    OverallScoreIsMean(m);
    WeightedSumAbove(m, AllDimensions, Weight, lo);
    ScaledWeightIs(m, AllDimensions, Weight, lo);
    QuotientAbove(WeightedSum(m, AllDimensions, Weight), TotalWeight(m, AllDimensions, Weight), lo);
  }

  /** ... and at most the largest. */
  lemma OverallScoreBelow(m: map<Dimension, real>, hi: real)
    requires m != map[]
    requires forall d :: d in m ==> m[d] <= hi
    ensures OverallScore(m) <= hi
  {
    OverallScoreIsMean(m);
    WeightedSumBelow(m, AllDimensions, Weight, hi);
    ScaledWeightIs(m, AllDimensions, Weight, hi);
    QuotientBelow(WeightedSum(m, AllDimensions, Weight), TotalWeight(m, AllDimensions, Weight), hi);
  }

  /** The overall score lies between the smallest and the largest stored
      score. */
  lemma OverallScoreBounds(m: map<Dimension, real>, lo: real, hi: real)
    requires m != map[]
    requires forall d :: d in m ==> lo <= m[d] <= hi
    ensures lo <= OverallScore(m) <= hi
  {
    OverallScoreAbove(m, lo);
    OverallScoreBelow(m, hi);
  }

  /** When every stored score is the same, the overall score is that score. */
  lemma OverallScoreUniform(m: map<Dimension, real>, c: real)
    requires m != map[]
    requires forall d :: d in m ==> m[d] == c
    ensures OverallScore(m) == c
  {
    OverallScoreBounds(m, c, c);
  }

  /* -------------------------------------------------------- readiness level */

  datatype Readiness =
    | ProductionReady | NearlyReady | SignificantWorkNeeded | NotReady | SubstantialRebuildRequired

  /** The label the report shows. */
  function ReadinessText(r: Readiness): string {
    match r
    case ProductionReady => "Production Ready"
    case NearlyReady => "Nearly Ready"
    case SignificantWorkNeeded => "Significant Work Needed"
    case NotReady => "Not Ready"
    case SubstantialRebuildRequired => "Substantial Rebuild Required"
  }

  /** The levels from worst (0) to best (4). */
  function Rank(r: Readiness): nat {
    match r
    case SubstantialRebuildRequired => 0
    case NotReady => 1
    case SignificantWorkNeeded => 2
    case NearlyReady => 3
    case ProductionReady => 4
  }

  /** The readiness thresholds, ascending. */
  const Thresholds: seq<real> := [25.0, 50.0, 75.0, 90.0]

  /** How many of the thresholds `score` reaches. */
  function ThresholdsMet(score: real, ts: seq<real>): (n: nat)
    ensures n <= |ts|
  {
    if |ts| == 0 then 0 else (if score >= ts[0] then 1 else 0) + ThresholdsMet(score, ts[1..])
  }

  /** A higher score reaches at least as many thresholds. */
  lemma {:induction false} ThresholdsMetMonotone(a: real, b: real, ts: seq<real>)
    requires a <= b
    ensures ThresholdsMet(a, ts) <= ThresholdsMet(b, ts)
  {
    if |ts| > 0 {
      ThresholdsMetMonotone(a, b, ts[1..]);
    }
  }

  lemma ThresholdsMetValue(score: real)
    ensures ThresholdsMet(score, Thresholds) ==
            (if score >= 25.0 then 1 else 0) + (if score >= 50.0 then 1 else 0)
            + (if score >= 75.0 then 1 else 0) + (if score >= 90.0 then 1 else 0)
  {
    var t := Thresholds;
    assert t[1..] == [50.0, 75.0, 90.0];
    assert t[1..][1..] == [75.0, 90.0];
    assert t[1..][1..][1..] == [90.0];
    assert t[1..][1..][1..][1..] == [];
    assert ThresholdsMet(score, [90.0]) == (if score >= 90.0 then 1 else 0);
    assert ThresholdsMet(score, [75.0, 90.0]) == (if score >= 75.0 then 1 else 0) + ThresholdsMet(score, [90.0]);
    assert ThresholdsMet(score, [50.0, 75.0, 90.0]) == (if score >= 50.0 then 1 else 0) + ThresholdsMet(score, [75.0, 90.0]);
  }

  /** The readiness level of `_generate_report`: its rank is the number of
      thresholds 25, 50, 75, 90 the score reaches. */
  function ReadinessOf(score: real): (r: Readiness)
    ensures Rank(r) == ThresholdsMet(score, Thresholds)
  {
    ThresholdsMetValue(score);
    if score >= 90.0 then ProductionReady
    else if score >= 75.0 then NearlyReady
    else if score >= 50.0 then SignificantWorkNeeded
    else if score >= 25.0 then NotReady
    else SubstantialRebuildRequired
  }

  /** The readiness level never drops as the score rises, and the labels tell
      the levels apart. */
  lemma ReadinessMonotone(a: real, b: real)
    requires a <= b
    ensures Rank(ReadinessOf(a)) <= Rank(ReadinessOf(b))
  {
    ThresholdsMetMonotone(a, b, Thresholds);
  }

  lemma ReadinessTextsDistinct(r1: Readiness, r2: Readiness)
    ensures ReadinessText(r1) == ReadinessText(r2) ==> r1 == r2
  {
    var t1, t2 := ReadinessText(r1), ReadinessText(r2);
    if t1 == t2 {
      assert t1[0] == t2[0] && |t1| == |t2|;
    }
  }

  /* --------------------------------------------------- executive summary */

  const ProductionReadyAdvice := "System is production-ready. Minor improvements recommended for optimization."
  const SignificantWorkAdvice := "Significant work required. Focus on security and reliability first. Target timeline: 1 month."
  const MajorRemediationAdvice := "Major remediation required. Consider phased approach with security as priority."

  /** The advice for a nearly-ready system, naming the critical count. */
  function CriticalAdvice(critical: nat): string {
    "Address " + NatToString(critical) + " critical issues before production deployment. Target timeline: 1-2 weeks."
  }

  /** `_generate_executive_recommendation`. */
  function ExecutiveRecommendation(score: real, critical: nat): (r: string)
    ensures r == MajorRemediationAdvice <==> score < 50.0
    ensures r == ProductionReadyAdvice <==> score >= 90.0
  {
    if score >= 90.0 then ProductionReadyAdvice
    else if score >= 75.0 then
      var c := CriticalAdvice(critical);
      assert c[0] == 'A';
      c
    else if score >= 50.0 then SignificantWorkAdvice
    else MajorRemediationAdvice
  }

  /** The recommendation follows the readiness level: production-ready advice
      for the top level, the critical count for the next, the focus advice for
      the middle one, and major remediation for the two lowest. */
  lemma RecommendationFollowsReadiness(score: real, critical: nat)
    ensures var r := ExecutiveRecommendation(score, critical);
            var lvl := ReadinessOf(score);
            && (r == ProductionReadyAdvice <==> lvl == ProductionReady)
            && (lvl == NearlyReady ==> r == CriticalAdvice(critical))
            && (lvl == SignificantWorkNeeded ==> r == SignificantWorkAdvice)
            && (r == MajorRemediationAdvice <==> Rank(lvl) <= 1)
  {
    var lvl := ReadinessOf(score);
    if score >= 90.0 {
      assert lvl == ProductionReady;
    } else if score >= 75.0 {
      assert lvl == NearlyReady;
    } else if score >= 50.0 {
      assert lvl == SignificantWorkNeeded;
    } else {
      assert Rank(lvl) <= 1;
    }
  }
}
