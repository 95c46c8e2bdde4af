/** From the collected vendor reports to a decision. */
module Pipeline {
  import opened Domain
  import opened Sums

  datatype Config = Config(budget: real, stageABudget: real, approveBelow: real, declineAbove: real,
                           minSignals: int, minConfidence: real, logicVersion: string)

  function WeightedMean(collected: seq<RiskData>): real {
    if Sum(Weight, collected) > 0.0 then Sum(Weighted, collected) / Sum(Weight, collected) else 0.0
  }

  function MeanConfidence(collected: seq<RiskData>): real
    requires collected != []
  {
    Sum(Confidence, collected) / |collected| as real
  }

  /** Enough vendors, confident enough, to decide automatically. */
  predicate Covered(cfg: Config, collected: seq<RiskData>) {
    collected != [] && |collected| >= cfg.minSignals && MeanConfidence(collected) >= cfg.minConfidence
  }

  function Threshold(cfg: Config, score: real): string {
    if score >= cfg.declineAbove then DECLINE
    else if score <= cfg.approveBelow then APPROVE
    else MANUAL_REVIEW
  }

  function Verdict(cfg: Config, collected: seq<RiskData>): ScoreResult {
    ScoreResult(WeightedMean(collected),
                if Covered(cfg, collected) then Threshold(cfg, WeightedMean(collected)) else MANUAL_REVIEW,
                SortStrings(Sources(collected)), cfg.logicVersion)
  }

  lemma PrefixStep(s: seq<RiskData>, i: nat)
    requires i < |s|
    ensures Sum(Weighted, s[..i + 1]) == Sum(Weighted, s[..i]) + s[i].score * s[i].weight
    ensures Sum(Weight, s[..i + 1]) == Sum(Weight, s[..i]) + s[i].weight
    ensures Sum(Confidence, s[..i + 1]) == Sum(Confidence, s[..i]) + s[i].confidence
    ensures Sources(s[..i + 1]) == Sources(s[..i]) + [s[i].source]
  {
    assert s[..i + 1][..i] == s[..i];
  }

  /** The aggregation loop. */
  method Accumulate(collected: seq<RiskData>)
    returns (weightedSum: real, weightTotal: real, confSum: real, signals: seq<string>)
    ensures weightedSum == Sum(Weighted, collected) && weightTotal == Sum(Weight, collected)
    ensures confSum == Sum(Confidence, collected) && signals == Sources(collected)
  {
    weightedSum, weightTotal, confSum, signals := 0.0, 0.0, 0.0, [];
    for i := 0 to |collected|
      invariant weightedSum == Sum(Weighted, collected[..i])
      invariant weightTotal == Sum(Weight, collected[..i])
      invariant confSum == Sum(Confidence, collected[..i])
      invariant signals == Sources(collected[..i])
    {
      var d := collected[i];
      PrefixStep(collected, i);
      weightedSum := weightedSum + d.score * d.weight;
      weightTotal := weightTotal + d.weight;
      confSum := confSum + d.confidence;
      signals := signals + [d.source];
    }
    assert collected[..|collected|] == collected;
  }

  /** The aggregation with its gates and thresholds. */
  method Decide(cfg: Config, collected: seq<RiskData>) returns (res: ScoreResult)
    ensures res == Verdict(cfg, collected)
  {
    res := ScoreResult(0.0, "", [], cfg.logicVersion);
    if |collected| == 0 {
      assert Sources(collected) == [];
      res := res.(decision := MANUAL_REVIEW);
      return;
    }
    var weightedSum, weightTotal, confSum, signals := Accumulate(collected);
    res := res.(signalsUsed := SortStrings(signals));
    if weightTotal > 0.0 {
      res := res.(score := weightedSum / weightTotal);
    }
    var avgConf := confSum / |collected| as real;
    if |collected| < cfg.minSignals || avgConf < cfg.minConfidence {
      res := res.(decision := MANUAL_REVIEW);
      return;
    }
    if res.score >= cfg.declineAbove {
      res := res.(decision := DECLINE);
    } else if res.score <= cfg.approveBelow {
      res := res.(decision := APPROVE);
    } else {
      res := res.(decision := MANUAL_REVIEW);
    }
  }

  /** Schedule independence: the verdict is the same for every order in which the reports arrived. */
  lemma {:induction false} VerdictIndependentOfOrder(cfg: Config, a: seq<RiskData>, b: seq<RiskData>)
    requires multiset(a) == multiset(b)
    ensures Verdict(cfg, a) == Verdict(cfg, b)
  {
    SumPermutation(Weighted, a, b);
    SumPermutation(Weight, a, b);
    SumPermutation(Confidence, a, b);
    assert |multiset(a)| == |a| && |multiset(b)| == |b|;
    SourcesPermutation(a, b);
    SortedUnique(SortStrings(Sources(a)), SortStrings(Sources(b)));
  }

  lemma DecisionsDiffer()
    ensures APPROVE != DECLINE && APPROVE != MANUAL_REVIEW && DECLINE != MANUAL_REVIEW
  {
    assert |APPROVE| == 7 && |MANUAL_REVIEW| == 13 && APPROVE[0] != DECLINE[0];
  }

  lemma MeanAtLeast(x: real, n: real, least: real)
    requires n > 0.0
    ensures x / n >= least <==> x >= least * n
  {
    var mean := x / n;
    assert mean * n == x;
    if x >= least * n {
      CancelWeight(least, mean, n);
    }
    if mean >= least {
      ScaleLe(least, mean, n);
    }
  }

  /** Enough reports, with enough confidence between them. */
  lemma CoveredExactly(cfg: Config, collected: seq<RiskData>)
    ensures Covered(cfg, collected) <==>
              && |collected| > 0 && |collected| >= cfg.minSignals
              && Sum(Confidence, collected) >= cfg.minConfidence * |collected| as real
  {
    if |collected| > 0 {
      MeanAtLeast(Sum(Confidence, collected), |collected| as real, cfg.minConfidence);
    }
  }

  /** No automatic verdict on thin data, exactly: which decision is taken when, on which score, and what else
      the answer carries. */
  lemma DecisionExactly(cfg: Config, collected: seq<RiskData>)
    ensures var res, n := Verdict(cfg, collected), |collected|;
            var enough := n > 0 && n >= cfg.minSignals && Sum(Confidence, collected) >= cfg.minConfidence * n as real;
            && (res.decision == "DECLINE" <==> enough && res.score >= cfg.declineAbove)
            && (res.decision == "APPROVE" <==> enough && res.score < cfg.declineAbove && res.score <= cfg.approveBelow)
            && (res.decision == "MANUAL_REVIEW" <==> !enough || cfg.approveBelow < res.score < cfg.declineAbove)
            && (Sum(Weight, collected) > 0.0 ==> res.score == Sum(Weighted, collected) / Sum(Weight, collected))
            && (Sum(Weight, collected) <= 0.0 ==> res.score == 0.0)
            && |res.signalsUsed| == n && Sorted(res.signalsUsed) && res.logicVersion == cfg.logicVersion
  {
    DecisionsDiffer();
    CoveredExactly(cfg, collected);
    assert |multiset(SortStrings(Sources(collected)))| == |multiset(Sources(collected))|;
  }

  /** The confidence gate on the reports themselves: it opens if each report is confident enough, and stays
      shut if none is. */
  lemma ConfidenceGate(cfg: Config, collected: seq<RiskData>)
    requires |collected| > 0 && |collected| >= cfg.minSignals
    ensures (forall i :: 0 <= i < |collected| ==> collected[i].confidence >= cfg.minConfidence) ==> Covered(cfg, collected)
    ensures (forall i :: 0 <= i < |collected| ==> collected[i].confidence < cfg.minConfidence) ==> !Covered(cfg, collected)
  {
    CoveredExactly(cfg, collected);
    ConfidenceSum(collected, cfg.minConfidence);
  }

  function Constant(c: real): RiskData -> real {
    (d: RiskData) => c
  }

  lemma {:induction false} ConstantSum(s: seq<RiskData>, c: real)
    ensures Sum(Constant(c), s) == c * |s| as real
  {
    if s == [] {
    } else {
      var n := |s| - 1;
      ConstantSum(s[..n], c);
      DistributeOver(c, n as real, 1.0);
    }
  }

  lemma ConfidenceSum(s: seq<RiskData>, least: real)
    ensures (forall i :: 0 <= i < |s| ==> s[i].confidence >= least) ==> Sum(Confidence, s) >= least * |s| as real
    ensures s != [] && (forall i :: 0 <= i < |s| ==> s[i].confidence < least) ==> Sum(Confidence, s) < least * |s| as real
  {
    ConstantSum(s, least);
    if forall i :: 0 <= i < |s| ==> s[i].confidence >= least {
      SumMonotone(Constant(least), Confidence, s);
    }
    if s != [] && forall i :: 0 <= i < |s| ==> s[i].confidence < least {
      SumStrict(Confidence, Constant(least), s);
    }
  }

  ghost predicate NonNegativeWeights(s: seq<RiskData>) {
    forall i :: 0 <= i < |s| ==> s[i].weight >= 0.0
  }

  lemma {:induction false} WeightNonNegative(s: seq<RiskData>)
    requires NonNegativeWeights(s)
    ensures Sum(Weight, s) >= 0.0
  {
    if s == [] {
    } else {
      WeightNonNegative(s[..|s| - 1]);
    }
  }

  lemma ScaleLe(p: real, q: real, w: real)
    requires p <= q && w >= 0.0
    ensures p * w <= q * w
  {
  }

  lemma Distribute(p: real, v: real, w: real)
    ensures p * (v + w) == p * v + p * w
  {
  }

  ghost predicate ScoresWithin(s: seq<RiskData>, lo: real, hi: real) {
    forall i :: 0 <= i < |s| ==> lo <= s[i].score <= hi
  }

  function Scaled(c: real): RiskData -> real {
    (d: RiskData) => c * d.weight
  }

  lemma OneBetween(d: RiskData, lo: real, hi: real)
    requires lo <= d.score <= hi && d.weight >= 0.0
    ensures Sandwiched(Weighted, Weight, Scaled(lo), Scaled(hi), lo, hi, d)
  {
    ScaleLe(lo, d.score, d.weight);
    ScaleLe(d.score, hi, d.weight);
  }

  lemma AllBetween(s: seq<RiskData>, lo: real, hi: real)
    requires NonNegativeWeights(s) && ScoresWithin(s, lo, hi)
    ensures forall i :: 0 <= i < |s| ==> Sandwiched(Weighted, Weight, Scaled(lo), Scaled(hi), lo, hi, s[i])
  {
    forall i | 0 <= i < |s| ensures Sandwiched(Weighted, Weight, Scaled(lo), Scaled(hi), lo, hi, s[i]) {
      OneBetween(s[i], lo, hi);
    }
  }

  lemma WeightedBetween(s: seq<RiskData>, lo: real, hi: real)
    requires NonNegativeWeights(s) && ScoresWithin(s, lo, hi)
    ensures SumsBetween(Weighted, Weight, s, lo, hi)
  {
    AllBetween(s, lo, hi);
    SumBetween(Weighted, Weight, Scaled(lo), Scaled(hi), s, lo, hi);
  }

  lemma CancelWeight(p: real, q: real, w: real)
    requires w > 0.0 && p * w <= q * w
    ensures p <= q
  {
    assert (p - q) * w <= 0.0;
  }

  lemma DivideBetween(x: real, w: real, lo: real, hi: real)
    requires w > 0.0 && lo * w <= x <= hi * w
    ensures lo <= x / w <= hi
  {
    assert (x / w) * w == x;
    CancelWeight(lo, x / w, w);
    CancelWeight(x / w, hi, w);
  }

  /** The score is a convex combination of the collected scores, or zero when the weights vanish. */
  lemma {:induction false} ScoreIsConvex(cfg: Config, s: seq<RiskData>, lo: real, hi: real)
    requires NonNegativeWeights(s) && ScoresWithin(s, lo, hi)
    ensures Sum(Weight, s) > 0.0 ==> lo <= Verdict(cfg, s).score <= hi
    ensures Sum(Weight, s) == 0.0 ==> Verdict(cfg, s).score == 0.0
  {
    MeanIsConvex(s, lo, hi);
  }

  lemma MeanIsConvex(s: seq<RiskData>, lo: real, hi: real)
    requires NonNegativeWeights(s) && ScoresWithin(s, lo, hi)
    ensures Sum(Weight, s) > 0.0 ==> lo <= WeightedMean(s) <= hi
  {
    WeightedBetween(s, lo, hi);
    if Sum(Weight, s) > 0.0 {
      DivideBetween(Sum(Weighted, s), Sum(Weight, s), lo, hi);
    }
  }

  ghost predicate SameWeights(s: seq<RiskData>, t: seq<RiskData>) {
    |s| == |t| && forall i :: 0 <= i < |s| ==> s[i].weight == t[i].weight
  }

  /** Whatever scores in this range the vendors report, the final score stays in it. */
  ghost predicate StaysWithin(cfg: Config, s: seq<RiskData>, lo: real, hi: real) {
    forall t :: SameWeights(s, t) && ScoresWithin(t, lo, hi) ==> lo <= Verdict(cfg, t).score <= hi
  }

  /** All vendors report `lo`, except that the one at position `i` reports `hi`. */
  function Skewed(s: seq<RiskData>, i: nat, lo: real, hi: real): (t: seq<RiskData>)
    ensures |t| == |s|
  {
    seq(|s|, j requires 0 <= j < |s| => s[j].(score := if j == i then hi else lo))
  }

  /** A vendor of negative weight that reports more counts for less. */
  lemma CountsForLess(d: RiskData, lo: real, hi: real)
    requires lo < hi && d.weight < 0.0
    ensures Weighted(d.(score := hi)) < Scaled(lo)(d)
  {
    assert (hi - lo) * d.weight < 0.0;
  }

  lemma CountsTheSame(d: RiskData, lo: real)
    ensures Weighted(d.(score := lo)) == Scaled(lo)(d)
  {
  }

  lemma ScaledSum(s: seq<RiskData>, c: real)
    ensures Sum(Scaled(c), s) == c * Sum(Weight, s)
  {
    SumScaled(Weight, Scaled(c), c, s, s);
  }

  lemma SkewedSum(s: seq<RiskData>, i: nat, lo: real, hi: real)
    requires lo < hi && i < |s| && s[i].weight < 0.0
    ensures Sum(Weighted, Skewed(s, i, lo, hi)) < Sum(Scaled(lo), s)
  {
    var f, g, t := Weighted, Scaled(lo), Skewed(s, i, lo, hi);
    forall j | 0 <= j < |s| && j != i ensures f(t[j]) == g(s[j]) {
      CountsTheSame(s[j], lo);
    }
    CountsForLess(s[i], lo, hi);
    assert t[i] == s[i].(score := hi);
    SumExcept(f, g, s, t, i);
  }

  lemma Below(x: real, total: real, total': real, lo: real, y: real)
    requires total > 0.0 && total' == total && x < y && y == lo * total
    ensures x / total' < lo
  {
    var mean := x / total;
    assert mean * total == x;
    assert (mean - lo) * total < 0.0;
  }

  /** The exact condition: for weights of positive total, the final score stays in every range of reported
      scores if and only if no weight is negative. */
  lemma ConvexExactlyWithoutNegativeWeights(cfg: Config, s: seq<RiskData>, lo: real, hi: real)
    requires lo < hi && Sum(Weight, s) > 0.0
    ensures StaysWithin(cfg, s, lo, hi) <==> NonNegativeWeights(s)
  {
    if NonNegativeWeights(s) {
      forall t | SameWeights(s, t) && ScoresWithin(t, lo, hi) ensures lo <= Verdict(cfg, t).score <= hi {
        SameTotal(s, t);
        assert NonNegativeWeights(t);
        ScoreIsConvex(cfg, t, lo, hi);
      }
    } else {
      var i :| 0 <= i < |s| && s[i].weight < 0.0;
      SkewedEscapes(cfg, s, i, lo, hi);
    }
  }

  lemma SkewedEscapes(cfg: Config, s: seq<RiskData>, i: nat, lo: real, hi: real)
    requires lo < hi && Sum(Weight, s) > 0.0 && i < |s| && s[i].weight < 0.0
    ensures !StaysWithin(cfg, s, lo, hi)
  {
    var t := Skewed(s, i, lo, hi);
    assert SameWeights(s, t) && ScoresWithin(t, lo, hi);
    SkewedMean(s, i, lo, hi);
    assert Verdict(cfg, t).score < lo;
  }

  lemma SkewedBound(s: seq<RiskData>, i: nat, lo: real, hi: real) returns (bound: real)
    requires lo < hi && i < |s| && s[i].weight < 0.0
    ensures bound == lo * Sum(Weight, s) && Sum(Weighted, Skewed(s, i, lo, hi)) < bound
  {
    SkewedSum(s, i, lo, hi);
    ScaledSum(s, lo);
    bound := Sum(Scaled(lo), s);
  }

  lemma SkewedMean(s: seq<RiskData>, i: nat, lo: real, hi: real)
    requires lo < hi && Sum(Weight, s) > 0.0 && i < |s| && s[i].weight < 0.0
    ensures WeightedMean(Skewed(s, i, lo, hi)) < lo
  {
    var t := Skewed(s, i, lo, hi);
    var bound := SkewedBound(s, i, lo, hi);
    SameTotal(s, t);
    MeanBelow(s, t, lo, bound);
  }

  lemma MeanBelow(s: seq<RiskData>, t: seq<RiskData>, lo: real, bound: real)
    requires Sum(Weight, t) == Sum(Weight, s) > 0.0 && bound == lo * Sum(Weight, s) && Sum(Weighted, t) < bound
    ensures WeightedMean(t) < lo
  {
    Below(Sum(Weighted, t), Sum(Weight, s), Sum(Weight, t), lo, bound);
  }

  lemma {:induction false} SameTotal(s: seq<RiskData>, t: seq<RiskData>)
    requires SameWeights(s, t)
    ensures Sum(Weight, s) == Sum(Weight, t)
  {
    if s == [] {
    } else {
      SameTotal(s[..|s| - 1], t[..|t| - 1]);
    }
  }
}
