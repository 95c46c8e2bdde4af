/** How the final score reacts to the Stage A scores, through the enriched Stage B call. */
module Stability {
  import opened Domain
  import opened Sums
  import opened Pipeline
  import opened Simulated

  /** The same vendors responded, with the same weights and confidences; only scores may differ. */
  ghost predicate SameVendors(a: seq<RiskData>, b: seq<RiskData>) {
    |a| == |b| && forall i :: 0 <= i < |a| ==>
      a[i].source == b[i].source && a[i].confidence == b[i].confidence && a[i].weight == b[i].weight
  }

  /** No score of `b` is more than `d` above its counterpart in `a`. */
  ghost predicate AtMostAbove(a: seq<RiskData>, b: seq<RiskData>, d: real) {
    |a| == |b| && forall i :: 0 <= i < |a| ==> b[i].score <= a[i].score + d
  }

  /** Everything collected: Stage A, and the bureau's answer to Stage A if there is a bureau. */
  function Collected(stageA: seq<RiskData>, bureau: Option<SimConfig>, hash: nat): seq<RiskData> {
    match bureau
    case None => stageA
    case Some(cfg) => stageA + [Answer(cfg, hash, stageA)]
  }

  lemma {:induction false} WeightSumsEqual(a: seq<RiskData>, b: seq<RiskData>)
    requires SameVendors(a, b)
    ensures Sum(Weight, a) == Sum(Weight, b) && Sum(Confidence, a) == Sum(Confidence, b)
  {
    if a == [] {
    } else {
      WeightSumsEqual(a[..|a| - 1], b[..|b| - 1]);
    }
  }

  lemma {:induction false} WeightedSumsClose(a: seq<RiskData>, b: seq<RiskData>, d: real)
    requires SameVendors(a, b) && NonNegativeWeights(a) && AtMostAbove(a, b, d)
    ensures Sum(Weighted, b) <= Sum(Weighted, a) + d * Sum(Weight, a)
  {
    if a == [] {
    } else {
      var n := |a| - 1;
      WeightedSumsClose(a[..n], b[..n], d);
      var w := a[n].weight;
      ScaleLe(b[n].score, a[n].score + d, w);
      Distribute(w, a[n].score, d);
      Distribute(d, Sum(Weight, a[..n]), w);
    }
  }

  lemma {:induction false} ScoreSumsClose(a: seq<RiskData>, b: seq<RiskData>, d: real)
    requires AtMostAbove(a, b, d)
    ensures Sum(Score, b) <= Sum(Score, a) + d * |a| as real
  {
    if a == [] {
    } else {
      var n := |a| - 1;
      ScoreSumsClose(a[..n], b[..n], d);
      assert d * (n as real + 1.0) == d * n as real + d;
    }
  }

  lemma DivideClose(x: real, y: real, d: real, w: real)
    requires w > 0.0 && y <= x + d * w
    ensures y / w <= x / w + d
  {
    assert (y / w) * w == y && (x / w + d) * w == x + d * w;
    CancelWeight(y / w, x / w + d, w);
  }

  /** The dependent vendor moves by at most what the prior signals move. */
  lemma AnswerClose(cfg: SimConfig, hash: nat, a: seq<RiskData>, b: seq<RiskData>, d: real)
    requires AtMostAbove(a, b, d) && d >= 0.0
    ensures Answer(cfg, hash, b).score <= Answer(cfg, hash, a).score + d
  {
    if a != [] {
      ScoreSumsClose(a, b, d);
      DivideClose(Sum(Score, a), Sum(Score, b), d, |a| as real);
    }
  }

  lemma CollectedClose(a: seq<RiskData>, b: seq<RiskData>, bureau: Option<SimConfig>, hash: nat, d: real)
    requires SameVendors(a, b) && AtMostAbove(a, b, d) && d >= 0.0
    ensures SameVendors(Collected(a, bureau, hash), Collected(b, bureau, hash))
    ensures AtMostAbove(Collected(a, bureau, hash), Collected(b, bureau, hash), d)
  {
    if bureau.Some? {
      AnswerClose(bureau.value, hash, a, b, d);
    }
  }

  /** One side of the bound: if no Stage A score rises by more than `d`, neither does the final score. */
  lemma ScoreRisesAtMost(cfg: Config, a: seq<RiskData>, b: seq<RiskData>, bureau: Option<SimConfig>, hash: nat, d: real)
    requires SameVendors(a, b) && AtMostAbove(a, b, d) && d >= 0.0
    requires NonNegativeWeights(a) && (bureau.Some? ==> bureau.value.weight >= 0.0)
    ensures Verdict(cfg, Collected(b, bureau, hash)).score <= Verdict(cfg, Collected(a, bureau, hash)).score + d
  {
    var x, y := Collected(a, bureau, hash), Collected(b, bureau, hash);
    CollectedClose(a, b, bureau, hash, d);
    assert NonNegativeWeights(x);
    WeightSumsEqual(x, y);
    WeightedSumsClose(x, y, d);
    if Sum(Weight, x) > 0.0 {
      DivideClose(Sum(Weighted, x), Sum(Weighted, y), d, Sum(Weight, x));
    }
  }

  /** The bureau is asked with Stage A's reports: raising one of them by `e` moves what the bureau contributes
      by half of `e / n`, if it is not clamped. */
  lemma BureauMoves(cfg: SimConfig, hash: nat, a: seq<RiskData>, b: seq<RiskData>, i: nat, e: real)
    requires i < |a| == |b| && b == a[i := a[i].(score := a[i].score + e)]
    ensures var x, y := Collected(a, Some(cfg), hash), Collected(b, Some(cfg), hash);
            && |x| == |y| == |a| + 1 && x[..|a|] == a && y[..|a|] == b
            && x[|a|].source == y[|a|].source == cfg.name && x[|a|].weight == y[|a|].weight == cfg.weight
            && (Unclamped(x[|a|].score) && Unclamped(y[|a|].score) ==>
                  2.0 * (y[|a|].score - x[|a|].score) == e / |a| as real)
  {
    var x, y := Collected(a, Some(cfg), hash), Collected(b, Some(cfg), hash);
    if Unclamped(x[|a|].score) && Unclamped(y[|a|].score) {
      OnePriorScore(cfg, hash, a, b, i, e);
    }
  }

  /** End-to-end monotonicity: raising Stage A scores never lowers the final score. */
  lemma {:induction false} ScoreIsMonotone(cfg: Config, a: seq<RiskData>, b: seq<RiskData>, bureau: Option<SimConfig>, hash: nat)
    requires SameVendors(a, b) && forall i :: 0 <= i < |a| ==> a[i].score <= b[i].score
    requires NonNegativeWeights(a) && (bureau.Some? ==> bureau.value.weight >= 0.0)
    ensures Verdict(cfg, Collected(a, bureau, hash)).score <= Verdict(cfg, Collected(b, bureau, hash)).score
  {
    assert SameVendors(b, a) && AtMostAbove(b, a, 0.0) && NonNegativeWeights(b);
    ScoreRisesAtMost(cfg, b, a, bureau, hash, 0.0);
  }

  function Abs(x: real): real {
    if x < 0.0 then -x else x
  }

  /** End-to-end stability: changing every Stage A score by at most `d` moves the final score by at most `d`. */
  lemma {:induction false} ScoreIsLipschitz(cfg: Config, a: seq<RiskData>, b: seq<RiskData>, bureau: Option<SimConfig>, hash: nat, d: real)
    requires SameVendors(a, b) && d >= 0.0
    requires forall i :: 0 <= i < |a| ==> Abs(a[i].score - b[i].score) <= d
    requires NonNegativeWeights(a) && (bureau.Some? ==> bureau.value.weight >= 0.0)
    ensures Abs(Verdict(cfg, Collected(a, bureau, hash)).score - Verdict(cfg, Collected(b, bureau, hash)).score) <= d
  {
    assert SameVendors(b, a) && NonNegativeWeights(b);
    forall i | 0 <= i < |a| ensures a[i].score <= b[i].score + d && b[i].score <= a[i].score + d {
      assert Abs(a[i].score - b[i].score) <= d;
    }
    assert AtMostAbove(a, b, d) && AtMostAbove(b, a, d);
    ScoreRisesAtMost(cfg, a, b, bureau, hash, d);
    ScoreRisesAtMost(cfg, b, a, bureau, hash, d);
  }

  /** APPROVE below MANUAL_REVIEW below DECLINE. */
  function Severity(decision: string): int {
    if decision == DECLINE then 2 else if decision == MANUAL_REVIEW then 1 else 0
  }

  lemma ThresholdIsMonotone(cfg: Config, x: real, y: real)
    requires x <= y
    ensures Severity(Threshold(cfg, x)) <= Severity(Threshold(cfg, y))
    ensures Severity(MANUAL_REVIEW) == 1
  {
    DecisionsDiffer();
  }

  lemma SameCoverage(cfg: Config, x: seq<RiskData>, y: seq<RiskData>)
    requires SameVendors(x, y)
    ensures Covered(cfg, x) <==> Covered(cfg, y)
  {
    WeightSumsEqual(x, y);
  }

  lemma CollectedSameVendors(a: seq<RiskData>, b: seq<RiskData>, bureau: Option<SimConfig>, hash: nat)
    requires SameVendors(a, b)
    ensures SameVendors(Collected(a, bureau, hash), Collected(b, bureau, hash))
  {
  }

  lemma VerdictSeverity(cfg: Config, x: seq<RiskData>)
    ensures Severity(Verdict(cfg, x).decision) == if Covered(cfg, x) then Severity(Threshold(cfg, Verdict(cfg, x).score)) else 1
  {
    DecisionsDiffer();
  }

  /** For the same vendors a riskier answer never makes the decision more lenient, whatever the thresholds. */
  lemma {:induction false} DecisionIsMonotone(cfg: Config, a: seq<RiskData>, b: seq<RiskData>, bureau: Option<SimConfig>, hash: nat)
    requires SameVendors(a, b) && forall i :: 0 <= i < |a| ==> a[i].score <= b[i].score
    requires NonNegativeWeights(a) && (bureau.Some? ==> bureau.value.weight >= 0.0)
    ensures Severity(Verdict(cfg, Collected(a, bureau, hash)).decision) <= Severity(Verdict(cfg, Collected(b, bureau, hash)).decision)
  {
    ScoreIsMonotone(cfg, a, b, bureau, hash);
    var x, y := Collected(a, bureau, hash), Collected(b, bureau, hash);
    CollectedSameVendors(a, b, bureau, hash);
    SameCoverage(cfg, x, y);
    VerdictSeverity(cfg, x);
    VerdictSeverity(cfg, y);
    ThresholdIsMonotone(cfg, Verdict(cfg, x).score, Verdict(cfg, y).score);
  }
}
