/** The simulated vendor: an applicant-dependent score, blended with prior signals when it has any. */
module Simulated {
  import opened Domain
  import opened Sums

  datatype SimConfig = SimConfig(name: string, latency: real, fails: bool, weight: real, confidence: real, baseScore: real)

  function Clamp(v: real, lo: real, hi: real): real {
    if v < lo then lo else if v > hi then hi else v
  }

  /** The nudge from the hash of the applicant id, which is a parameter here. */
  function Delta(hash: nat): real {
    (hash % 2001) as real / 100.0 - 10.0
  }

  function DerivedScore(baseScore: real, hash: nat, prior: seq<RiskData>): real {
    var own := baseScore + Delta(hash);
    Clamp(if prior == [] then own else 0.5 * own + 0.5 * (Sum(Score, prior) / |prior| as real), 0.0, 100.0)
  }

  method DeriveScore(baseScore: real, hash: nat, prior: seq<RiskData>) returns (score: real)
    ensures score == DerivedScore(baseScore, hash, prior)
    ensures 0.0 <= score <= 100.0
  {
    score := baseScore + Delta(hash);
    if |prior| > 0 {
      var sum := 0.0;
      for i := 0 to |prior|
        invariant sum == Sum(Score, prior[..i])
      {
        assert prior[..i + 1][..i] == prior[..i];
        sum := sum + prior[i].score;
      }
      assert prior[..|prior|] == prior;
      var priorMean := sum / |prior| as real;
      score := 0.5 * score + 0.5 * priorMean;
    }
    score := Clamp(score, 0.0, 100.0);
  }

  /** What the vendor answers when it answers in time. */
  function Answer(cfg: SimConfig, hash: nat, prior: seq<RiskData>): RiskData {
    RiskData(cfg.name, DerivedScore(cfg.baseScore, hash, prior), cfg.confidence, cfg.weight)
  }

  /** The order in which the prior signals arrived does not matter to the dependent vendor. */
  lemma AnswerIndependentOfOrder(cfg: SimConfig, hash: nat, a: seq<RiskData>, b: seq<RiskData>)
    requires multiset(a) == multiset(b)
    ensures Answer(cfg, hash, a) == Answer(cfg, hash, b)
  {
    SumPermutation(Score, a, b);
    assert |multiset(a)| == |a| && |multiset(b)| == |b|;
  }

  /** The nudge lies between -10 and 10, reaches both, and steps by a hundredth. */
  lemma NudgeExactly(hash: nat)
    ensures -10.0 <= Delta(hash) <= 10.0 && Delta(0) == -10.0 && Delta(2000) == 10.0
    ensures hash < 2000 ==> Delta(hash + 1) == Delta(hash) + 0.01
    ensures Delta(hash + 2001) == Delta(hash)
  {
    assert (hash + 2001) % 2001 == hash % 2001;
  }

  predicate Unclamped(score: real) {
    0.0 < score < 100.0
  }

  /** Without prior signals an unclamped answer is the base score and the nudge; with them each half counts
      half. */
  lemma AnswerExactly(cfg: SimConfig, hash: nat, prior: seq<RiskData>)
    ensures var d := Answer(cfg, hash, prior);
            && d.source == cfg.name && d.weight == cfg.weight && d.confidence == cfg.confidence && 0.0 <= d.score <= 100.0
            && (Unclamped(d.score) && prior == [] ==> d.score == cfg.baseScore + Delta(hash))
            && (Unclamped(d.score) && prior != [] ==>
                  2.0 * d.score == cfg.baseScore + Delta(hash) + Sum(Score, prior) / |prior| as real)
  {
  }

  /** The exact weight of one prior signal: raising one of `n` Stage A scores by `e` raises an unclamped answer
      by half of `e / n`. */
  lemma OnePriorScore(cfg: SimConfig, hash: nat, a: seq<RiskData>, b: seq<RiskData>, i: nat, e: real)
    requires i < |a| == |b| && forall j :: 0 <= j < |a| && j != i ==> b[j].score == a[j].score
    requires b[i].score == a[i].score + e
    requires Unclamped(Answer(cfg, hash, a).score) && Unclamped(Answer(cfg, hash, b).score)
    ensures 2.0 * (Answer(cfg, hash, b).score - Answer(cfg, hash, a).score) == e / |a| as real
  {
    AnswerExactly(cfg, hash, a);
    AnswerExactly(cfg, hash, b);
    SumExcept(Score, Score, a, b, i);
    QuotientDifference(Sum(Score, a), Sum(Score, b), e, |a| as real);
  }

  lemma QuotientDifference(x: real, y: real, e: real, n: real)
    requires n > 0.0 && y == x + e
    ensures y / n - x / n == e / n
  {
  }
}
