/** What a message went through before it was moved to the dead-letter queue. */
module Redrive {
  import opened Domain
  import opened Audit
  import opened Consumer
  import opened Delivery

  /** How often message `m` became visible again without having been deleted. */
  function Expiries(acts: seq<Action>, m: nat): nat {
    if acts == [] then 0 else (if acts[0] == Expire(m) then 1 else 0) + Expiries(acts[1..], m)
  }

  /** The expiries that message `m` must still go through before it can be dead-lettered. */
  function ExpiriesToGo(s: State, m: nat): int
    requires m < |s.received|
  {
    if m in s.visible then MAX_RECEIVE - s.received[m]
    else if m in s.hidden then MAX_RECEIVE - s.received[m] + 1
    else 0
  }

  lemma ExpiriesStep(s: State, a: Action, m: nat)
    requires Conserved(s) && Enabled(s, a) && m < |s.received|
    ensures |Apply(s, a).received| == |s.received|
    ensures m !in Apply(s, a).deleted ==>
              ExpiriesToGo(s, m) <= ExpiriesToGo(Apply(s, a), m) + if a == Expire(m) then 1 else 0
  {
    if a.Receive? {
      assert m in a.ids <==> m in SetOf(a.ids);
    }
  }

  lemma {:induction false} DeadLetteredAfterExpiries(s: State, acts: seq<Action>, m: nat)
    requires Conserved(s) && ValidRun(s, acts)
    ensures m in Run(s, acts).dlq ==> m < |s.received| && Expiries(acts, m) >= ExpiriesToGo(s, m)
    decreases |acts|
  {
    ConservedRun(s, acts);
    if acts == [] {
    } else {
      ConservedStep(s, acts[0]);
      ConservedRun(Apply(s, acts[0]), acts[1..]);
      if m < |s.received| {
        ExpiriesStep(s, acts[0], m);
      }
      DeadLetteredAfterExpiries(Apply(s, acts[0]), acts[1..], m);
    }
  }

  /** Five failed deliveries: in every run that dead-letters a message it became visible again, undeleted, at
      least once for each of its five receives. */
  lemma DeadLetteredAfterFiveExpiries(pub: seq<Option<ScoringEvent>>, workers: nat, acts: seq<Action>, m: nat)
    requires ValidRun(Init(pub, workers), acts)
    ensures m in Run(Init(pub, workers), acts).dlq ==> m < |pub| && Expiries(acts, m) >= 5
  {
    ConservedInit(pub, workers);
    ConservedRun(Init(pub, workers), acts);
    assert m in Run(Init(pub, workers), acts).dlq ==> m in IDs(|pub|);
    DeadLetteredAfterExpiries(Init(pub, workers), acts, m);
  }
}
