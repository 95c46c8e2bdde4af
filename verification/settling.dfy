/** Every run settles: a bound on its length, and what a state looks like in which nothing can happen. */
module Settling {
  import opened Domain
  import opened Audit
  import opened Consumer
  import opened Delivery

  // ---- The measure ---------------------------------------------------------------------

  /** The steps that one delivery of this body takes at most. */
  function BodyWork(body: Option<ScoringEvent>): nat {
    match body
    case None => 1
    case Some(ev) => |ev.providerResponses| + 3
  }

  function MaxBodyWork(pub: seq<Option<ScoringEvent>>): nat {
    if pub == [] then 0
    else
      var rest := MaxBodyWork(pub[..|pub| - 1]);
      if BodyWork(pub[|pub| - 1]) > rest then BodyWork(pub[|pub| - 1]) else rest
  }

  lemma {:induction false} MaxBodyWorkIsMax(pub: seq<Option<ScoringEvent>>, m: nat)
    requires m < |pub|
    ensures BodyWork(pub[m]) <= MaxBodyWork(pub)
  {
    if m < |pub| - 1 {
      MaxBodyWorkIsMax(pub[..|pub| - 1], m);
    }
  }

  /** What one receive of one message can cost: its delivery, its expiry, and a share of the batch. */
  function Weight(pub: seq<Option<ScoringEvent>>): nat {
    MaxBodyWork(pub) + 3
  }

  /** The work of the messages of a batch from position `i` on. */
  function BatchWork(pub: seq<Option<ScoringEvent>>, batch: seq<nat>, i: nat): nat
    requires i <= |batch|
    decreases |batch| - i
  {
    if i == |batch| then 0
    else (if batch[i] < |pub| then BodyWork(pub[batch[i]]) else 0) + BatchWork(pub, batch, i + 1)
  }

  function CurrentWork(pub: seq<Option<ScoringEvent>>, m: nat, pc: PC): nat {
    if m < |pub| then
      match pub[m]
      case None => 1
      case Some(ev) => if ValidPC(ev, pc) then CallsLeft(ev, pc) else 0
    else 0
  }

  /** The steps a worker still takes before it is idle again. */
  function WorkerWork(pub: seq<Option<ScoringEvent>>, k: Worker): nat {
    match k
    case Idle => 0
    case Busy(batch, pos, pc, _) =>
      if pos < |batch| then CurrentWork(pub, batch[pos], pc) + BatchWork(pub, batch, pos + 1) + 1
      else 1
  }

  function TotalWork(pub: seq<Option<ScoringEvent>>, workers: seq<Worker>): nat {
    if workers == [] then 0
    else TotalWork(pub, workers[..|workers| - 1]) + WorkerWork(pub, workers[|workers| - 1])
  }

  /** The receives (and the final move to the dead-letter queue) that message `m` can still have. */
  function Chances(s: State, m: nat): nat
    requires m < |s.received|
  {
    if m in s.visible + s.hidden && s.received[m] <= MAX_RECEIVE then MAX_RECEIVE + 1 - s.received[m] else 0
  }

  function TotalChances(s: State, n: nat): nat
    requires n <= |s.received|
  {
    if n == 0 then 0 else TotalChances(s, n - 1) + Chances(s, n - 1)
  }

  function Measure(s: State): nat {
    TotalChances(s, |s.received|) * Weight(s.pub) + TotalWork(s.pub, s.workers) + |s.hidden|
  }

  // ---- Sums ----------------------------------------------------------------------------

  lemma {:induction false} TotalWorkUpdate(pub: seq<Option<ScoringEvent>>, workers: seq<Worker>, w: nat, k: Worker)
    requires w < |workers|
    ensures TotalWork(pub, workers[w := k]) == TotalWork(pub, workers) - WorkerWork(pub, workers[w]) + WorkerWork(pub, k)
  {
    var n := |workers| - 1;
    if w < n {
      assert workers[w := k][..n] == workers[..n][w := k];
      TotalWorkUpdate(pub, workers[..n], w, k);
    } else {
      assert workers[w := k][..n] == workers[..n];
    }
  }

  lemma {:induction false} ChancesShrink(s: State, s': State, n: nat)
    requires n <= |s.received| == |s'.received|
    requires forall m :: 0 <= m < n ==> Chances(s', m) <= Chances(s, m)
    ensures TotalChances(s', n) <= TotalChances(s, n)
  {
    if n == 0 {
    } else {
      ChancesShrink(s, s', n - 1);
    }
  }

  /** Every message of `ids` loses a chance. */
  lemma {:induction false} ChancesSpent(s: State, s': State, n: nat, ids: set<nat>)
    requires n <= |s.received| == |s'.received|
    requires forall m :: m in ids ==> m < n
    requires forall m :: 0 <= m < n ==> Chances(s', m) + (if m in ids then 1 else 0) <= Chances(s, m)
    ensures TotalChances(s', n) + |ids| <= TotalChances(s, n)
  {
    if n == 0 {
      assert ids == {};
    } else if n - 1 in ids {
      ChancesSpent(s, s', n - 1, ids - {n - 1});
    } else {
      ChancesSpent(s, s', n - 1, ids);
    }
  }

  lemma {:induction false} BatchWorkBound(pub: seq<Option<ScoringEvent>>, batch: seq<nat>, i: nat)
    requires i <= |batch|
    ensures BatchWork(pub, batch, i) <= (|batch| - i) * MaxBodyWork(pub)
    decreases |batch| - i
  {
    if i == |batch| {
    } else {
      BatchWorkBound(pub, batch, i + 1);
      if batch[i] < |pub| {
        MaxBodyWorkIsMax(pub, batch[i]);
      }
      assert (|batch| - i) * MaxBodyWork(pub) == MaxBodyWork(pub) + (|batch| - i - 1) * MaxBodyWork(pub);
    }
  }

  lemma {:induction false} DistinctSize(ids: seq<nat>)
    requires Distinct(ids)
    ensures |SetOf(ids)| == |ids|
  {
    if ids == [] {
    } else {
      var n := |ids| - 1;
      DistinctSize(ids[..n]);
      assert SetOf(ids) == SetOf(ids[..n]) + {ids[n]};
      assert ids[n] !in SetOf(ids[..n]);
    }
  }

  // ---- Every action decreases the measure ----------------------------------------------

  /** `n` chances pay for less than `n * c` of new work. */
  lemma Payment(x: nat, y: nat, n: nat, c: nat, before: nat, after: nat)
    requires y + n <= x && after < before + n * c
    ensures y * c + after < x * c + before
  {
    assert (y + n) * c <= x * c;
    assert (y + n) * c == y * c + n * c;
  }

  /** The effect of a step on the measure, from its effect on the three parts. */
  lemma MeasurePaid(s: State, s': State, n: nat)
    requires s'.pub == s.pub && TotalChances(s', |s'.received|) + n <= TotalChances(s, |s.received|)
    requires TotalWork(s'.pub, s'.workers) + |s'.hidden| < TotalWork(s.pub, s.workers) + |s.hidden| + n * Weight(s.pub)
    ensures Measure(s') < Measure(s)
  {
    Payment(TotalChances(s, |s.received|), TotalChances(s', |s'.received|), n, Weight(s.pub),
            TotalWork(s.pub, s.workers) + |s.hidden|, TotalWork(s'.pub, s'.workers) + |s'.hidden|);
  }

  lemma ShareOfWeight(n: nat, work: nat)
    ensures n * (work + 3) == n * work + 3 * n
  {
  }

  /** A batch just received brings less work than its messages pay for. */
  lemma NewBatchWork(s: State, w: nat, ids: seq<nat>)
    requires Conserved(s) && Enabled(s, Receive(w, ids))
    ensures WorkerWork(s.pub, Busy(ids, 0, AtDecision, {})) + |ids| < |ids| * Weight(s.pub)
  {
    BatchWorkBound(s.pub, ids, 0);
    assert ids[0] in IDs(|s.pub|);
    assert WorkerWork(s.pub, Busy(ids, 0, AtDecision, {})) == BatchWork(s.pub, ids, 0) + 1;
    ShareOfWeight(|ids|, MaxBodyWork(s.pub));
  }

  lemma UnionSize<T>(a: set<T>, b: set<T>)
    ensures |a + b| <= |a| + |b|
  {
    assert a + b == a + (b - a);
    assert |b - a| <= |b| by {
      assert b == (b - a) + (b * a);
    }
  }

  lemma ReceiveChance(s: State, w: nat, ids: seq<nat>, m: nat)
    requires Conserved(s) && Enabled(s, Receive(w, ids)) && m < |s.received|
    ensures Chances(Apply(s, Receive(w, ids)), m) + (if m in SetOf(ids) then 1 else 0) <= Chances(s, m)
  {
    assert m in ids <==> m in SetOf(ids);
  }

  lemma ReceiveSpends(s: State, w: nat, ids: seq<nat>)
    requires Conserved(s) && Enabled(s, Receive(w, ids))
    ensures var s' := Apply(s, Receive(w, ids));
            && TotalChances(s', |s'.received|) + |ids| <= TotalChances(s, |s.received|)
            && |s'.hidden| <= |s.hidden| + |ids|
  {
    DistinctSize(ids);
    UnionSize(s.hidden, SetOf(ids));
    forall m | 0 <= m < |s.received| {
      ReceiveChance(s, w, ids, m);
    }
    ChancesSpent(s, Apply(s, Receive(w, ids)), |s.received|, SetOf(ids));
  }

  lemma ReceiveDecreases(s: State, w: nat, ids: seq<nat>)
    requires Conserved(s) && Enabled(s, Receive(w, ids))
    ensures Measure(Apply(s, Receive(w, ids))) < Measure(s)
  {
    var s' := Apply(s, Receive(w, ids));
    ReceiveSpends(s, w, ids);
    NewBatchWork(s, w, ids);
    TotalWorkUpdate(s.pub, s.workers, w, s'.workers[w]);
    MeasurePaid(s, s', |ids|);
  }

  lemma StepWork(s: State, w: nat, f: Fault)
    requires Conserved(s) && Processing(s, w)
    ensures WorkerWork(s.pub, ApplyStep(s, w, f).workers[w]) < WorkerWork(s.pub, s.workers[w])
  {
    assert WorkerOk(s.pub, s.received, s.workers[w]);
  }

  /** A worker comes closer to being idle and nothing returns to the queue. */
  lemma LessWork(s: State, s': State, w: nat)
    requires w < |s.workers| && |s'.workers| == |s.workers| && s'.workers == s.workers[w := s'.workers[w]]
    requires s'.pub == s.pub && s'.received == s.received
    requires s'.visible + s'.hidden <= s.visible + s.hidden && |s'.hidden| <= |s.hidden|
    requires WorkerWork(s.pub, s'.workers[w]) < WorkerWork(s.pub, s.workers[w])
    ensures Measure(s') < Measure(s)
  {
    TotalWorkUpdate(s.pub, s.workers, w, s'.workers[w]);
    assert forall m :: 0 <= m < |s.received| ==> Chances(s', m) <= Chances(s, m);
    ChancesShrink(s, s', |s.received|);
    MeasurePaid(s, s', 0);
  }

  lemma StepDecreases(s: State, w: nat, f: Fault)
    requires Conserved(s) && Processing(s, w)
    ensures Measure(ApplyStep(s, w, f)) < Measure(s)
  {
    StepWork(s, w, f);
    LessWork(s, ApplyStep(s, w, f), w);
  }

  lemma ExpireChance(s: State, m: nat, k: nat)
    requires Conserved(s) && Enabled(s, Expire(m)) && k < |s.received|
    ensures Chances(Apply(s, Expire(m)), k) <= Chances(s, k)
  {
  }

  lemma ExpireSpends(s: State, m: nat)
    requires Conserved(s) && Enabled(s, Expire(m))
    ensures TotalChances(Apply(s, Expire(m)), |s.received|) <= TotalChances(s, |s.received|)
  {
    forall k | 0 <= k < |s.received| ensures Chances(Apply(s, Expire(m)), k) <= Chances(s, k) {
      ExpireChance(s, m, k);
    }
    ChancesShrink(s, Apply(s, Expire(m)), |s.received|);
  }

  lemma ExpireDecreases(s: State, m: nat)
    requires Conserved(s) && Enabled(s, Expire(m))
    ensures Measure(Apply(s, Expire(m))) < Measure(s)
  {
    ExpireSpends(s, m);
    MeasurePaid(s, Apply(s, Expire(m)), 0);
  }

  lemma RedriveChance(s: State, m: nat, k: nat)
    requires Conserved(s) && Enabled(s, Redrive(m)) && k < |s.received|
    ensures Chances(Apply(s, Redrive(m)), k) + (if k in {m} then 1 else 0) <= Chances(s, k)
  {
  }

  lemma RedriveSpends(s: State, m: nat)
    requires Conserved(s) && Enabled(s, Redrive(m))
    ensures TotalChances(Apply(s, Redrive(m)), |s.received|) + 1 <= TotalChances(s, |s.received|)
  {
    forall k | 0 <= k < |s.received| ensures Chances(Apply(s, Redrive(m)), k) + (if k in {m} then 1 else 0) <= Chances(s, k) {
      RedriveChance(s, m, k);
    }
    ChancesSpent(s, Apply(s, Redrive(m)), |s.received|, {m});
  }

  lemma RedriveDecreases(s: State, m: nat)
    requires Conserved(s) && Enabled(s, Redrive(m))
    ensures Measure(Apply(s, Redrive(m))) < Measure(s)
  {
    RedriveSpends(s, m);
    MeasurePaid(s, Apply(s, Redrive(m)), 1);
  }

  lemma LeaveDecreases(s: State, a: Action)
    requires Conserved(s) && Enabled(s, a) && (a.DeleteBatch? || a.Crash?)
    ensures Measure(Apply(s, a)) < Measure(s)
  {
    assert WorkerWork(s.pub, s.workers[a.w]) > 0;
    if a.DeleteBatch? {
      assert s.hidden == (s.hidden - a.gone) + (a.gone * s.hidden);
      assert |s.hidden| == |s.hidden - a.gone| + |a.gone * s.hidden|;
    }
    LessWork(s, Apply(s, a), a.w);
  }

  lemma {:induction false} EveryActionDecreases(s: State, a: Action)
    requires Conserved(s) && Enabled(s, a)
    ensures Measure(Apply(s, a)) < Measure(s)
  {
    match a {
      case Receive(w, ids) => ReceiveDecreases(s, w, ids);
      case Step(w, f) => StepDecreases(s, w, f);
      case DeleteBatch(_, _) => LeaveDecreases(s, a);
      case Crash(_) => LeaveDecreases(s, a);
      case Expire(m) => ExpireDecreases(s, m);
      case Redrive(m) => RedriveDecreases(s, m);
    }
  }

  lemma {:induction false} RunBound(s: State, acts: seq<Action>)
    requires Conserved(s) && ValidRun(s, acts)
    ensures |acts| <= Measure(s)
    decreases |acts|
  {
    if acts == [] {
    } else {
      EveryActionDecreases(s, acts[0]);
      ConservedStep(s, acts[0]);
      RunBound(Apply(s, acts[0]), acts[1..]);
    }
  }

  lemma {:induction false} InitialChances(pub: seq<Option<ScoringEvent>>, workers: nat, n: nat)
    requires n <= |pub|
    ensures TotalChances(Init(pub, workers), n) <= n * (MAX_RECEIVE + 1)
  {
    if n == 0 {
    } else {
      InitialChances(pub, workers, n - 1);
    }
  }

  lemma {:induction false} IdleWork(pub: seq<Option<ScoringEvent>>, workers: nat)
    ensures TotalWork(pub, seq(workers, _ => Idle)) == 0
  {
    if workers == 0 {
    } else {
      assert seq(workers, _ => Idle)[..workers - 1] == seq(workers - 1, _ => Idle);
      IdleWork(pub, workers - 1);
    }
  }

  /** Nothing can happen any more. */
  ghost predicate Quiescent(s: State) {
    forall a :: !Enabled(s, a)
  }

  lemma VisibleCanMove(s: State, m: nat)
    requires Conserved(s) && |s.workers| > 0 && s.workers[0].Idle? && m in s.visible
    ensures Enabled(s, Receive(0, [m])) || Enabled(s, Redrive(m))
  {
    assert m in IDs(|s.pub|);
  }

  /** When nothing can happen, every message is deleted or in the dead-letter queue, and every worker idle. */
  lemma QuiescentMeansSettled(s: State)
    requires Conserved(s) && |s.workers| > 0 && Quiescent(s)
    ensures s.visible == {} && s.hidden == {} && s.deleted + s.dlq == IDs(|s.pub|)
    ensures forall w :: 0 <= w < |s.workers| ==> s.workers[w].Idle?
  {
    forall w | 0 <= w < |s.workers| ensures s.workers[w].Idle? {
      assert !Enabled(s, Crash(w));
    }
    forall m ensures m !in s.hidden {
      assert !Enabled(s, Expire(m));
    }
    forall m ensures m !in s.visible {
      assert !Enabled(s, Receive(0, [m])) && !Enabled(s, Redrive(m));
      if m in s.visible {
        VisibleCanMove(s, m);
      }
    }
  }

  lemma MulMonotone(x: nat, y: nat, c: nat)
    requires x <= y
    ensures x * c <= y * c
  {
  }

  /** Every run settles: it has at most six weighted steps per message, and where it cannot go on every
      message is deleted or in the dead-letter queue. */
  lemma RunsSettle(pub: seq<Option<ScoringEvent>>, workers: nat, acts: seq<Action>)
    requires workers > 0 && ValidRun(Init(pub, workers), acts)
    ensures |acts| <= |pub| * (MAX_RECEIVE + 1) * Weight(pub)
    ensures var s := Run(Init(pub, workers), acts);
            Quiescent(s) ==> s.deleted + s.dlq == IDs(|pub|) && forall w :: 0 <= w < |s.workers| ==> s.workers[w].Idle?
  {
    ConservedInit(pub, workers);
    ConservedRun(Init(pub, workers), acts);
    RunBound(Init(pub, workers), acts);
    InitialChances(pub, workers, |pub|);
    IdleWork(pub, workers);
    WorkersConstant(Init(pub, workers), acts);
    var s0 := Init(pub, workers);
    var x, y, c := TotalChances(s0, |pub|), |pub| * (MAX_RECEIVE + 1), Weight(pub);
    assert Measure(s0) == x * c;
    assert x * c <= y * c by {
      MulMonotone(x, y, c);
    }
    if Quiescent(Run(s0, acts)) {
      QuiescentMeansSettled(Run(s0, acts));
    }
  }

  lemma {:induction false} WorkersConstant(s: State, acts: seq<Action>)
    requires ValidRun(s, acts)
    ensures |Run(s, acts).workers| == |s.workers|
    decreases |acts|
  {
    if acts == [] {
    } else {
      WorkersConstant(Apply(s, acts[0]), acts[1..]);
    }
  }
}
