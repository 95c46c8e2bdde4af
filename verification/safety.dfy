/** Deletion safety: nothing is deleted before it has had its effects. */
module Safety {
  import opened Domain
  import opened Audit
  import opened Consumer
  import opened Delivery

  /** The three effects of the message are in the stores. */
  predicate Done(s: State, m: nat) {
    m < |s.pub| && s.pub[m].Some? && Recorded(s.stores, s.pub[m].value)
  }

  ghost predicate WorkerSafe(s: State, k: Worker) {
    k.Busy? ==>
      && k.pos <= |k.batch|
      && (forall i :: 0 <= i < k.pos && k.batch[i] !in k.failed ==> Done(s, k.batch[i]))
      && (k.pos < |k.batch| && k.batch[k.pos] < |s.pub| && s.pub[k.batch[k.pos]].Some?
          ==> Progress(s.stores, s.pub[k.batch[k.pos]].value, k.pc))
  }

  ghost predicate Safe(s: State) {
    && (forall m :: m in s.deleted ==> Done(s, m))
    && (forall w :: 0 <= w < |s.workers| ==> WorkerSafe(s, s.workers[w]))
  }

  lemma ProgressExtends(st: Stores, st': Stores, ev: ScoringEvent, pc: PC)
    requires Extends(st, st') && Progress(st, ev, pc)
    ensures Progress(st', ev, pc)
  {
  }

  lemma WorkerSafeExtends(s: State, s': State, k: Worker)
    requires s'.pub == s.pub && Extends(s.stores, s'.stores) && WorkerSafe(s, k)
    ensures WorkerSafe(s', k)
  {
    if k.Busy? && k.pos < |k.batch| && k.batch[k.pos] < |s.pub| && s.pub[k.batch[k.pos]].Some? {
      ProgressExtends(s.stores, s'.stores, s.pub[k.batch[k.pos]].value, k.pc);
    }
  }

  lemma SafeStepOfWorker(s: State, w: nat, f: Fault)
    requires Conserved(s) && Safe(s) && Processing(s, w)
    ensures Safe(ApplyStep(s, w, f))
  {
    var s', k, m := ApplyStep(s, w, f), s.workers[w], Current(s, w);
    assert WorkerSafe(s, k);
    if s.pub[m].Some? {
      CallExtends(s.stores, s.pub[m].value, k.pc, f);
      CallProgress(s.stores, s.pub[m].value, k.pc, f);
    }
    assert Extends(s.stores, s'.stores);
    forall v | 0 <= v < |s'.workers| ensures WorkerSafe(s', s'.workers[v]) {
      if v != w {
        WorkerSafeExtends(s, s', s.workers[v]);
      } else {
        WorkerSafeExtends(s, s', k);
      }
    }
  }

  lemma {:induction false} SafeStep(s: State, a: Action)
    requires Conserved(s) && Safe(s) && Enabled(s, a)
    ensures Safe(Apply(s, a))
  {
    match a {
      case Step(w, f) =>
        SafeStepOfWorker(s, w, f);
      case DeleteBatch(w, gone) =>
        var k := s.workers[w];
        assert WorkerSafe(s, k);
        forall m | m in gone ensures Done(s, m) {
          var i :| 0 <= i < |k.batch| && k.batch[i] == m;
        }
      case _ =>
    }
  }

  lemma {:induction false} SafeRun(s: State, acts: seq<Action>)
    requires Conserved(s) && Safe(s) && ValidRun(s, acts)
    ensures Safe(Run(s, acts)) && Conserved(Run(s, acts))
    decreases |acts|
  {
    if acts == [] {
    } else {
      ConservedStep(s, acts[0]);
      SafeStep(s, acts[0]);
      SafeRun(Apply(s, acts[0]), acts[1..]);
    }
  }

  /** Deletion safety: whatever the interleaving, the crashes and the faults, a deleted message parsed, its
      decision row is stored, its review is enqueued if it needs one, and its retraining event is emitted. */
  lemma DeletionSafety(pub: seq<Option<ScoringEvent>>, workers: nat, acts: seq<Action>, m: nat)
    requires ValidRun(Init(pub, workers), acts)
    requires m in Run(Init(pub, workers), acts).deleted
    ensures m < |pub| && pub[m].Some? && Recorded(Run(Init(pub, workers), acts).stores, pub[m].value)
  {
    ConservedInit(pub, workers);
    SafeRun(Init(pub, workers), acts);
    ConservedRun(Init(pub, workers), acts);
  }
}
