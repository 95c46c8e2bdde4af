/** The step system and the code: a worker that nobody interferes with does exactly what a batch of the
    handler does, fault for fault. */
module Sequential {
  import opened Domain
  import opened Audit
  import opened Consumer
  import opened Delivery

  lemma {:induction false} RunConcat(s: State, a: seq<Action>, b: seq<Action>)
    requires ValidRun(s, a) && ValidRun(Run(s, a), b)
    ensures ValidRun(s, a + b) && Run(s, a + b) == Run(Run(s, a), b)
    decreases |a|
  {
    if a == [] {
      assert a + b == b;
    } else {
      assert (a + b)[1..] == a[1..] + b;
      RunConcat(Apply(s, a[0]), a[1..], b);
    }
  }

  lemma RunOne(s: State, a: Action)
    requires Enabled(s, a)
    ensures ValidRun(s, [a]) && Run(s, [a]) == Apply(s, a)
  {
    assert [a][1..] == [];
    assert ValidRun(Apply(s, a), []);
  }

  /** Only the stores, the history and worker `w` differ. */
  predicate OnlyWorker(s: State, s': State, w: nat) {
    && s'.pub == s.pub && s'.visible == s.visible && s'.hidden == s.hidden
    && s'.deleted == s.deleted && s'.dlq == s.dlq && s'.received == s.received
    && |s'.workers| == |s.workers|
    && forall v :: 0 <= v < |s.workers| && v != w ==> s'.workers[v] == s.workers[v]
  }

  /** One delivery run to its end by worker `w` alone is `Deliver`. */
  lemma {:induction false} SoloDelivery(s: State, w: nat, fate: nat -> Fault, calls: nat) returns (acts: seq<Action>)
    requires Processing(s, w) && s.pub[Current(s, w)].Some?
    ensures ValidRun(s, acts) && OnlyWorker(s, Run(s, acts), w)
    ensures var d := Deliver(s.stores, s.pub[Current(s, w)].value, s.workers[w].pc, fate, calls);
            && Run(s, acts).stores == d.0
            && Run(s, acts).workers[w] == NextMessage(s.workers[w], d.2)
    ensures (forall n: nat :: fate(n) == NoFault) ==> Run(s, acts).harmed == s.harmed
    decreases CallsLeft(s.pub[Current(s, w)].value, s.workers[w].pc)
  {
    var ev, a := s.pub[Current(s, w)].value, Step(w, fate(calls));
    var s' := Apply(s, a);
    var pc' := CallPC(s.stores, ev, s.workers[w].pc, fate(calls));
    RunOne(s, a);
    if pc'.Finished? {
      acts := [a];
      assert Deliver(s'.stores, ev, pc', fate, calls + 1) == (s'.stores, calls + 1, pc'.ok);
    } else {
      var rest := SoloDelivery(s', w, fate, calls + 1);
      acts := [a] + rest;
      RunConcat(s, [a], rest);
    }
  }

  /** One message from its start, also when its body does not parse. */
  lemma SoloMessage(s: State, w: nat, fate: nat -> Fault, calls: nat) returns (acts: seq<Action>)
    requires Processing(s, w) && s.workers[w].pc == AtDecision
    ensures ValidRun(s, acts) && OnlyWorker(s, Run(s, acts), w)
    ensures match s.pub[Current(s, w)]
            case None =>
              Run(s, acts).stores == s.stores && Run(s, acts).workers[w] == NextMessage(s.workers[w], false)
            case Some(ev) =>
              var d := Deliver(s.stores, ev, AtDecision, fate, calls);
              Run(s, acts).stores == d.0 && Run(s, acts).workers[w] == NextMessage(s.workers[w], d.2)
    ensures (forall n: nat :: fate(n) == NoFault) ==> Run(s, acts).harmed == s.harmed
  {
    if s.pub[Current(s, w)].None? {
      acts := [Step(w, NoFault)];
      RunOne(s, Step(w, NoFault));
    } else {
      acts := SoloDelivery(s, w, fate, calls);
    }
  }

  predicate AllWithin(batch: seq<nat>, n: nat) {
    forall i :: 0 <= i < |batch| ==> batch[i] < n
  }

  function Bodies(pub: seq<Option<ScoringEvent>>, batch: seq<nat>): (evs: seq<Option<ScoringEvent>>)
    requires AllWithin(batch, |pub|)
    ensures |evs| == |batch|
  {
    seq(|batch|, i requires 0 <= i < |batch| => pub[batch[i]])
  }

  /** The messages whose verdict is false. */
  function FailedSet(batch: seq<nat>, ok: seq<bool>): set<nat>
    requires |ok| <= |batch|
  {
    set i | 0 <= i < |ok| && !ok[i] :: batch[i]
  }

  lemma FailedSetStep(batch: seq<nat>, ok: seq<bool>, last: bool)
    requires |ok| < |batch|
    ensures FailedSet(batch, ok + [last]) == FailedSet(batch, ok) + (if last then {} else {batch[|ok|]})
  {
    var after := ok + [last];
    forall m | m in FailedSet(batch, ok) ensures m in FailedSet(batch, after) {
      var i :| 0 <= i < |ok| && !ok[i] && batch[i] == m;
      assert !after[i];
    }
    if !last {
      assert !after[|ok|] && batch[|ok|] in FailedSet(batch, after);
    }
  }

  /** `DeliverAll` of a prefix, unfolded once. */
  lemma DeliverAllStep(st: Stores, evs: seq<Option<ScoringEvent>>, n: nat, fate: nat -> Fault, calls: nat)
    requires 0 < n <= |evs|
    ensures var done, run := DeliverAll(st, evs[..n - 1], fate, calls), DeliverAll(st, evs[..n], fate, calls);
            match evs[n - 1]
            case None => run == (done.0, done.1, done.2 + [false])
            case Some(ev) =>
              var d := Deliver(done.0, ev, AtDecision, fate, done.1);
              run == (d.0, d.1, done.2 + [d.2])
  {
    assert evs[..n][..n - 1] == evs[..n - 1];
  }

  /** What worker `w` alone has done after the first `n` messages of its batch. */
  ghost predicate DoneWith(s: State, s': State, w: nat, batch: seq<nat>, n: nat, fate: nat -> Fault, calls: nat)
    requires n <= |batch| && AllWithin(batch, |s.pub|) && w < |s.workers|
  {
    var run := DeliverAll(s.stores, Bodies(s.pub, batch)[..n], fate, calls);
    OnlyWorker(s, s', w) && s'.stores == run.0 && s'.workers[w] == Busy(batch, n, AtDecision, FailedSet(batch, run.2))
  }

  lemma SoloNext(s: State, s1: State, w: nat, n: nat, fate: nat -> Fault, calls: nat) returns (rest: seq<Action>)
    requires w < |s.workers| && s.workers[w].Busy? && AllWithin(s.workers[w].batch, |s.pub|)
    requires 0 < n <= |s.workers[w].batch| && DoneWith(s, s1, w, s.workers[w].batch, n - 1, fate, calls)
    ensures ValidRun(s1, rest) && DoneWith(s, Run(s1, rest), w, s.workers[w].batch, n, fate, calls)
    ensures (forall k: nat :: fate(k) == NoFault) ==> Run(s1, rest).harmed == s1.harmed
  {
    var batch := s.workers[w].batch;
    var evs := Bodies(s.pub, batch);
    var done, run := DeliverAll(s.stores, evs[..n - 1], fate, calls), DeliverAll(s.stores, evs[..n], fate, calls);
    rest := SoloMessage(s1, w, fate, done.1);
    DeliverAllStep(s.stores, evs, n, fate, calls);
    FailedSetStep(batch, done.2, run.2[n - 1]);
  }

  /** The first `n` messages of a batch run by worker `w` alone are `DeliverAll` of their bodies. */
  lemma {:induction false} SoloBatch(s: State, w: nat, n: nat, fate: nat -> Fault, calls: nat) returns (acts: seq<Action>)
    requires w < |s.workers| && s.workers[w].Busy? && s.workers[w] == Busy(s.workers[w].batch, 0, AtDecision, {})
    requires n <= |s.workers[w].batch|
    requires AllWithin(s.workers[w].batch, |s.pub|)
    ensures ValidRun(s, acts) && DoneWith(s, Run(s, acts), w, s.workers[w].batch, n, fate, calls)
    ensures (forall k: nat :: fate(k) == NoFault) ==> Run(s, acts).harmed == s.harmed
    decreases n
  {
    if n == 0 {
      acts := [];
    } else {
      var before := SoloBatch(s, w, n - 1, fate, calls);
      var rest := SoloNext(s, Run(s, before), w, n, fate, calls);
      acts := before + rest;
      RunConcat(s, before, rest);
    }
  }

  /** Receive, process alone, delete every success: what one iteration of the poller does to the queue. */
  lemma {:induction false} SoloPoll(s: State, w: nat, ids: seq<nat>, fate: nat -> Fault, calls: nat) returns (acts: seq<Action>)
    requires Conserved(s) && Enabled(s, Receive(w, ids))
    requires AllWithin(ids, |s.pub|)
    ensures ValidRun(s, acts)
    ensures var s', run := Run(s, acts), DeliverAll(s.stores, Bodies(s.pub, ids), fate, calls);
            && s'.pub == s.pub && s'.workers == s.workers[w := Idle] && s'.stores == run.0
            && s'.visible == s.visible - SetOf(ids)
            && s'.hidden == s.hidden + FailedSet(ids, run.2)
            && s'.deleted == s.deleted + (SetOf(ids) - FailedSet(ids, run.2))
            && s'.received == CountReceives(s.received, ids)
    ensures (forall k: nat :: fate(k) == NoFault) ==> Run(s, acts).harmed == s.harmed
  {
    var s1 := Apply(s, Receive(w, ids));
    RunOne(s, Receive(w, ids));
    var middle := SoloBatch(s1, w, |ids|, fate, calls);
    var s2, run := Run(s1, middle), DeliverAll(s.stores, Bodies(s.pub, ids), fate, calls);
    assert Bodies(s1.pub, ids) == Bodies(s.pub, ids) && Bodies(s1.pub, ids)[..|ids|] == Bodies(s.pub, ids);
    var gone := SetOf(ids) - FailedSet(ids, run.2);
    assert Enabled(s2, DeleteBatch(w, gone));
    RunOne(s2, DeleteBatch(w, gone));
    RunConcat(s1, middle, [DeleteBatch(w, gone)]);
    acts := [Receive(w, ids)] + (middle + [DeleteBatch(w, gone)]);
    RunConcat(s, [Receive(w, ids)], middle + [DeleteBatch(w, gone)]);
    assert SetOf(ids) <= s.visible;
    assert FailedSet(ids, run.2) <= SetOf(ids);
    assert s2.hidden - gone == s.hidden + FailedSet(ids, run.2);
  }

  lemma DeliverOne(st: Stores, ev: Option<ScoringEvent>, fate: nat -> Fault, calls: nat)
    ensures DeliverAll(st, [ev], fate, calls)
            == match ev
               case None => (st, calls, [false])
               case Some(e) => (var d := Deliver(st, e, AtDecision, fate, calls); (d.0, d.1, [d.2]))
  {
    var one := [ev];
    assert one[..1] == one && one[..0] == [] && one[0] == ev;
    assert DeliverAll(st, one[..0], fate, calls) == (st, calls, []);
    DeliverAllStep(st, one, 1, fate, calls);
    assert forall ok: bool :: [] + [ok] == [ok];
  }

  lemma DeliverAllAppend(st: Stores, evs: seq<Option<ScoringEvent>>, ev: Option<ScoringEvent>, fate: nat -> Fault, calls: nat)
    ensures var done := DeliverAll(st, evs, fate, calls);
            var last := DeliverAll(done.0, [ev], fate, done.1);
            DeliverAll(st, evs + [ev], fate, calls) == (last.0, last.1, done.2 + last.2)
  {
    var done := DeliverAll(st, evs, fate, calls);
    var all := evs + [ev];
    assert all[..|evs|] == evs && all[..|evs| + 1] == all;
    DeliverOne(done.0, ev, fate, done.1);
    DeliverAllStep(st, all, |all|, fate, calls);
  }

  /** Two batches one after the other. */
  lemma {:induction false} DeliverAllConcat(st: Stores, a: seq<Option<ScoringEvent>>, b: seq<Option<ScoringEvent>>,
                                            fate: nat -> Fault, calls: nat)
    ensures var first := DeliverAll(st, a, fate, calls);
            var second := DeliverAll(first.0, b, fate, first.1);
            DeliverAll(st, a + b, fate, calls) == (second.0, second.1, first.2 + second.2)
  {
    var first := DeliverAll(st, a, fate, calls);
    if b == [] {
      assert a + b == a;
      assert DeliverAll(first.0, b, fate, first.1) == (first.0, first.1, []) && first.2 + [] == first.2;
    } else {
      var n := |b| - 1;
      DeliverAllConcat(st, a, b[..n], fate, calls);
      DeliverAllAppend(st, a + b[..n], b[n], fate, calls);
      DeliverAllAppend(first.0, b[..n], b[n], fate, first.1);
      assert (a + b[..n]) + [b[n]] == a + b && b[..n] + [b[n]] == b;
      var mid := DeliverAll(first.0, b[..n], fate, first.1);
      var last := DeliverAll(mid.0, [b[n]], fate, mid.1);
      assert (first.2 + mid.2) + last.2 == first.2 + (mid.2 + last.2);
    }
  }

  /** The messages of `ids` whose body parses. */
  function ParsedIDs(pub: seq<Option<ScoringEvent>>, ids: seq<nat>): (parsed: set<nat>)
    requires AllWithin(ids, |pub|)
    ensures forall m :: m in parsed <==> m in ids && pub[m].Some?
  {
    if ids == [] then {}
    else
      var n := |ids| - 1;
      ParsedIDs(pub, ids[..n]) + (if pub[ids[n]].Some? then {ids[n]} else {})
  }

  /** One message, received alone and processed without faults. */
  lemma FaultFreePoll(s: State, id: nat, calls: nat) returns (acts: seq<Action>)
    requires Conserved(s) && |s.workers| == 1 && s.workers[0].Idle?
    requires id in s.visible && id < |s.pub| && s.received[id] == 0
    ensures ValidRun(s, acts)
    ensures var s' := Run(s, acts);
            && s'.pub == s.pub && s'.workers == [Idle] && s'.harmed == s.harmed
            && s'.stores == DeliverAll(s.stores, [s.pub[id]], FAULT_FREE, calls).0
            && s'.visible == s.visible - {id} && |s'.received| == |s.received|
            && s'.deleted == s.deleted + (if s.pub[id].Some? then {id} else {})
            && forall m :: 0 <= m < |s.received| && m != id ==> s'.received[m] == s.received[m]
  {
    acts := SoloPoll(s, 0, [id], FAULT_FREE, calls);
    var evs := Bodies(s.pub, [id]);
    assert evs == [s.pub[id]] && evs[..1] == evs && evs[..0] == [];
    DeliverAllStep(s.stores, evs, 1, FAULT_FREE, calls);
    assert SetOf([id]) == {id};
    if s.pub[id].Some? {
      FaultFreeSucceeds(s.stores, s.pub[id].value, AtDecision, calls);
      assert FailedSet([id], [true]) == {};
    } else {
      assert FailedSet([id], [false]) == {id} by {
        assert ![false][0] && [id][0] in FailedSet([id], [false]);
      }
    }
  }

  /** What the reference run has done after the messages of `order`. */
  ghost predicate ReferenceState(s: State, pub: seq<Option<ScoringEvent>>, order: seq<nat>, calls: nat)
    requires AllWithin(order, |pub|)
  {
    && s.pub == pub && s.workers == [Idle] && s.harmed == {}
    && s.stores == DeliverAll(EMPTY, Bodies(pub, order), FAULT_FREE, 0).0
    && calls == DeliverAll(EMPTY, Bodies(pub, order), FAULT_FREE, 0).1
    && s.deleted == ParsedIDs(pub, order) && s.visible == IDs(|pub|) - SetOf(order)
    && |s.received| == |pub| && forall m :: 0 <= m < |pub| && m !in order ==> s.received[m] == 0
  }

  lemma ServeNext(s: State, pub: seq<Option<ScoringEvent>>, order: seq<nat>, calls: nat, id: nat)
    returns (acts: seq<Action>, calls': nat)
    requires Conserved(s) && AllWithin(order + [id], |pub|) && AllWithin(order, |pub|) && id !in order
    requires ReferenceState(s, pub, order, calls)
    ensures ValidRun(s, acts) && ReferenceState(Run(s, acts), pub, order + [id], calls')
  {
    assert (order + [id])[|order|] == id && id in IDs(|pub|) && id !in SetOf(order);
    acts := FaultFreePoll(s, id, calls);
    assert Bodies(pub, order + [id]) == Bodies(pub, order) + [pub[id]];
    DeliverAllAppend(EMPTY, Bodies(pub, order), pub[id], FAULT_FREE, 0);
    calls' := DeliverAll(EMPTY, Bodies(pub, order + [id]), FAULT_FREE, 0).1;
    assert (order + [id])[..|order|] == order;
    SetOfAppend(order, id);
  }

  lemma SetOfAppend(ids: seq<nat>, id: nat)
    ensures SetOf(ids + [id]) == SetOf(ids) + {id}
  {
    assert (ids + [id])[|ids|] == id;
    forall m | m in SetOf(ids) ensures m in SetOf(ids + [id]) {
      var i :| 0 <= i < |ids| && ids[i] == m;
      assert (ids + [id])[i] == m;
    }
  }

  /** The reference run: the messages of `order`, each delivered once, in this order, without faults. */
  lemma {:induction false} ReferenceRun(pub: seq<Option<ScoringEvent>>, order: seq<nat>)
    returns (acts: seq<Action>, calls: nat)
    requires Distinct(order) && AllWithin(order, |pub|)
    ensures ValidRun(Init(pub, 1), acts) && ReferenceState(Run(Init(pub, 1), acts), pub, order, calls)
    decreases |order|
  {
    if order == [] {
      acts, calls := [], 0;
      assert seq(1, _ => Idle) == [Idle];
    } else {
      var n := |order| - 1;
      var before, k := ReferenceRun(pub, order[..n]);
      ConservedInit(pub, 1);
      ConservedRun(Init(pub, 1), before);
      assert order[..n] + [order[n]] == order;
      var last;
      last, calls := ServeNext(Run(Init(pub, 1), before), pub, order[..n], k, order[n]);
      acts := before + last;
      RunConcat(Init(pub, 1), before, last);
    }
  }

  /** No action ever changes or removes what is stored. */
  lemma {:induction false} RunExtends(s: State, acts: seq<Action>)
    requires ValidRun(s, acts)
    ensures Extends(s.stores, Run(s, acts).stores)
    decreases |acts|
  {
    if acts == [] {
    } else {
      if acts[0].Step? && s.pub[Current(s, acts[0].w)].Some? {
        CallExtends(s.stores, s.pub[Current(s, acts[0].w)].value, s.workers[acts[0].w].pc, acts[0].f);
      }
      RunExtends(Apply(s, acts[0]), acts[1..]);
    }
  }

  lemma {:induction false} FaultFreeSucceeds(st: Stores, ev: ScoringEvent, pc: PC, calls: nat)
    requires ValidPC(ev, pc) && pc != Finished(false)
    ensures Deliver(st, ev, pc, FAULT_FREE, calls).2
    decreases CallsLeft(ev, pc)
  {
    if pc.Finished? {
    } else {
      FaultFreeSucceeds(CallStores(st, ev, pc, NoFault), ev, CallPC(st, ev, pc, NoFault), calls + 1);
    }
  }
}
