/** The at-least-once delivery protocol as a step system: a queue with receive counts and a dead-letter
    queue, several workers that each process batches one remote call at a time, and the shared stores.
    Any call may be lost, may commit and report an error, or may be repeated by the client library; a
    worker may crash at any point; a delete request may fail for any subset of its entries; and a message
    may become visible again while a worker still holds it. */
module Delivery {
  import opened Domain
  import opened Audit
  import opened Consumer

  const MAX_RECEIVE: nat := 5
  const MAX_BATCH: nat := 10

  /** A worker waits, or processes the message at `pos` of its batch, or (at the end) deletes. */
  datatype Worker = Idle | Busy(batch: seq<nat>, pos: nat, pc: PC, failed: set<nat>)

  /** History of a decision row: the delivery that wrote it, whether that delivery saw the write succeed
      and so went on to the provider loop, and how many provider responses it has stored. */
  datatype Win = Win(msg: nat, entered: bool, written: nat)

  /** Messages are named by their position in `pub`; a body that does not parse is `None`. A message
      published later is one that is not received until then. `won` and `harmed` are history: they are
      never read by a step except to update them. */
  datatype State = State(
    pub: seq<Option<ScoringEvent>>,
    visible: set<nat>, hidden: set<nat>, deleted: set<nat>, dlq: set<nat>,
    received: seq<nat>,
    workers: seq<Worker>,
    stores: Stores,
    won: map<string, Win>,
    harmed: set<string>)

  datatype Action =
    | Receive(w: nat, ids: seq<nat>)
    | Step(w: nat, f: Fault)
    | DeleteBatch(w: nat, gone: set<nat>)
    | Crash(w: nat)
    | Expire(m: nat)
    | Redrive(m: nat)

  function IDs(n: nat): (ids: set<nat>)
    ensures forall m: nat :: m in ids <==> m < n
  {
    if n == 0 then {} else IDs(n - 1) + {n - 1}
  }

  function Init(pub: seq<Option<ScoringEvent>>, workers: nat): State {
    State(pub, IDs(|pub|), {}, {}, {}, seq(|pub|, _ => 0), seq(workers, _ => Idle), EMPTY, map[], {})
  }

  predicate Processing(s: State, w: nat) {
    && w < |s.workers| && s.workers[w].Busy? && s.workers[w].pos < |s.workers[w].batch|
    && Current(s, w) < |s.pub|
    && match s.pub[Current(s, w)]
       case None => true
       case Some(ev) => ValidPC(ev, s.workers[w].pc) && !s.workers[w].pc.Finished?
  }

  function Current(s: State, w: nat): nat
    requires w < |s.workers| && s.workers[w].Busy? && s.workers[w].pos < |s.workers[w].batch|
  {
    s.workers[w].batch[s.workers[w].pos]
  }

  predicate Distinct(ids: seq<nat>) {
    forall i, j :: 0 <= i < j < |ids| ==> ids[i] != ids[j]
  }

  function SetOf(ids: seq<nat>): set<nat> {
    set i | 0 <= i < |ids| :: ids[i]
  }

  predicate Enabled(s: State, a: Action) {
    match a
    case Receive(w, ids) =>
      && w < |s.workers| && s.workers[w].Idle?
      && 0 < |ids| <= MAX_BATCH && Distinct(ids)
      && forall i :: 0 <= i < |ids| ==> ids[i] in s.visible && ids[i] < |s.received| && s.received[ids[i]] < MAX_RECEIVE
    case Step(w, _) => Processing(s, w)
    case DeleteBatch(w, gone) =>
      && w < |s.workers| && s.workers[w].Busy? && s.workers[w].pos == |s.workers[w].batch|
      && gone <= SetOf(s.workers[w].batch) - s.workers[w].failed
    case Crash(w) => w < |s.workers| && s.workers[w].Busy?
    case Expire(m) => m in s.hidden
    case Redrive(m) => m in s.visible && m < |s.received| && s.received[m] >= MAX_RECEIVE
  }

  function NextMessage(k: Worker, ok: bool): Worker
    requires k.Busy? && k.pos < |k.batch|
  {
    k.(pos := k.pos + 1, pc := AtDecision, failed := if ok then k.failed else k.failed + {k.batch[k.pos]})
  }

  /** The call writes the decision row of its request id. */
  predicate Commits(st: Stores, ev: ScoringEvent, pc: PC, f: Fault) {
    pc.AtDecision? && DecisionKey(ev.decision.requestID) !in st.table && f != Lost
  }

  function NoteWin(s: State, m: nat, ev: ScoringEvent, pc: PC, f: Fault): map<string, Win> {
    var r := ev.decision.requestID;
    if Commits(s.stores, ev, pc, f) then s.won[r := Win(m, f == NoFault, 0)]
    else if pc.AtProvider? && f != Lost && r in s.won then s.won[r := s.won[r].(written := pc.k + 1)]
    else s.won
  }

  /** The calls after which some provider response of this request id can no longer be stored: the decision
      row is written but the writer does not learn it, or a provider write stops the loop early. */
  predicate Harmful(st: Stores, ev: ScoringEvent, pc: PC, f: Fault) {
    var n := |ev.providerResponses|;
    || (Commits(st, ev, pc, f) && f != NoFault && n > 0)
    || (pc.AtProvider? && (f == Lost || (f == Unacked && pc.k + 1 < n)))
  }

  function HarmOfStep(s: State, ev: ScoringEvent, pc: PC, f: Fault): set<string> {
    if Harmful(s.stores, ev, pc, f) then {ev.decision.requestID} else {}
  }

  /** A worker that crashes inside the provider loop never comes back to it. */
  function HarmOfCrash(s: State, w: nat): set<string> {
    if Processing(s, w) && s.pub[Current(s, w)].Some? && s.workers[w].pc.AtProvider?
    then {s.pub[Current(s, w)].value.decision.requestID} else {}
  }

  function ApplyStep(s: State, w: nat, f: Fault): State
    requires Processing(s, w)
  {
    var k, m := s.workers[w], Current(s, w);
    match s.pub[m]
    case None => s.(workers := s.workers[w := NextMessage(k, false)])
    case Some(ev) =>
      var pc' := CallPC(s.stores, ev, k.pc, f);
      s.(stores := CallStores(s.stores, ev, k.pc, f),
         workers := s.workers[w := if pc'.Finished? then NextMessage(k, pc'.ok) else k.(pc := pc')],
         won := NoteWin(s, m, ev, k.pc, f),
         harmed := s.harmed + HarmOfStep(s, ev, k.pc, f))
  }

  function CountReceives(received: seq<nat>, ids: seq<nat>): (r: seq<nat>)
    ensures |r| == |received|
  {
    seq(|received|, m requires 0 <= m < |received| => received[m] + if m in ids then 1 else 0)
  }

  function Apply(s: State, a: Action): State
    requires Enabled(s, a)
  {
    match a
    case Receive(w, ids) =>
      s.(visible := s.visible - SetOf(ids), hidden := s.hidden + SetOf(ids),
         received := CountReceives(s.received, ids),
         workers := s.workers[w := Busy(ids, 0, AtDecision, {})])
    case Step(w, f) => ApplyStep(s, w, f)
    case DeleteBatch(w, gone) =>
      // only what is still in the queue can be deleted
      s.(visible := s.visible - gone, hidden := s.hidden - gone,
         deleted := s.deleted + gone * (s.visible + s.hidden),
         workers := s.workers[w := Idle])
    case Crash(w) => s.(workers := s.workers[w := Idle], harmed := s.harmed + HarmOfCrash(s, w))
    case Expire(m) => s.(hidden := s.hidden - {m}, visible := s.visible + {m})
    case Redrive(m) => s.(visible := s.visible - {m}, dlq := s.dlq + {m})
  }

  predicate ValidRun(s: State, acts: seq<Action>)
    decreases |acts|
  {
    acts == [] || (Enabled(s, acts[0]) && ValidRun(Apply(s, acts[0]), acts[1..]))
  }

  function Run(s: State, acts: seq<Action>): State
    requires ValidRun(s, acts)
    decreases |acts|
  {
    if acts == [] then s else Run(Apply(s, acts[0]), acts[1..])
  }

  /** What may happen at any time, and nothing else. An idle worker may receive any one to ten different
      visible messages with receives left. */
  lemma ReceiveIsFree(s: State, w: nat, ids: seq<nat>)
    requires w < |s.workers|
    ensures Enabled(s, Receive(w, ids)) <==>
              && s.workers[w].Idle? && 1 <= |ids| <= 10 && (forall i, j :: 0 <= i < j < |ids| ==> ids[i] != ids[j])
              && forall i :: 0 <= i < |ids| ==> ids[i] in s.visible && ids[i] < |s.received| && s.received[ids[i]] < 5
  {
  }

  /** In every reachable state the next call of a worker may meet any fault. */
  lemma FaultsAreFree(s: State, w: nat, f: Fault)
    requires Conserved(s) && w < |s.workers|
    ensures Enabled(s, Step(w, f)) <==> s.workers[w].Busy? && s.workers[w].pos < |s.workers[w].batch|
  {
    assert WorkerOk(s.pub, s.received, s.workers[w]);
  }

  /** A worker may crash whenever it is busy, a message in flight may become visible again whenever it is in
      flight, and a visible one may be redriven after five receives. */
  lemma TroubleIsFree(s: State, w: nat, m: nat)
    requires w < |s.workers| && m < |s.received|
    ensures Enabled(s, Crash(w)) <==> s.workers[w].Busy?
    ensures Enabled(s, Expire(m)) <==> m in s.hidden
    ensures Enabled(s, Redrive(m)) <==> m in s.visible && s.received[m] >= 5
  {
  }

  /** At the end of a batch any part of its successes may be deleted. */
  lemma DeletionIsFree(s: State, w: nat, gone: set<nat>)
    requires w < |s.workers|
    ensures Enabled(s, DeleteBatch(w, gone)) <==>
              && s.workers[w].Busy? && s.workers[w].pos == |s.workers[w].batch|
              && forall k :: k in gone ==> k in s.workers[w].batch && k !in s.workers[w].failed
  {
    if s.workers[w].Busy? {
      assert forall k: nat :: k in s.workers[w].batch <==> k in SetOf(s.workers[w].batch);
    }
  }

  // ---- Conservation --------------------------------------------------------------------

  ghost predicate WorkerOk(pub: seq<Option<ScoringEvent>>, received: seq<nat>, k: Worker) {
    k.Busy? ==>
      && 0 < |k.batch| <= MAX_BATCH && k.pos <= |k.batch|
      && (forall i :: 0 <= i < |k.batch| ==> k.batch[i] < |pub| && k.batch[i] < |received| && received[k.batch[i]] > 0)
      && !k.pc.Finished?
      && (k.pos == |k.batch| ==> k.pc == AtDecision)
      && (k.pos < |k.batch| ==>
            match pub[k.batch[k.pos]]
            case None => k.pc == AtDecision
            case Some(ev) => ValidPC(ev, k.pc))
  }

  /** Every published message is in exactly one place, and no message is received more than five times;
      only messages received five times are in the dead-letter queue. */
  ghost predicate Conserved(s: State) {
    && |s.received| == |s.pub|
    && s.visible + s.hidden + s.deleted + s.dlq == IDs(|s.pub|)
    && s.visible !! s.hidden && s.visible !! s.deleted && s.visible !! s.dlq
    && s.hidden !! s.deleted && s.hidden !! s.dlq && s.deleted !! s.dlq
    && (forall m :: 0 <= m < |s.received| ==> s.received[m] <= MAX_RECEIVE)
    && (forall m :: m in s.dlq ==> m < |s.received| && s.received[m] == MAX_RECEIVE)
    && (forall m :: m in s.hidden + s.deleted ==> m < |s.received| && s.received[m] > 0)
    && (forall w :: 0 <= w < |s.workers| ==> WorkerOk(s.pub, s.received, s.workers[w]))
  }

  lemma IDsSize(n: nat)
    ensures |IDs(n)| == n
  {
    if n > 0 {
      IDsSize(n - 1);
      assert IDs(n) == IDs(n - 1) + {n - 1};
    }
  }

  lemma ConservedInit(pub: seq<Option<ScoringEvent>>, workers: nat)
    ensures Conserved(Init(pub, workers))
  {
  }

  lemma ConservedReceive(s: State, w: nat, ids: seq<nat>)
    requires Conserved(s) && Enabled(s, Receive(w, ids))
    ensures Conserved(Apply(s, Receive(w, ids)))
  {
    var s', moved := Apply(s, Receive(w, ids)), SetOf(ids);
    assert moved <= s.visible;
    assert s'.visible + s'.hidden == s.visible + s.hidden;
    forall v | 0 <= v < |s'.workers| ensures WorkerOk(s'.pub, s'.received, s'.workers[v]) {
      if v != w {
        assert WorkerOk(s.pub, s.received, s.workers[v]);
      }
    }
  }

  lemma ConservedStepOfWorker(s: State, w: nat, f: Fault)
    requires Conserved(s) && Processing(s, w)
    ensures Conserved(ApplyStep(s, w, f))
  {
    assert WorkerOk(s.pub, s.received, s.workers[w]);
  }

  lemma ConservedDelete(s: State, w: nat, gone: set<nat>)
    requires Conserved(s) && Enabled(s, DeleteBatch(w, gone))
    ensures Conserved(Apply(s, DeleteBatch(w, gone)))
  {
    var s', k := Apply(s, DeleteBatch(w, gone)), s.workers[w];
    assert WorkerOk(s.pub, s.received, k);
    forall m | m in gone ensures m < |s.received| && s.received[m] > 0 {
      var i :| 0 <= i < |k.batch| && k.batch[i] == m;
    }
    assert s'.visible + s'.hidden + s'.deleted == s.visible + s.hidden + s.deleted;
  }

  lemma {:induction false} ConservedStep(s: State, a: Action)
    requires Conserved(s) && Enabled(s, a)
    ensures Conserved(Apply(s, a))
    ensures forall m :: 0 <= m < |Apply(s, a).received| ==> Apply(s, a).received[m] <= 5
    ensures forall m :: m in Apply(s, a).dlq ==> m < |Apply(s, a).received| && Apply(s, a).received[m] == 5
    ensures a.Receive? ==> |a.ids| <= 10
  {
    match a {
      case Receive(w, ids) => ConservedReceive(s, w, ids);
      case Step(w, f) => ConservedStepOfWorker(s, w, f);
      case DeleteBatch(w, gone) => ConservedDelete(s, w, gone);
      case Crash(w) =>
      case Expire(m) =>
        assert Apply(s, a).visible + Apply(s, a).hidden == s.visible + s.hidden;
      case Redrive(m) =>
        assert Apply(s, a).visible + Apply(s, a).dlq == s.visible + s.dlq;
    }
  }

  lemma {:induction false} ConservedRun(s: State, acts: seq<Action>)
    requires Conserved(s) && ValidRun(s, acts)
    ensures Conserved(Run(s, acts)) && Run(s, acts).pub == s.pub
    ensures s.deleted <= Run(s, acts).deleted && s.dlq <= Run(s, acts).dlq
    decreases |acts|
  {
    if acts == [] {
    } else {
      ConservedStep(s, acts[0]);
      ConservedRun(Apply(s, acts[0]), acts[1..]);
    }
  }

  /** Message conservation over whole runs, with the counts. */
  lemma Conservation(pub: seq<Option<ScoringEvent>>, workers: nat, acts: seq<Action>)
    requires ValidRun(Init(pub, workers), acts)
    ensures var s := Run(Init(pub, workers), acts);
            && Conserved(s) && s.pub == pub
            && |s.visible| + |s.hidden| + |s.deleted| + |s.dlq| == |pub|
  {
    ConservedInit(pub, workers);
    ConservedRun(Init(pub, workers), acts);
    var s := Run(Init(pub, workers), acts);
    IDsSize(|pub|);
    assert |s.visible + s.hidden| == |s.visible| + |s.hidden|;
    assert |s.visible + s.hidden + s.deleted| == |s.visible + s.hidden| + |s.deleted|;
  }
}
