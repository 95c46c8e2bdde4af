/** The idempotent consumer: one event through the audit store, the review queue and the retraining
    sink, and a batch of messages with partial failures. */
module Consumer {
  import opened Domain
  import opened Audit

  datatype ScoringEvent = ScoringEvent(eventID: string, requestID: string, decision: Record,
                                       providerResponses: seq<ProviderRecord>, persistMode: string)

  predicate NeedsReview(ev: ScoringEvent) {
    ev.decision.decision == MANUAL_REVIEW
  }

  /** Everything the consumer writes to: the audit table and the two sinks keyed on request id. */
  datatype Stores = Stores(table: Table, reviews: map<string, ScoringEvent>, retrained: map<string, ScoringEvent>)

  const EMPTY := Stores(map[], map[], map[])

  // ---- One event, one remote call at a time --------------------------------------------

  /** The next remote call of a delivery, or its verdict. */
  datatype PC = AtDecision | AtProvider(k: nat) | AtReview | AtRetrain | Finished(ok: bool)

  function AfterAudit(ev: ScoringEvent): PC {
    if NeedsReview(ev) then AtReview else AtRetrain
  }

  function LoopAt(ev: ScoringEvent, k: nat): PC {
    if k < |ev.providerResponses| then AtProvider(k) else AfterAudit(ev)
  }

  predicate ValidPC(ev: ScoringEvent, pc: PC) {
    && (pc.AtProvider? ==> pc.k < |ev.providerResponses|)
    && (pc.AtReview? ==> NeedsReview(ev))
  }

  function ResponseKey(ev: ScoringEvent, k: nat): string
    requires k < |ev.providerResponses|
  {
    ProviderKey(ev.providerResponses[k].requestID, ev.providerResponses[k].source)
  }

  /** A sink that ignores request ids it has already seen. */
  function EmitOnce(seen: map<string, ScoringEvent>, ev: ScoringEvent, f: Fault): map<string, ScoringEvent> {
    if ev.requestID !in seen && f != Lost then seen[ev.requestID := ev] else seen
  }

  predicate EmitOk(f: Fault) {
    f == NoFault || f == Retried
  }

  function CallStores(st: Stores, ev: ScoringEvent, pc: PC, f: Fault): Stores
    requires ValidPC(ev, pc) && !pc.Finished?
  {
    match pc
    case AtDecision =>
      st.(table := PutOnce(st.table, DecisionKey(ev.decision.requestID), DecisionItem(ev.decision), f))
    case AtProvider(k) =>
      st.(table := PutOnce(st.table, ResponseKey(ev, k), ProviderItem(ev.providerResponses[k]), f))
    case AtReview => st.(reviews := EmitOnce(st.reviews, ev, f))
    case AtRetrain => st.(retrained := EmitOnce(st.retrained, ev, f))
  }

  /** A decision already stored skips the provider loop; a response already stored does not stop it. */
  function CallPC(st: Stores, ev: ScoringEvent, pc: PC, f: Fault): (pc': PC)
    requires ValidPC(ev, pc) && !pc.Finished?
    ensures ValidPC(ev, pc')
  {
    match pc
    case AtDecision =>
      (match PutReply(st.table, DecisionKey(ev.decision.requestID), f)
       case Ok => LoopAt(ev, 0)
       case AlreadyExists => AfterAudit(ev)
       case Failed => Finished(false))
    case AtProvider(k) =>
      if PutReply(st.table, ResponseKey(ev, k), f) == Failed then Finished(false) else LoopAt(ev, k + 1)
    case AtReview => if EmitOk(f) then AtRetrain else Finished(false)
    case AtRetrain => Finished(EmitOk(f))
  }

  /** An upper bound on the calls a delivery still makes. */
  function CallsLeft(ev: ScoringEvent, pc: PC): nat
    requires ValidPC(ev, pc)
  {
    match pc
    case AtDecision => |ev.providerResponses| + 3
    case AtProvider(k) => |ev.providerResponses| - k + 2
    case AtReview => 2
    case AtRetrain => 1
    case Finished(_) => 0
  }

  /** A delivery that nobody else interferes with, from program point `pc` on. */
  function Deliver(st: Stores, ev: ScoringEvent, pc: PC, fate: nat -> Fault, calls: nat): (Stores, nat, bool)
    requires ValidPC(ev, pc)
    decreases CallsLeft(ev, pc)
  {
    if pc.Finished? then (st, calls, pc.ok)
    else Deliver(CallStores(st, ev, pc, fate(calls)), ev, CallPC(st, ev, pc, fate(calls)), fate, calls + 1)
  }

  // ---- What a successful delivery leaves behind ----------------------------------------

  ghost predicate Extends(st: Stores, st': Stores) {
    && (forall k :: k in st.table ==> k in st'.table && st'.table[k] == st.table[k])
    && (forall r :: r in st.reviews ==> r in st'.reviews && st'.reviews[r] == st.reviews[r])
    && (forall r :: r in st.retrained ==> r in st'.retrained && st'.retrained[r] == st.retrained[r])
  }

  /** The three effects a message must have had before it may be deleted. */
  predicate Recorded(st: Stores, ev: ScoringEvent) {
    && DecisionKey(ev.decision.requestID) in st.table
    && (NeedsReview(ev) ==> ev.requestID in st.reviews)
    && ev.requestID in st.retrained
  }

  /** The effects a delivery that stands at `pc` has already had, or found. */
  predicate Progress(st: Stores, ev: ScoringEvent, pc: PC) {
    match pc
    case AtDecision => true
    case AtProvider(_) => DecisionKey(ev.decision.requestID) in st.table
    case AtReview => DecisionKey(ev.decision.requestID) in st.table
    case AtRetrain => DecisionKey(ev.decision.requestID) in st.table && (NeedsReview(ev) ==> ev.requestID in st.reviews)
    case Finished(ok) => ok ==> Recorded(st, ev)
  }

  lemma CallExtends(st: Stores, ev: ScoringEvent, pc: PC, f: Fault)
    requires ValidPC(ev, pc) && !pc.Finished?
    ensures Extends(st, CallStores(st, ev, pc, f))
  {
  }

  lemma CallProgress(st: Stores, ev: ScoringEvent, pc: PC, f: Fault)
    requires ValidPC(ev, pc) && !pc.Finished? && Progress(st, ev, pc)
    ensures Progress(CallStores(st, ev, pc, f), ev, CallPC(st, ev, pc, f))
  {
  }

  lemma {:induction false} DeliverRecorded(st: Stores, ev: ScoringEvent, pc: PC, fate: nat -> Fault, calls: nat)
    requires ValidPC(ev, pc) && Progress(st, ev, pc)
    ensures var d := Deliver(st, ev, pc, fate, calls); Extends(st, d.0) && (d.2 ==> Recorded(d.0, ev))
    decreases CallsLeft(ev, pc)
  {
    if pc.Finished? {
    } else {
      CallExtends(st, ev, pc, fate(calls));
      CallProgress(st, ev, pc, fate(calls));
      DeliverRecorded(CallStores(st, ev, pc, fate(calls)), ev, CallPC(st, ev, pc, fate(calls)), fate, calls + 1);
    }
  }

  /** One call of a delivery: a failure ends it, anything else takes it to its next call. */
  lemma DeliverCall(st: Stores, ev: ScoringEvent, pc: PC, fate: nat -> Fault, calls: nat)
    requires ValidPC(ev, pc) && !pc.Finished?
    ensures var st', pc' := CallStores(st, ev, pc, fate(calls)), CallPC(st, ev, pc, fate(calls));
            Deliver(st, ev, pc, fate, calls)
            == if pc' == Finished(false) then (st', calls + 1, false) else Deliver(st', ev, pc', fate, calls + 1)
  {
  }

  /** What a delivery does after its audit part: the review queue if it needs one, then the retraining sink. */
  function Notify(st: Stores, ev: ScoringEvent, fate: nat -> Fault, calls: nat): (Stores, nat, bool) {
    var reviewed := if NeedsReview(ev) then st.(reviews := EmitOnce(st.reviews, ev, fate(calls))) else st;
    var next := if NeedsReview(ev) then calls + 1 else calls;
    if NeedsReview(ev) && !EmitOk(fate(calls)) then (reviewed, next, false)
    else (reviewed.(retrained := EmitOnce(reviewed.retrained, ev, fate(next))), next + 1, EmitOk(fate(next)))
  }

  lemma RetrainLast(st: Stores, ev: ScoringEvent, fate: nat -> Fault, calls: nat)
    ensures Deliver(st, ev, AtRetrain, fate, calls)
            == (st.(retrained := EmitOnce(st.retrained, ev, fate(calls))), calls + 1, EmitOk(fate(calls)))
  {
  }

  lemma DeliverNotifies(st: Stores, ev: ScoringEvent, fate: nat -> Fault, calls: nat)
    ensures Deliver(st, ev, AfterAudit(ev), fate, calls) == Notify(st, ev, fate, calls)
    ensures Deliver(st, ev, Finished(false), fate, calls) == (st, calls, false)
  {
    if NeedsReview(ev) {
      var st' := st.(reviews := EmitOnce(st.reviews, ev, fate(calls)));
      RetrainLast(st', ev, fate, calls + 1);
      assert Deliver(st, ev, AtReview, fate, calls)
          == Deliver(st', ev, if EmitOk(fate(calls)) then AtRetrain else Finished(false), fate, calls + 1);
    } else {
      RetrainLast(st, ev, fate, calls);
    }
  }

  // ---- A batch -------------------------------------------------------------------------

  datatype Message = Message(id: string, body: string)

  /** The batch as the fold of `Deliver` over the parsable messages, with one verdict per message. */
  function DeliverAll(st: Stores, events: seq<Option<ScoringEvent>>, fate: nat -> Fault, calls: nat)
    : (r: (Stores, nat, seq<bool>))
    ensures |r.2| == |events|
  {
    if events == [] then (st, calls, [])
    else
      var n := |events| - 1;
      var before := DeliverAll(st, events[..n], fate, calls);
      match events[n]
      case None => (before.0, before.1, before.2 + [false])
      case Some(ev) =>
        var d := Deliver(before.0, ev, AtDecision, fate, before.1);
        (d.0, d.1, before.2 + [d.2])
  }

  /** A message of a batch is reported as done only if it parsed and its effects are in the final state. */
  lemma {:induction false} DoneMeansRecorded(st: Stores, events: seq<Option<ScoringEvent>>, fate: nat -> Fault, calls: nat)
    ensures var run := DeliverAll(st, events, fate, calls);
            && Extends(st, run.0)
            && forall i :: 0 <= i < |events| && run.2[i] ==> events[i].Some? && Recorded(run.0, events[i].value)
  {
    if events == [] {
    } else {
      var n := |events| - 1;
      DoneMeansRecorded(st, events[..n], fate, calls);
      var before := DeliverAll(st, events[..n], fate, calls);
      var run := DeliverAll(st, events, fate, calls);
      if events[n].Some? {
        DeliverRecorded(before.0, events[n].value, AtDecision, fate, before.1);
      }
      forall i | 0 <= i < |events| && run.2[i] ensures events[i].Some? && Recorded(run.0, events[i].value) {
        if i < n {
          assert before.2[i] && events[..n][i] == events[i];
        }
      }
    }
  }

  function Parsed(unmarshal: string -> Option<ScoringEvent>, msgs: seq<Message>): (evs: seq<Option<ScoringEvent>>)
    ensures |evs| == |msgs|
  {
    seq(|msgs|, i requires 0 <= i < |msgs| => unmarshal(msgs[i].body))
  }

  /** The ids whose verdict is false, in order, with repetitions. */
  function FailedIDs(msgs: seq<Message>, ok: seq<bool>): seq<string>
    requires |msgs| == |ok|
  {
    if msgs == [] then []
    else
      var n := |msgs| - 1;
      FailedIDs(msgs[..n], ok[..n]) + (if ok[n] then [] else [msgs[n].id])
  }

  /** An id is reported exactly when some copy of it failed. */
  lemma {:induction false} FailedIffSomeCopyFailed(msgs: seq<Message>, ok: seq<bool>, id: string)
    requires |msgs| == |ok|
    ensures id in FailedIDs(msgs, ok) <==> exists i :: 0 <= i < |msgs| && msgs[i].id == id && !ok[i]
  {
    if msgs == [] {
    } else {
      var n := |msgs| - 1;
      FailedIffSomeCopyFailed(msgs[..n], ok[..n], id);
      if i :| 0 <= i < |msgs| && msgs[i].id == id && !ok[i] {
        if i < n {
          assert msgs[..n][i].id == id && !ok[..n][i];
        }
      }
    }
  }

  ghost predicate PositionsOfFailed(msgs: seq<Message>, ok: seq<bool>, at: seq<nat>)
    requires |msgs| == |ok|
  {
    && |at| == |FailedIDs(msgs, ok)|
    && (forall j :: 0 <= j < |at| ==> at[j] < |msgs| && !ok[at[j]] && FailedIDs(msgs, ok)[j] == msgs[at[j]].id)
    && (forall j, k :: 0 <= j < k < |at| ==> at[j] < at[k])
    && (forall i :: 0 <= i < |msgs| && !ok[i] ==> i in at)
  }

  lemma OneMoreMessage(msgs: seq<Message>, ok: seq<bool>, before: seq<nat>)
    requires |msgs| == |ok| && msgs != []
    requires PositionsOfFailed(msgs[..|msgs| - 1], ok[..|msgs| - 1], before)
    ensures PositionsOfFailed(msgs, ok, before + (if ok[|msgs| - 1] then [] else [|msgs| - 1]))
  {
    var n := |msgs| - 1;
    var at := before + (if ok[n] then [] else [n]);
    assert FailedIDs(msgs, ok) == FailedIDs(msgs[..n], ok[..n]) + (if ok[n] then [] else [msgs[n].id]);
    forall j | 0 <= j < |before| ensures at[j] < n && !ok[at[j]] && FailedIDs(msgs, ok)[j] == msgs[at[j]].id {
      assert at[j] == before[j] && !ok[..n][before[j]];
    }
    forall i | 0 <= i < |msgs| && !ok[i] ensures i in at {
      if i < n {
        assert !ok[..n][i] && i in before;
      } else {
        assert at[|before|] == n;
      }
    }
  }

  /** The report is an order-preserving subsequence: strictly increasing positions, all failed, none missed. */
  lemma {:induction false} FailedPositions(msgs: seq<Message>, ok: seq<bool>) returns (at: seq<nat>)
    requires |msgs| == |ok|
    ensures PositionsOfFailed(msgs, ok, at)
  {
    if msgs == [] {
      at := [];
    } else {
      var n := |msgs| - 1;
      var before := FailedPositions(msgs[..n], ok[..n]);
      OneMoreMessage(msgs, ok, before);
      at := before + (if ok[n] then [] else [n]);
    }
  }

  // ---- The code ------------------------------------------------------------------------

  /** The effects in the order they happened, indexed by request id. */
  function ByID(log: seq<ScoringEvent>): map<string, ScoringEvent> {
    if log == [] then map[] else ByID(log[..|log| - 1])[log[|log| - 1].requestID := log[|log| - 1]]
  }

  predicate OncePerID(log: seq<ScoringEvent>) {
    forall i, j :: 0 <= i < j < |log| ==> log[i].requestID != log[j].requestID
  }

  /** With one effect per request id the index loses nothing: it holds exactly the effects. */
  lemma {:induction false} ByIDIsLog(log: seq<ScoringEvent>)
    requires OncePerID(log)
    ensures forall i :: 0 <= i < |log| ==> log[i].requestID in ByID(log) && ByID(log)[log[i].requestID] == log[i]
    ensures forall r :: r in ByID(log) ==> ByID(log)[r] in log && ByID(log)[r].requestID == r
  {
    if log == [] {
    } else {
      ByIDIsLog(log[..|log| - 1]);
    }
  }

  lemma EffectAppended(log: seq<ScoringEvent>, ev: ScoringEvent)
    requires OncePerID(log) && ev.requestID !in ByID(log)
    ensures OncePerID(log + [ev]) && ByID(log + [ev]) == ByID(log)[ev.requestID := ev]
  {
    ByIDIsLog(log);
    assert (log + [ev])[..|log|] == log;
  }

  /** A review or retraining sink: the first event of a request id takes effect, later ones do not.
      `log` is the effect itself. */
  class DedupSink {
    const net: Net
    var seen: map<string, bool>
    var log: seq<ScoringEvent>

    ghost function Taken(): map<string, ScoringEvent>
      reads this
    {
      ByID(log)
    }

    ghost predicate Valid()
      reads this
    {
      OncePerID(log) && forall r :: (r in seen && seen[r]) <==> r in Taken()
    }

    constructor (net: Net)
      ensures Valid() && this.net == net && log == [] && Taken() == map[]
    {
      this.net := net;
      seen, log := map[], [];
    }

    method Emit(ev: ScoringEvent) returns (ok: bool)
      requires Valid()
      modifies this, net
      ensures Valid() && net.calls == old(net.calls) + 1
      ensures ok == EmitOk(net.fate(old(net.calls)))
      ensures ok <==> net.fate(old(net.calls)) == NoFault || net.fate(old(net.calls)) == Retried
      ensures Taken() == EmitOnce(old(Taken()), ev, net.fate(old(net.calls)))
      ensures log == if ev.requestID in old(Taken()) || net.fate(old(net.calls)) == Lost then old(log) else old(log) + [ev]
    {
      var f := net.Next();
      if f == Lost {
        return false;
      }
      var dup := ev.requestID in seen && seen[ev.requestID];
      seen := seen[ev.requestID := true];
      if !dup {
        EffectAppended(log, ev);
        log := log + [ev];
      }
      ok := f != Unacked;
    }
  }

  class Handler {
    const net: Net
    const audit: DynamoSink
    const review: DedupSink
    const retrain: DedupSink
    const unmarshal: string -> Option<ScoringEvent>

    ghost predicate Valid()
      reads this, review, retrain
    {
      audit.net == net && review.net == net && retrain.net == net && review != retrain
      && review.Valid() && retrain.Valid()
    }

    ghost function View(): Stores
      reads audit, review, retrain
    {
      Stores(audit.table, review.Taken(), retrain.Taken())
    }

    constructor (audit: DynamoSink, review: DedupSink, retrain: DedupSink, unmarshal: string -> Option<ScoringEvent>)
      requires audit.net == review.net == retrain.net && review != retrain && review.Valid() && retrain.Valid()
      ensures Valid() && this.audit == audit && this.review == review && this.retrain == retrain
      ensures this.net == audit.net && this.unmarshal == unmarshal
    {
      this.net, this.audit, this.review, this.retrain, this.unmarshal := audit.net, audit, review, retrain, unmarshal;
    }

    /** Handles a single event: audit record, review queue, retraining sink. True means done. */
    method Process(ev: ScoringEvent) returns (ok: bool)
      requires Valid()
      modifies net, audit, review, retrain
      ensures Valid()
      ensures (View(), net.calls, ok) == Deliver(old(View()), ev, AtDecision, net.fate, old(net.calls))
    {
      var written := WriteAudit(ev);
      if !written {
        return false;
      }
      ok := NotifySinks(ev);
    }

    /** The second half of a delivery: the review queue if the decision needs one, then the retraining sink. */
    method NotifySinks(ev: ScoringEvent) returns (ok: bool)
      requires Valid()
      modifies net, review, retrain
      ensures Valid()
      ensures (View(), net.calls, ok) == Notify(old(View()), ev, net.fate, old(net.calls))
    {
      var enqueued := ReviewIfNeeded(ev);
      if !enqueued {
        return false;
      }
      ok := retrain.Emit(ev);
      assert review.Valid();
    }

    /** MANUAL_REVIEW cases go to the human queue; the others have nothing to do here. */
    method ReviewIfNeeded(ev: ScoringEvent) returns (ok: bool)
      requires Valid()
      modifies net, review
      ensures Valid()
      ensures if NeedsReview(ev)
              then View() == old(View()).(reviews := EmitOnce(old(View()).reviews, ev, net.fate(old(net.calls))))
                   && net.calls == old(net.calls) + 1 && ok == EmitOk(net.fate(old(net.calls)))
              else View() == old(View()) && net.calls == old(net.calls) && ok
    {
      ok := true;
      if ev.decision.decision == MANUAL_REVIEW {
        ok := review.Emit(ev);
      }
    }

    /** The audit part of a delivery. Its postcondition says what is left to do: the two sinks, or to report
        the failure. */
    method WriteAudit(ev: ScoringEvent) returns (ok: bool)
      requires Valid()
      modifies net, audit
      ensures Valid()
      ensures Deliver(old(View()), ev, AtDecision, net.fate, old(net.calls))
              == if ok then Notify(View(), ev, net.fate, net.calls) else (View(), net.calls, false)
    {
      DeliverCall(View(), ev, AtDecision, net.fate, net.calls);
      var reply := audit.PutDecision(ev.decision);
      match reply
      case AlreadyExists =>
        DeliverNotifies(View(), ev, net.fate, net.calls);
        ok := true;
      case Failed =>
        ok := false;
      case Ok =>
        ok := WriteResponses(ev);
    }

    /** The loop of the audit part: a response that is already stored does not stop it, an error does. */
    method WriteResponses(ev: ScoringEvent) returns (ok: bool)
      requires Valid()
      modifies net, audit
      ensures Valid()
      ensures Deliver(old(View()), ev, LoopAt(ev, 0), net.fate, old(net.calls))
              == if ok then Notify(View(), ev, net.fate, net.calls) else (View(), net.calls, false)
    {
      ghost var start := Deliver(View(), ev, LoopAt(ev, 0), net.fate, net.calls);
      var i := 0;
      while i < |ev.providerResponses|
        invariant 0 <= i <= |ev.providerResponses|
        invariant start == Deliver(View(), ev, LoopAt(ev, i), net.fate, net.calls)
      {
        DeliverCall(View(), ev, AtProvider(i), net.fate, net.calls);
        var r := audit.PutProviderResponse(ev.providerResponses[i]);
        if r != Ok && r != AlreadyExists {
          return false;
        }
        i := i + 1;
      }
      DeliverNotifies(View(), ev, net.fate, net.calls);
      ok := true;
    }

    /** Processes a batch and returns the ids that failed, for redelivery. */
    method ProcessBatch(msgs: seq<Message>) returns (failed: seq<string>)
      requires Valid()
      modifies net, audit, review, retrain
      ensures Valid()
      ensures var run := DeliverAll(old(View()), Parsed(unmarshal, msgs), net.fate, old(net.calls));
              View() == run.0 && net.calls == run.1 && failed == FailedIDs(msgs, run.2)
    {
      failed := [];
      ghost var evs := Parsed(unmarshal, msgs);
      var i := 0;
      while i < |msgs|
        invariant 0 <= i <= |msgs| && Valid()
        invariant var run := DeliverAll(old(View()), evs[..i], net.fate, old(net.calls));
                  View() == run.0 && net.calls == run.1 && failed == FailedIDs(msgs[..i], run.2)
      {
        assert evs[..i + 1][..i] == evs[..i] && msgs[..i + 1][..i] == msgs[..i];
        match unmarshal(msgs[i].body) {
          case None =>
            failed := failed + [msgs[i].id];
          case Some(ev) =>
            var ok := Process(ev);
            if !ok {
              failed := failed + [msgs[i].id];
            }
        }
        i := i + 1;
        ghost var run := DeliverAll(old(View()), evs[..i], net.fate, old(net.calls));
        assert run.2[..i - 1] == DeliverAll(old(View()), evs[..i - 1], net.fate, old(net.calls)).2;
      }
      assert evs[..i] == evs && msgs[..i] == msgs;
    }
  }
}
