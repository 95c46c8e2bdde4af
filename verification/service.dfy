/** One scoring request: score it while the observer collects every vendor's response, and publish what was
    decided. The last theorem follows a decision from the vendors' answers to the audit table. */
module Service {
  import opened Domain
  import opened Pipeline
  import opened Audit
  import opened Consumer
  import Sums
  import FanIn
  import Delivery
  import Safety
  import Evidence
  import Confluence

  const COMBINED := "combined"
  const AS_YOU_GO := "as_you_go"

  /** What the service takes from its surroundings: the request id of the context ("" if none), a fresh one,
      the hash of the application, the caller and the clock. */
  datatype Request = Request(contextID: string, generatedID: string, inputHash: string, subject: string, now: int)

  function RequestID(q: Request): string {
    if q.contextID == "" then q.generatedID else q.contextID
  }

  function Response(q: Request, d: RiskData): ProviderRecord {
    ProviderRecord(RequestID(q), q.inputHash, d.source, d.score, d.confidence, q.now)
  }

  function Responses(q: Request, ds: seq<RiskData>): (rs: seq<ProviderRecord>)
    ensures |rs| == |ds|
  {
    seq(|ds|, i requires 0 <= i < |ds| => Response(q, ds[i]))
  }

  function Decision(q: Request, result: ScoreResult): Record {
    Record(RequestID(q), q.inputHash, result.score, result.decision, result.signalsUsed, result.logicVersion,
           q.subject, q.now)
  }

  /** The event of a request whose scoring went through the run that ended in `s`. */
  function EventOf(q: Request, mode: string, s: FanIn.State): ScoringEvent {
    ScoringEvent(RequestID(q), RequestID(q), Decision(q, FanIn.Result(s)), Responses(q, s.observed), mode)
  }

  /** The event written out, field by field. */
  lemma EventExactly(q: Request, mode: string, s: FanIn.State)
    ensures var ev, id, result := EventOf(q, mode, s), if q.contextID == "" then q.generatedID else q.contextID, FanIn.Result(s);
            && ev.eventID == id && ev.requestID == id && ev.decision.requestID == id && ev.persistMode == mode
            && ev.decision.score == result.score && ev.decision.decision == result.decision
            && ev.decision.signalsUsed == result.signalsUsed && ev.decision.logicVersion == result.logicVersion
            && ev.decision.inputHash == q.inputHash && ev.decision.subject == q.subject && ev.decision.timestamp == q.now
    ensures var rs, id := EventOf(q, mode, s).providerResponses, if q.contextID == "" then q.generatedID else q.contextID;
            && |rs| == |s.observed|
            && forall i :: 0 <= i < |rs| ==>
                 && rs[i].requestID == id && rs[i].inputHash == q.inputHash && rs[i].timestamp == q.now
                 && rs[i].source == s.observed[i].source && rs[i].score == s.observed[i].score
                 && rs[i].confidence == s.observed[i].confidence
  {
  }

  // ---- The code ------------------------------------------------------------------------

  /** The closure given to the scorer in as-you-go mode; its calls are serialised by a lock. */
  class Observer {
    const requestID: string
    const inputHash: string
    const now: int
    var providers: seq<ProviderRecord>

    constructor (requestID: string, inputHash: string, now: int)
      ensures this.requestID == requestID && this.inputHash == inputHash && this.now == now && providers == []
    {
      this.requestID, this.inputHash, this.now, providers := requestID, inputHash, now, [];
    }

    method Observe(d: RiskData)
      modifies this
      ensures providers == old(providers) + [ProviderRecord(requestID, inputHash, d.source, d.score, d.confidence, now)]
    {
      providers := providers + [ProviderRecord(requestID, inputHash, d.source, d.score, d.confidence, now)];
    }
  }

  /** The queue as the producer sees it. A publish may put any number of copies on the queue and still report
      an error; without an error there is at least one. */
  class Publisher {
    var queue: seq<ScoringEvent>

    constructor ()
      ensures queue == []
    {
      queue := [];
    }

    method Publish(ev: ScoringEvent, copies: nat, failed: bool) returns (ok: bool)
      requires !failed ==> copies > 0
      modifies this
      ensures ok == !failed && queue == old(queue) + seq(copies, _ => ev)
    {
      queue := queue + seq(copies, _ => ev);
      ok := !failed;
    }
  }

  /** The reports that an action of the scorer hands to the observer. */
  function Reported(s: FanIn.State, a: FanIn.Action): seq<RiskData>
    requires FanIn.Enabled(s, a)
  {
    if a.Observe? then [s.senders[a.i].data] else if a.ObserveDependent? then [s.main.data] else []
  }

  lemma ObservedGrows(s: FanIn.State, a: FanIn.Action)
    requires FanIn.Enabled(s, a)
    ensures FanIn.Apply(s, a).observed == s.observed + Reported(s, a)
  {
  }

  lemma RunTail(s: FanIn.State, acts: seq<FanIn.Action>, i: nat)
    requires i < |acts| && FanIn.ValidRun(s, acts[i..])
    ensures FanIn.Enabled(s, acts[i]) && FanIn.ValidRun(FanIn.Apply(s, acts[i]), acts[i + 1..])
    ensures FanIn.Run(s, acts[i..]) == FanIn.Run(FanIn.Apply(s, acts[i]), acts[i + 1..])
  {
    assert acts[i..][0] == acts[i] && acts[i..][1..] == acts[i + 1..];
  }

  lemma ResponsesAppend(q: Request, a: seq<RiskData>, b: seq<RiskData>)
    ensures Responses(q, a + b) == Responses(q, a) + Responses(q, b)
  {
  }

  lemma ObservedResponses(q: Request, s: FanIn.State, a: FanIn.Action)
    requires FanIn.Enabled(s, a)
    ensures Responses(q, FanIn.Apply(s, a).observed) == Responses(q, s.observed) + Responses(q, Reported(s, a))
  {
    ObservedGrows(s, a);
    ResponsesAppend(q, s.observed, Reported(s, a));
  }

  method Report(s: FanIn.State, a: FanIn.Action, obs: Observer?)
    requires FanIn.Enabled(s, a)
    modifies obs
    ensures obs != null ==> obs.providers == old(obs.providers) + ResponsesOf(obs, Reported(s, a))
  {
    if obs != null {
      if a.Observe? {
        obs.Observe(s.senders[a.i].data);
      } else if a.ObserveDependent? {
        obs.Observe(s.main.data);
      }
    }
  }

  /** Drives the scorer through one interleaving, calling the observer where the scorer does. */
  method ScoreObserved(cfg: Config, hasDependent: bool, n: nat, acts: seq<FanIn.Action>, obs: Observer?)
    returns (result: ScoreResult)
    requires FanIn.ValidRun(FanIn.Init(cfg, obs != null, hasDependent, n), acts)
    modifies obs
    ensures result == FanIn.Result(FanIn.Run(FanIn.Init(cfg, obs != null, hasDependent, n), acts))
    ensures obs != null ==>
              obs.providers == old(obs.providers)
                               + ResponsesOf(obs, FanIn.Run(FanIn.Init(cfg, true, hasDependent, n), acts).observed)
  {
    var s := FanIn.Init(cfg, obs != null, hasDependent, n);
    ghost var start := s;
    var i := 0;
    while i < |acts|
      invariant 0 <= i <= |acts|
      invariant FanIn.ValidRun(s, acts[i..]) && FanIn.Run(s, acts[i..]) == FanIn.Run(start, acts)
      invariant s.cfg == cfg && s.withObserver == (obs != null)
      invariant obs != null ==> obs.providers == old(obs.providers) + ResponsesOf(obs, s.observed)
    {
      RunTail(s, acts, i);
      Report(s, acts[i], obs);
      if obs != null {
        ObservedResponses(AsRequest(obs), s, acts[i]);
      }
      s := FanIn.Apply(s, acts[i]);
      i := i + 1;
    }
    assert FanIn.Run(s, []) == s;
    result := Decide(cfg, s.collected);
  }

  /** The request as far as its observer knows it. */
  ghost function AsRequest(obs: Observer): Request {
    Request(obs.requestID, obs.requestID, obs.inputHash, "", obs.now)
  }

  ghost function ResponsesOf(obs: Observer, ds: seq<RiskData>): seq<ProviderRecord> {
    Responses(AsRequest(obs), ds)
  }

  class ScoringService {
    const cfg: Config
    const providers: nat
    const hasDependent: bool
    const publisher: Publisher
    const mode: string

    constructor (cfg: Config, providers: nat, hasDependent: bool, publisher: Publisher, mode: string)
      ensures this.cfg == cfg && this.providers == providers && this.hasDependent == hasDependent
      ensures this.publisher == publisher && this.mode == if mode == "" then "combined" else mode
    {
      this.cfg, this.providers, this.hasDependent, this.publisher := cfg, providers, hasDependent, publisher;
      this.mode := if mode == "" then COMBINED else mode;
    }

    /** Builds the event of this answer and publishes it. A failed publish does not change the answer. */
    method PublishAnswer(q: Request, reqID: string, result: ScoreResult, responses: seq<ProviderRecord>, copies: nat, failed: bool)
      requires !failed ==> copies > 0
      modifies publisher
      ensures publisher.queue
              == old(publisher.queue)
                 + seq(copies, _ => ScoringEvent(reqID, reqID,
                                                 Record(reqID, q.inputHash, result.score, result.decision, result.signalsUsed,
                                                        result.logicVersion, q.subject, q.now),
                                                 responses, mode))
    {
      var ev := ScoringEvent(reqID, reqID,
                             Record(reqID, q.inputHash, result.score, result.decision, result.signalsUsed,
                                    result.logicVersion, q.subject, q.now),
                             responses, mode);
      var ok := publisher.Publish(ev, copies, failed);
      assert seq(copies, _ => ev)
          == seq(copies, _ => ScoringEvent(reqID, reqID,
                                           Record(reqID, q.inputHash, result.score, result.decision, result.signalsUsed,
                                                  result.logicVersion, q.subject, q.now),
                                           responses, mode));
    }

    /** `acts` is the interleaving up to the moment the event is built: the scorer has returned, providers it
        stopped waiting for may have been observed since. */
    method Score(q: Request, acts: seq<FanIn.Action>, copies: nat, failed: bool) returns (result: ScoreResult)
      requires FanIn.ValidRun(FanIn.Init(cfg, mode == AS_YOU_GO, hasDependent, providers), acts)
      requires FanIn.Run(FanIn.Init(cfg, mode == AS_YOU_GO, hasDependent, providers), acts).main.Returned?
      requires !failed ==> copies > 0
      modifies publisher
      ensures result == FanIn.Result(FanIn.Run(FanIn.Init(cfg, mode == AS_YOU_GO, hasDependent, providers), acts))
      ensures |publisher.queue| == |old(publisher.queue)| + copies
      ensures forall k :: 0 <= k < |old(publisher.queue)| ==> publisher.queue[k] == old(publisher.queue)[k]
      ensures var s := FanIn.Run(FanIn.Init(cfg, mode == AS_YOU_GO, hasDependent, providers), acts);
              forall k :: |old(publisher.queue)| <= k < |publisher.queue| ==> publisher.queue[k] == EventOf(q, mode, s)
      ensures forall k :: |old(publisher.queue)| <= k < |publisher.queue| ==>
                var ev, id := publisher.queue[k], if q.contextID == "" then q.generatedID else q.contextID;
                && ev.eventID == id && ev.requestID == id && ev.decision.requestID == id && ev.persistMode == mode
                && ev.decision.score == result.score && ev.decision.decision == result.decision
                && ev.decision.signalsUsed == result.signalsUsed && ev.decision.logicVersion == result.logicVersion
                && ev.decision.inputHash == q.inputHash && ev.decision.subject == q.subject && ev.decision.timestamp == q.now
                && (mode != "as_you_go" ==> ev.providerResponses == [])
    {
      var reqID := q.contextID;
      if reqID == "" {
        reqID := q.generatedID;
      }
      var obs: Observer? := null;
      if mode == AS_YOU_GO {
        obs := new Observer(reqID, q.inputHash, q.now);
      }
      ghost var s := FanIn.Run(FanIn.Init(cfg, mode == AS_YOU_GO, hasDependent, providers), acts);
      result := ScoreObserved(cfg, hasDependent, providers, acts, obs);
      var responses := [];
      if obs != null {
        responses := obs.providers;
      } else {
        NothingObserved(FanIn.Init(cfg, false, hasDependent, providers), acts);
      }
      assert responses == Responses(q, s.observed);
      PublishAnswer(q, reqID, result, responses, copies, failed);
    }
  }

  /** Without an observer nothing is observed, so the event of combined mode carries no responses. */
  lemma {:induction false} NothingObserved(s: FanIn.State, acts: seq<FanIn.Action>)
    requires FanIn.ValidRun(s, acts) && !s.withObserver && s.observed == []
    requires forall i :: 0 <= i < |s.senders| ==> !s.senders[i].Observing?
    requires !s.main.ObservingDependent?
    ensures FanIn.Run(s, acts).observed == []
    decreases |acts|
  {
    if acts == [] {
    } else {
      NothingObserved(FanIn.Apply(s, acts[0]), acts[1..]);
    }
  }

  // ---- What the event carries ----------------------------------------------------------

  /** The event has the shape the consumer relies on: one request id everywhere. */
  lemma EventHasOneID(q: Request, mode: string, s: FanIn.State)
    ensures Evidence.SameIDs(EventOf(q, mode, s))
    ensures EventOf(q, mode, s).eventID == EventOf(q, mode, s).requestID == RequestID(q)
  {
  }

  /** A used source comes from a collected report. */
  lemma UsedSourceWasCollected(cfg: Config, collected: seq<RiskData>, source: string) returns (i: nat)
    requires source in Verdict(cfg, collected).signalsUsed
    ensures i < |collected| && collected[i].source == source
  {
    assert source in multiset(Verdict(cfg, collected).signalsUsed);
    assert source in multiset(Sums.Sources(collected));
    i :| 0 <= i < |collected| && Sums.Sources(collected)[i] == source;
  }

  /** Evidence coverage: in as-you-go mode the event carries, for each source the decision used, a response
      with the request id and input hash of the decision; and it carries every collected report as it was. */
  lemma {:induction false} EvidenceCoverage(q: Request, cfg: Config, hasDependent: bool, n: nat, acts: seq<FanIn.Action>)
    requires FanIn.ValidRun(FanIn.Init(cfg, true, hasDependent, n), acts)
    requires FanIn.Run(FanIn.Init(cfg, true, hasDependent, n), acts).main.Returned?
    ensures var s := FanIn.Run(FanIn.Init(cfg, true, hasDependent, n), acts);
            var ev := EventOf(q, AS_YOU_GO, s);
            && (forall d :: d in s.collected ==>
                  exists i :: 0 <= i < |ev.providerResponses| &&
                    var r := ev.providerResponses[i];
                    r.source == d.source && r.score == d.score && r.confidence == d.confidence
                    && r.inputHash == q.inputHash && r.requestID == ev.requestID)
            && (forall d :: d in s.collected ==> Response(q, d) in ev.providerResponses)
            && forall source :: source in ev.decision.signalsUsed ==>
                 exists i :: 0 <= i < |ev.providerResponses| && ev.providerResponses[i].source == source
                             && ev.providerResponses[i].requestID == ev.decision.requestID
                             && ev.providerResponses[i].inputHash == ev.decision.inputHash
  {
    FanIn.CollectedIsObserved(cfg, hasDependent, n, acts);
    var s := FanIn.Run(FanIn.Init(cfg, true, hasDependent, n), acts);
    var ev := EventOf(q, AS_YOU_GO, s);
    forall d | d in s.collected ensures Response(q, d) in ev.providerResponses {
      assert multiset(s.observed)[d] >= multiset(s.collected)[d] > 0;
      var i :| 0 <= i < |s.observed| && s.observed[i] == d;
      assert ev.providerResponses[i] == Response(q, d);
    }
    forall source | source in ev.decision.signalsUsed
      ensures exists i :: 0 <= i < |ev.providerResponses| && ev.providerResponses[i].source == source
                          && ev.providerResponses[i].requestID == ev.decision.requestID
                          && ev.providerResponses[i].inputHash == ev.decision.inputHash
    {
      var c := UsedSourceWasCollected(cfg, s.collected, source);
      assert s.collected[c] in s.collected;
      var i :| 0 <= i < |ev.providerResponses| && ev.providerResponses[i] == Response(q, s.collected[c]);
    }
  }

  // ---- From the vendors to the audit table ---------------------------------------------

  lemma {:induction false} LookupIsResponse(rs: seq<ProviderRecord>, n: nat, source: string)
    requires n <= |rs| && Evidence.Lookup(rs, n, source).Some?
    ensures Evidence.Lookup(rs, n, source).value.source == source
    ensures Evidence.Lookup(rs, n, source).value in rs
  {
    if !(rs[n - 1].source == source && Evidence.Lookup(rs, n - 1, source).None?) {
      LookupIsResponse(rs, n - 1, source);
    }
  }

  /** All other producers of messages keep to one id per event; for its own event the service shows it. */
  ghost predicate OthersShaped(pub: seq<Option<ScoringEvent>>, ev: ScoringEvent) {
    forall m :: 0 <= m < |pub| && pub[m].Some? && pub[m].value != ev ==> Evidence.SameIDs(pub[m].value)
  }

  lemma DeletedEvent(pub: seq<Option<ScoringEvent>>, workers: nat, acts: seq<Delivery.Action>, ev: ScoringEvent)
    requires Evidence.ProducerShaped(pub) && Confluence.AgreeOn(pub, ev.requestID)
    requires Delivery.ValidRun(Delivery.Init(pub, workers), acts)
    requires Confluence.CopyDeleted(Delivery.Run(Delivery.Init(pub, workers), acts), ev)
    ensures var s := Delivery.Run(Delivery.Init(pub, workers), acts);
            && Evidence.SameIDs(ev) && Recorded(s.stores, ev)
            && s.stores.table[DecisionKey(ev.requestID)] == DecisionItem(ev.decision)
            && ev.requestID in s.won && Evidence.WinnersResponses(s, ev.requestID) == ev.providerResponses
            && s.stores.retrained[ev.requestID] == ev
            && (ev.requestID in s.stores.reviews <==> NeedsReview(ev))
            && (NeedsReview(ev) ==> s.stores.reviews[ev.requestID] == ev)
  {
    var r := ev.requestID;
    Confluence.InvariantsFromInit(pub, workers, acts);
    var s := Delivery.Run(Delivery.Init(pub, workers), acts);
    var m: nat :| m in s.deleted && m < |s.pub| && s.pub[m] == Some(ev);
    assert Safety.Done(s, m) && Evidence.SameIDs(ev);
    assert Evidence.RequestOk(s, r) && Evidence.WinOk(s, r);
    assert s.pub[s.won[r].msg] == Some(ev);
    var n :| 0 <= n < |s.pub| && s.pub[n] == Some(s.stores.retrained[r]);
    if r in s.stores.reviews {
      var k :| 0 <= k < |s.pub| && s.pub[k] == Some(s.stores.reviews[r]);
    }
  }

  /** The provider rows of one event when nothing harmed its evidence. */
  lemma AllRowsStored(pub: seq<Option<ScoringEvent>>, workers: nat, acts: seq<Delivery.Action>, ev: ScoringEvent)
    requires Evidence.ProducerShaped(pub) && Confluence.AgreeOn(pub, ev.requestID)
    requires Delivery.ValidRun(Delivery.Init(pub, workers), acts)
    requires Confluence.CopyDeleted(Delivery.Run(Delivery.Init(pub, workers), acts), ev)
    requires forall w: nat :: !Evidence.InLoop(Delivery.Run(Delivery.Init(pub, workers), acts), w, ev.requestID)
    requires !Evidence.HarmfulRun(Delivery.Init(pub, workers), acts, ev.requestID)
    ensures var t := Delivery.Run(Delivery.Init(pub, workers), acts).stores.table;
            Evidence.RowsArePrefix(pub, t, ev.requestID, ev.providerResponses, |ev.providerResponses|)
  {
    var r := ev.requestID;
    DeletedEvent(pub, workers, acts, ev);
    Confluence.InvariantsFromInit(pub, workers, acts);
    Evidence.HarmedIsHarmfulRun(Delivery.Init(pub, workers), acts, r);
    var s := Delivery.Run(Delivery.Init(pub, workers), acts);
    assert Evidence.RequestOk(s, r);
    Confluence.UnharmedIsComplete(s, r);
  }

  lemma ShapedWithOwnEvent(q: Request, mode: string, s: FanIn.State, pub: seq<Option<ScoringEvent>>)
    requires OthersShaped(pub, EventOf(q, mode, s))
    ensures Evidence.ProducerShaped(pub)
  {
    EventHasOneID(q, mode, s);
  }

  /** From the answer to its effects, for all faults and crashes: score in either mode, publish any number of
      copies next to any other messages, also under the same id. Once a copy has been deleted, the table holds
      exactly the decision that was answered if all events of the id carry it; and if all are equal to this
      one, the sinks hold it, the review queue exactly if the answer was to review. */
  lemma EveryAnswerIsRecorded(q: Request, mode: string, s: FanIn.State,
                              pub: seq<Option<ScoringEvent>>, workers: nat, delivery: seq<Delivery.Action>)
    requires OthersShaped(pub, EventOf(q, mode, s))
    requires Delivery.ValidRun(Delivery.Init(pub, workers), delivery)
    requires Confluence.CopyDeleted(Delivery.Run(Delivery.Init(pub, workers), delivery), EventOf(q, mode, s))
    ensures var st := Delivery.Run(Delivery.Init(pub, workers), delivery).stores;
            var ev := EventOf(q, mode, s);
            && (Confluence.OneDecision(pub, ev) ==>
                  && DecisionKey(RequestID(q)) in st.table && st.table[DecisionKey(RequestID(q))].DecisionItem?
                  && var row, answer := st.table[DecisionKey(RequestID(q))].decision, FanIn.Result(s);
                     && row.requestID == RequestID(q) && row.inputHash == q.inputHash
                     && row.score == answer.score && row.decision == answer.decision
                     && row.signalsUsed == answer.signalsUsed && row.logicVersion == answer.logicVersion
                     && row.subject == q.subject && row.timestamp == q.now)
            && (Confluence.OneEvent(pub, ev) ==>
                  && RequestID(q) in st.retrained && st.retrained[RequestID(q)] == ev
                  && (RequestID(q) in st.reviews <==> FanIn.Result(s).decision == MANUAL_REVIEW)
                  && (RequestID(q) in st.reviews ==> st.reviews[RequestID(q)] == ev))
  {
    var ev := EventOf(q, mode, s);
    ShapedWithOwnEvent(q, mode, s, pub);
    Confluence.DeletedStands(pub, workers, delivery, ev);
    if Confluence.OneEvent(pub, ev) {
      DeletedEvent(pub, workers, delivery, ev);
    }
  }

  /** And only then: in every run that deletes a copy of the event, the decision row is the answer if and only
      if all events published under its id carry this decision, and likewise for the two sinks. */
  lemma AnswerIsRecordedExactly(q: Request, mode: string, s: FanIn.State, pub: seq<Option<ScoringEvent>>)
    requires OthersShaped(pub, EventOf(q, mode, s)) && Confluence.Published(pub, EventOf(q, mode, s))
    ensures var ev := EventOf(q, mode, s);
            && (Confluence.Always(pub, ev, Confluence.RowIsOf) <==> Confluence.OneDecision(pub, ev))
            && (Confluence.Always(pub, ev, Confluence.RetrainedIs) <==> Confluence.OneEvent(pub, ev))
            && (FanIn.Result(s).decision == MANUAL_REVIEW ==>
                  (Confluence.Always(pub, ev, Confluence.ReviewIs) <==> Confluence.OneReview(pub, ev)))
  {
    ShapedWithOwnEvent(q, mode, s, pub);
    Confluence.RecordedExactly(pub, EventOf(q, mode, s));
  }

  /** From the answer to its evidence: score in as-you-go mode, publish any number of copies next to any other
      messages (also unparsable, dead-lettered or undelivered ones). Once a copy has been deleted, nobody is
      writing its responses and no action was harmful to them, the table holds for each source it used a
      response with the same request id and input hash, under every key that no other request shares; with
      distinct sources it is the very report that was aggregated. */
  lemma {:induction false} EveryAnswerIsEvidenced(q: Request, cfg: Config, hasDependent: bool, n: nat, scoring: seq<FanIn.Action>,
                               pub: seq<Option<ScoringEvent>>, workers: nat, delivery: seq<Delivery.Action>)
    requires FanIn.ValidRun(FanIn.Init(cfg, true, hasDependent, n), scoring)
    requires FanIn.Run(FanIn.Init(cfg, true, hasDependent, n), scoring).main.Returned?
    requires OthersShaped(pub, EventOf(q, AS_YOU_GO, FanIn.Run(FanIn.Init(cfg, true, hasDependent, n), scoring)))
    requires Confluence.AgreeOn(pub, RequestID(q))
    requires Delivery.ValidRun(Delivery.Init(pub, workers), delivery)
    requires Confluence.CopyDeleted(Delivery.Run(Delivery.Init(pub, workers), delivery),
                         EventOf(q, AS_YOU_GO, FanIn.Run(FanIn.Init(cfg, true, hasDependent, n), scoring)))
    requires forall w: nat :: !Evidence.InLoop(Delivery.Run(Delivery.Init(pub, workers), delivery), w, RequestID(q))
    requires !Evidence.HarmfulRun(Delivery.Init(pub, workers), delivery, RequestID(q))
    ensures var s := FanIn.Run(FanIn.Init(cfg, true, hasDependent, n), scoring);
            var t := Delivery.Run(Delivery.Init(pub, workers), delivery).stores.table;
            && (forall source :: source in FanIn.Result(s).signalsUsed && Evidence.Separate(pub, RequestID(q), source)
                  ==> var pk := ProviderKey(RequestID(q), source);
                      && pk in t && t[pk].ProviderItem? && t[pk].response.source == source
                      && t[pk].response.requestID == RequestID(q) && t[pk].response.inputHash == q.inputHash)
            && (Evidence.DistinctSources(Responses(q, s.observed)) ==>
                  forall d :: d in s.collected && Evidence.Separate(pub, RequestID(q), d.source) ==>
                    var pk := ProviderKey(RequestID(q), d.source);
                    && pk in t && t[pk].ProviderItem? && t[pk].response.source == d.source
                    && t[pk].response.score == d.score && t[pk].response.confidence == d.confidence)
  {
    var s := FanIn.Run(FanIn.Init(cfg, true, hasDependent, n), scoring);
    var ev := EventOf(q, AS_YOU_GO, s);
    var t := Delivery.Run(Delivery.Init(pub, workers), delivery).stores.table;
    ShapedWithOwnEvent(q, AS_YOU_GO, s, pub);
    AllRowsStored(pub, workers, delivery, ev);
    EvidenceCoverage(q, cfg, hasDependent, n, scoring);
    forall source | source in FanIn.Result(s).signalsUsed && Evidence.Separate(pub, RequestID(q), source)
      ensures SourceEvidenced(t, q, source)
    {
      StoredSource(pub, t, q, ev, source);
    }
    if Evidence.DistinctSources(ev.providerResponses) {
      forall d | d in s.collected && Evidence.Separate(pub, RequestID(q), d.source) ensures ReportStored(t, q, d) {
        var i :| 0 <= i < |ev.providerResponses| && ev.providerResponses[i] == Response(q, d);
        Evidence.LookupDistinct(ev.providerResponses, |ev.providerResponses|, i);
        assert Evidence.RowIs(t, ev.requestID, ev.providerResponses, |ev.providerResponses|, d.source);
      }
    }
  }

  predicate SourceEvidenced(t: Table, q: Request, source: string) {
    var pk := ProviderKey(RequestID(q), source);
    && pk in t && t[pk].ProviderItem?
    && t[pk].response.source == source && t[pk].response.requestID == RequestID(q)
    && t[pk].response.inputHash == q.inputHash
  }

  predicate ReportStored(t: Table, q: Request, d: RiskData) {
    ProviderKey(RequestID(q), d.source) in t && t[ProviderKey(RequestID(q), d.source)] == ProviderItem(Response(q, d))
  }

  lemma StoredSource(pub: seq<Option<ScoringEvent>>, t: Table, q: Request, ev: ScoringEvent, source: string)
    requires ev.requestID == RequestID(q)
    requires forall i :: 0 <= i < |ev.providerResponses| ==>
               ev.providerResponses[i].requestID == RequestID(q) && ev.providerResponses[i].inputHash == q.inputHash
    requires exists i :: 0 <= i < |ev.providerResponses| && ev.providerResponses[i].source == source
    requires Evidence.RowsArePrefix(pub, t, ev.requestID, ev.providerResponses, |ev.providerResponses|)
    requires Evidence.Separate(pub, ev.requestID, source)
    ensures SourceEvidenced(t, q, source)
  {
    Evidence.LookupSome(ev.providerResponses, |ev.providerResponses|, source);
    LookupIsResponse(ev.providerResponses, |ev.providerResponses|, source);
    assert Evidence.RowIs(t, ev.requestID, ev.providerResponses, |ev.providerResponses|, source);
  }
}
