/** The final stores do not depend on the schedule: neither on delivery order, duplication and interleaving,
    nor on the number of workers. Everything is said request by request, so what becomes of other messages
    (unparsable, dead-lettered, still in flight) does not matter. */
module Confluence {
  import opened Domain
  import opened Audit
  import opened Consumer
  import opened Delivery
  import opened Safety
  import opened Evidence
  import opened Sequential

  /** All messages with this request id carry the same event. */
  ghost predicate AgreeOn(pub: seq<Option<ScoringEvent>>, r: string) {
    forall i, j ::
      0 <= i < |pub| && 0 <= j < |pub| && pub[i].Some? && pub[j].Some?
      && pub[i].value.requestID == r && pub[j].value.requestID == r
      ==> pub[i] == pub[j]
  }

  predicate Published(pub: seq<Option<ScoringEvent>>, ev: ScoringEvent) {
    exists m :: 0 <= m < |pub| && pub[m] == Some(ev)
  }

  /** Some message of the request has been deleted. */
  ghost predicate SomeDeleted(s: State, r: string) {
    exists m: nat :: m in s.deleted && m < |s.pub| && s.pub[m].Some? && s.pub[m].value.requestID == r
  }

  /** The request is dealt with: a copy is deleted and nobody is writing its responses. */
  ghost predicate Settled(s: State, r: string) {
    SomeDeleted(s, r) && forall w: nat :: !InLoop(s, w, r)
  }

  /** Every request with a parsable message is dealt with. */
  ghost predicate AllSettled(s: State) {
    forall m :: 0 <= m < |s.pub| && s.pub[m].Some? ==> Settled(s, s.pub[m].value.requestID)
  }

  // ---- Nothing gets into the stores that was not published ------------------------------

  ghost predicate SinkOk(pub: seq<Option<ScoringEvent>>, seen: map<string, ScoringEvent>, reviews: bool) {
    forall r :: r in seen ==>
      seen[r].requestID == r && Published(pub, seen[r]) && (reviews ==> NeedsReview(seen[r]))
  }

  predicate PublishedResponse(pub: seq<Option<ScoringEvent>>, m: int, i: int) {
    0 <= m < |pub| && pub[m].Some? && 0 <= i < |pub[m].value.providerResponses|
  }

  /** Every row is a decision row, or under the key of a published response. */
  ghost predicate KeyOk(s: State, pk: string) {
    || (exists r :: r in s.won && pk == DecisionKey(r))
    || (exists m, i :: PublishedResponse(s.pub, m, i) && pk == ResponseKey(s.pub[m].value, i))
  }

  ghost predicate OriginOk(s: State) {
    && SinkOk(s.pub, s.stores.reviews, true) && SinkOk(s.pub, s.stores.retrained, false)
    && forall pk :: pk in s.stores.table ==> KeyOk(s, pk)
  }

  lemma KeyStaysOk(s: State, s': State, pk: string)
    requires KeyOk(s, pk) && s'.pub == s.pub && forall r :: r in s.won ==> r in s'.won
    ensures KeyOk(s', pk)
  {
    if r :| r in s.won && pk == DecisionKey(r) {
      assert r in s'.won;
    }
  }

  lemma OriginStepOfWorker(s: State, w: nat, f: Fault)
    requires EvidenceInv(s) && OriginOk(s) && Processing(s, w)
    ensures OriginOk(ApplyStep(s, w, f))
  {
    var s', m, k := ApplyStep(s, w, f), Current(s, w), s.workers[w];
    if s.pub[m].Some? {
      var ev := s.pub[m].value;
      assert Published(s.pub, ev);
      forall pk | pk in s'.stores.table ensures KeyOk(s', pk) {
        if pk in s.stores.table {
          KeyStaysOk(s, s', pk);
        } else if k.pc.AtDecision? {
          assert ev.requestID in s'.won && pk == DecisionKey(ev.requestID);
        } else {
          assert PublishedResponse(s'.pub, m, k.pc.k) && pk == ResponseKey(ev, k.pc.k);
        }
      }
    } else {
      forall pk | pk in s'.stores.table ensures KeyOk(s', pk) {
        KeyStaysOk(s, s', pk);
      }
    }
  }

  lemma {:induction false} OriginStep(s: State, a: Action)
    requires EvidenceInv(s) && OriginOk(s) && Enabled(s, a)
    ensures OriginOk(Apply(s, a))
  {
    if a.Step? {
      OriginStepOfWorker(s, a.w, a.f);
    } else {
      forall pk | pk in Apply(s, a).stores.table ensures KeyOk(Apply(s, a), pk) {
        KeyStaysOk(s, Apply(s, a), pk);
      }
    }
  }

  /** All invariants of a run, from the start. */
  lemma {:induction false} InvariantsOfRun(s: State, acts: seq<Action>)
    requires EvidenceInv(s) && OriginOk(s) && Safe(s) && ValidRun(s, acts)
    ensures var s' := Run(s, acts); EvidenceInv(s') && OriginOk(s') && Safe(s') && s'.pub == s.pub
    decreases |acts|
  {
    if acts == [] {
    } else {
      EvidenceStep(s, acts[0]);
      OriginStep(s, acts[0]);
      SafeStep(s, acts[0]);
      InvariantsOfRun(Apply(s, acts[0]), acts[1..]);
    }
  }

  lemma InvariantsFromInit(pub: seq<Option<ScoringEvent>>, workers: nat, acts: seq<Action>)
    requires ProducerShaped(pub) && ValidRun(Init(pub, workers), acts)
    ensures var s := Run(Init(pub, workers), acts); EvidenceInv(s) && OriginOk(s) && Safe(s) && s.pub == pub
  {
    EvidenceInit(pub, workers);
    InvariantsOfRun(Init(pub, workers), acts);
  }

  // ---- Two runs, one request -----------------------------------------------------------

  predicate SameEntry(x: map<string, ScoringEvent>, y: map<string, ScoringEvent>, r: string) {
    (r in x <==> r in y) && (r in x ==> x[r] == y[r])
  }

  /** Where both have something of request `r`, it is the same. */
  predicate Compatible(x: Stores, y: Stores, r: string) {
    && (DecisionKey(r) in x.table && DecisionKey(r) in y.table ==> x.table[DecisionKey(r)] == y.table[DecisionKey(r)])
    && (r in x.reviews && r in y.reviews ==> x.reviews[r] == y.reviews[r])
    && (r in x.retrained && r in y.retrained ==> x.retrained[r] == y.retrained[r])
  }

  /** The decision, the review and the retraining event of `r` are the same. */
  predicate SameEffects(x: Stores, y: Stores, r: string) {
    SameRow(x.table, y.table, DecisionKey(r)) && SameEntry(x.reviews, y.reviews, r) && SameEntry(x.retrained, y.retrained, r)
  }

  lemma StatesCompatible(s: State, t: State, r: string)
    requires s.pub == t.pub && AgreeOn(s.pub, r)
    requires EvidenceInv(s) && OriginOk(s) && EvidenceInv(t) && OriginOk(t)
    ensures Compatible(s.stores, t.stores, r)
    ensures r in s.won && r in t.won ==> WinnersResponses(s, r) == WinnersResponses(t, r)
  {
    assert RequestOk(s, r) && RequestOk(t, r);
    assert r in s.won ==> WinOk(s, r);
    assert r in t.won ==> WinOk(t, r);
    SameEvent(s.pub, s.stores.reviews, t.stores.reviews, true, r);
    SameEvent(s.pub, s.stores.retrained, t.stores.retrained, false, r);
  }

  lemma SameEvent(pub: seq<Option<ScoringEvent>>, x: map<string, ScoringEvent>, y: map<string, ScoringEvent>, reviews: bool, r: string)
    requires AgreeOn(pub, r) && SinkOk(pub, x, reviews) && SinkOk(pub, y, reviews)
    ensures r in x && r in y ==> x[r] == y[r]
  {
    if r in x && r in y {
      var m :| 0 <= m < |pub| && pub[m] == Some(x[r]);
      var n :| 0 <= n < |pub| && pub[n] == Some(y[r]);
    }
  }

  /** Two runs never disagree: in any two reachable states, whatever the faults and however far the runs have
      come, the decision row, the review and the retraining event of a request are equal where both exist. */
  lemma NeverDisagree(pub: seq<Option<ScoringEvent>>, n1: nat, acts1: seq<Action>, n2: nat, acts2: seq<Action>, r: string)
    requires ProducerShaped(pub) && AgreeOn(pub, r)
    requires ValidRun(Init(pub, n1), acts1) && ValidRun(Init(pub, n2), acts2)
    ensures Compatible(Run(Init(pub, n1), acts1).stores, Run(Init(pub, n2), acts2).stores, r)
  {
    InvariantsFromInit(pub, n1, acts1);
    InvariantsFromInit(pub, n2, acts2);
    StatesCompatible(Run(Init(pub, n1), acts1), Run(Init(pub, n2), acts2), r);
  }

  /** A deleted copy left exactly the effects of its event. */
  lemma DeletedMeansEffects(s: State, r: string) returns (ev: ScoringEvent)
    requires AgreeOn(s.pub, r) && EvidenceInv(s) && OriginOk(s) && Safe(s) && SomeDeleted(s, r)
    ensures ev.requestID == r && Published(s.pub, ev)
    ensures DecisionKey(r) in s.stores.table && r in s.stores.retrained && (r in s.stores.reviews <==> NeedsReview(ev))
  {
    var m: nat :| m in s.deleted && m < |s.pub| && s.pub[m].Some? && s.pub[m].value.requestID == r;
    ev := s.pub[m].value;
    assert Done(s, m) && SameIDs(ev);
    if r in s.stores.reviews {
      var n :| 0 <= n < |s.pub| && s.pub[n] == Some(s.stores.reviews[r]);
    }
  }

  lemma SameEffectsOfStates(s: State, t: State, r: string)
    requires s.pub == t.pub && AgreeOn(s.pub, r)
    requires EvidenceInv(s) && OriginOk(s) && Safe(s) && SomeDeleted(s, r)
    requires EvidenceInv(t) && OriginOk(t) && Safe(t) && SomeDeleted(t, r)
    ensures SameEffects(s.stores, t.stores, r) && DecisionKey(r) in s.stores.table
    ensures r in s.won && r in t.won && WinnersResponses(s, r) == WinnersResponses(t, r)
  {
    var ev1 := DeletedMeansEffects(s, r);
    var ev2 := DeletedMeansEffects(t, r);
    StatesCompatible(s, t, r);
    assert RequestOk(s, r) && RequestOk(t, r);
    var m :| 0 <= m < |s.pub| && s.pub[m] == Some(ev1);
    var n :| 0 <= n < |s.pub| && s.pub[n] == Some(ev2);
    assert ev1 == ev2;
  }

  /** Confluence of the verdicts, for all faults and crashes: once a copy of the request is deleted in both
      runs, its decision row, review and retraining event are the same, whatever became of other messages. */
  lemma VerdictsConfluent(pub: seq<Option<ScoringEvent>>, n1: nat, acts1: seq<Action>, n2: nat, acts2: seq<Action>, r: string)
    requires ProducerShaped(pub) && AgreeOn(pub, r)
    requires ValidRun(Init(pub, n1), acts1) && ValidRun(Init(pub, n2), acts2)
    requires SomeDeleted(Run(Init(pub, n1), acts1), r) && SomeDeleted(Run(Init(pub, n2), acts2), r)
    ensures var x, y := Run(Init(pub, n1), acts1).stores, Run(Init(pub, n2), acts2).stores;
            DecisionKey(r) in x.table && SameEffects(x, y, r)
  {
    InvariantsFromInit(pub, n1, acts1);
    InvariantsFromInit(pub, n2, acts2);
    SameEffectsOfStates(Run(Init(pub, n1), acts1), Run(Init(pub, n2), acts2), r);
  }

  /** Where nobody is in the loop of a decided and unharmed request, all its responses are stored. */
  lemma UnharmedIsComplete(s: State, r: string)
    requires EvidenceInv(s) && r !in s.harmed && forall w: nat :: !InLoop(s, w, r)
    ensures Written(s, r) == |WinnersResponses(s, r)|
  {
    assert RequestOk(s, r);
  }

  lemma SameRowsOfStates(s: State, t: State, r: string)
    requires s.pub == t.pub && AgreeOn(s.pub, r)
    requires EvidenceInv(s) && OriginOk(s) && Safe(s) && Settled(s, r) && r !in s.harmed
    requires EvidenceInv(t) && OriginOk(t) && Safe(t) && Settled(t, r) && r !in t.harmed
    ensures SameRows(s.pub, s.stores.table, t.stores.table, r)
  {
    SameEffectsOfStates(s, t, r);
    UnharmedIsComplete(s, r);
    UnharmedIsComplete(t, r);
    assert RequestOk(s, r) && RequestOk(t, r);
    var rs := WinnersResponses(s, r);
    forall source | Separate(s.pub, r, source)
      ensures SameRow(s.stores.table, t.stores.table, ProviderKey(r, source))
    {
      assert RowIs(s.stores.table, r, rs, |rs|, source) && RowIs(t.stores.table, r, rs, |rs|, source);
    }
  }

  /** Confluence, request by request: if a copy of the request is deleted in both runs, nobody is writing its
      responses and no action was harmful to it, all its rows and effects are the same. */
  lemma RequestConfluent(pub: seq<Option<ScoringEvent>>, n1: nat, acts1: seq<Action>, n2: nat, acts2: seq<Action>, r: string)
    requires ProducerShaped(pub) && AgreeOn(pub, r)
    requires ValidRun(Init(pub, n1), acts1) && ValidRun(Init(pub, n2), acts2)
    requires Settled(Run(Init(pub, n1), acts1), r) && Settled(Run(Init(pub, n2), acts2), r)
    requires !HarmfulRun(Init(pub, n1), acts1, r) && !HarmfulRun(Init(pub, n2), acts2, r)
    ensures var x, y := Run(Init(pub, n1), acts1).stores, Run(Init(pub, n2), acts2).stores;
            SameEffects(x, y, r) && SameRows(pub, x.table, y.table, r)
  {
    InvariantsFromInit(pub, n1, acts1);
    InvariantsFromInit(pub, n2, acts2);
    HarmedIsHarmfulRun(Init(pub, n1), acts1, r);
    HarmedIsHarmfulRun(Init(pub, n2), acts2, r);
    SameEffectsOfStates(Run(Init(pub, n1), acts1), Run(Init(pub, n2), acts2), r);
    SameRowsOfStates(Run(Init(pub, n1), acts1), Run(Init(pub, n2), acts2), r);
  }

  // ---- Two runs, everything ------------------------------------------------------------

  ghost predicate Agree(pub: seq<Option<ScoringEvent>>) {
    forall r :: AgreeOn(pub, r)
  }

  /** No two published responses of different requests have the same key. */
  ghost predicate NoSharedKeys(pub: seq<Option<ScoringEvent>>) {
    forall m, i, n, j ::
      PublishedResponse(pub, m, i) && PublishedResponse(pub, n, j) && pub[m].value.requestID != pub[n].value.requestID
      ==> ResponseKey(pub[m].value, i) != ResponseKey(pub[n].value, j)
  }

  lemma NoSharedKeysWithoutClash(pub: seq<Option<ScoringEvent>>)
    requires ProducerShaped(pub)
    requires forall m, n :: 0 <= m < |pub| && 0 <= n < |pub| && pub[m].Some? && pub[n].Some?
                            && pub[m].value.requestID != pub[n].value.requestID
               ==> !Clash(pub[m].value.requestID, pub[n].value.requestID)
    ensures NoSharedKeys(pub)
  {
    forall m, i, n, j |
      PublishedResponse(pub, m, i) && PublishedResponse(pub, n, j) && pub[m].value.requestID != pub[n].value.requestID
      ensures ResponseKey(pub[m].value, i) != ResponseKey(pub[n].value, j)
    {
      PairCollision(pub[m].value.requestID, pub[n].value.requestID);
    }
  }

  /** What holds of both states below. */
  ghost predicate Clean(s: State) {
    EvidenceInv(s) && OriginOk(s) && Safe(s) && AllSettled(s) && s.harmed == {}
  }

  lemma SettledID(s: State, r: string)
    requires Clean(s) && (r in s.won || r in s.stores.reviews || r in s.stores.retrained)
    ensures Settled(s, r)
  {
    assert RequestOk(s, r);
    if r in s.won {
      assert WinOk(s, r);
    } else if r in s.stores.reviews {
      var m :| 0 <= m < |s.pub| && s.pub[m] == Some(s.stores.reviews[r]);
    } else {
      var m :| 0 <= m < |s.pub| && s.pub[m] == Some(s.stores.retrained[r]);
    }
  }

  lemma SettledInBoth(s: State, t: State, r: string)
    requires s.pub == t.pub && AllSettled(s) && AllSettled(t) && (Settled(s, r) || Settled(t, r))
    ensures Settled(s, r) && Settled(t, r)
  {
    var m: nat :| m < |s.pub| && s.pub[m].Some? && s.pub[m].value.requestID == r;
    assert Settled(s, s.pub[m].value.requestID) && Settled(t, s.pub[m].value.requestID);
  }

  lemma SameSinkEntries(s: State, t: State, r: string)
    requires s.pub == t.pub && Agree(s.pub) && Clean(s) && Clean(t)
    ensures SameEntry(s.stores.reviews, t.stores.reviews, r) && SameEntry(s.stores.retrained, t.stores.retrained, r)
  {
    if r in s.stores.reviews || r in s.stores.retrained {
      SettledID(s, r);
      SettledInBoth(s, t, r);
      SameEffectsOfStates(s, t, r);
    } else if r in t.stores.reviews || r in t.stores.retrained {
      SettledID(t, r);
      SettledInBoth(s, t, r);
      SameEffectsOfStates(s, t, r);
    }
  }

  lemma SameSinks(s: State, t: State)
    requires s.pub == t.pub && Agree(s.pub) && Clean(s) && Clean(t)
    ensures s.stores.reviews == t.stores.reviews && s.stores.retrained == t.stores.retrained
  {
    forall r ensures SameEntry(s.stores.reviews, t.stores.reviews, r) && SameEntry(s.stores.retrained, t.stores.retrained, r) {
      SameSinkEntries(s, t, r);
    }
    SameMap(s.stores.reviews, t.stores.reviews);
    SameMap(s.stores.retrained, t.stores.retrained);
  }

  lemma SameMap(x: map<string, ScoringEvent>, y: map<string, ScoringEvent>)
    requires forall r :: SameEntry(x, y, r)
    ensures x == y
  {
    assert forall r :: r in x ==> SameEntry(x, y, r);
    assert forall r :: r in y ==> SameEntry(x, y, r);
  }

  lemma SameKey(s: State, t: State, pk: string)
    requires s.pub == t.pub && Agree(s.pub) && NoSharedKeys(s.pub) && Clean(s) && Clean(t)
    requires pk in s.stores.table
    ensures SameRow(s.stores.table, t.stores.table, pk)
  {
    assert KeyOk(s, pk);
    if r :| r in s.won && pk == DecisionKey(r) {
      SettledID(s, r);
      SettledInBoth(s, t, r);
      SameEffectsOfStates(s, t, r);
    } else {
      var m, i :| PublishedResponse(s.pub, m, i) && pk == ResponseKey(s.pub[m].value, i);
      var r, source := s.pub[m].value.requestID, s.pub[m].value.providerResponses[i].source;
      assert SameIDs(s.pub[m].value) && pk == ProviderKey(r, source);
      assert Separate(s.pub, r, source) by {
        OwnKeySeparate(s.pub, m, i);
      }
      assert Settled(s, r) && Settled(t, r);
      SameRowsOfStates(s, t, r);
    }
  }

  lemma OwnKeySeparate(pub: seq<Option<ScoringEvent>>, m: nat, i: nat)
    requires ProducerShaped(pub) && NoSharedKeys(pub) && PublishedResponse(pub, m, i)
    ensures Separate(pub, pub[m].value.requestID, pub[m].value.providerResponses[i].source)
  {
    var r, source := pub[m].value.requestID, pub[m].value.providerResponses[i].source;
    assert ResponseKey(pub[m].value, i) == ProviderKey(r, source);
    forall n, j | 0 <= n < |pub| && pub[n].Some? && pub[n].value.requestID != r && 0 <= j < |pub[n].value.providerResponses|
      ensures ResponseKey(pub[n].value, j) != ProviderKey(r, source)
    {
      assert PublishedResponse(pub, n, j);
    }
  }

  lemma SameStores(s: State, t: State)
    requires s.pub == t.pub && Agree(s.pub) && NoSharedKeys(s.pub) && Clean(s) && Clean(t)
    ensures s.stores == t.stores
  {
    SameSinks(s, t);
    forall pk ensures SameRow(s.stores.table, t.stores.table, pk) {
      if pk in s.stores.table {
        SameKey(s, t, pk);
      } else if pk in t.stores.table {
        SameKey(t, s, pk);
      }
    }
    SameTable(s.stores.table, t.stores.table);
  }

  lemma SameTable(t: Table, t': Table)
    requires forall pk :: SameRow(t, t', pk)
    ensures t == t'
  {
    assert forall pk :: pk in t ==> SameRow(t, t', pk);
    assert forall pk :: pk in t' ==> SameRow(t, t', pk);
  }

  ghost predicate Harmless(pub: seq<Option<ScoringEvent>>, workers: nat, acts: seq<Action>)
    requires ValidRun(Init(pub, workers), acts)
  {
    forall r :: !HarmfulRun(Init(pub, workers), acts, r)
  }

  lemma CleanRun(pub: seq<Option<ScoringEvent>>, workers: nat, acts: seq<Action>)
    requires ProducerShaped(pub) && ValidRun(Init(pub, workers), acts)
    requires Harmless(pub, workers, acts) && AllSettled(Run(Init(pub, workers), acts))
    ensures Clean(Run(Init(pub, workers), acts)) && Run(Init(pub, workers), acts).pub == pub
  {
    InvariantsFromInit(pub, workers, acts);
    forall r ensures r !in Run(Init(pub, workers), acts).harmed {
      HarmedIsHarmfulRun(Init(pub, workers), acts, r);
    }
  }

  /** Confluence: any two harmless runs that have dealt with every parsable request end in the same stores. */
  lemma Confluent(pub: seq<Option<ScoringEvent>>, n1: nat, acts1: seq<Action>, n2: nat, acts2: seq<Action>)
    requires ProducerShaped(pub) && Agree(pub) && NoSharedKeys(pub)
    requires ValidRun(Init(pub, n1), acts1) && ValidRun(Init(pub, n2), acts2)
    requires AllSettled(Run(Init(pub, n1), acts1)) && AllSettled(Run(Init(pub, n2), acts2))
    requires Harmless(pub, n1, acts1) && Harmless(pub, n2, acts2)
    ensures Run(Init(pub, n1), acts1).stores == Run(Init(pub, n2), acts2).stores
  {
    CleanRun(pub, n1, acts1);
    CleanRun(pub, n2, acts2);
    SameStores(Run(Init(pub, n1), acts1), Run(Init(pub, n2), acts2));
  }

  // ---- The reference: the batch code ---------------------------------------------------

  ghost predicate Complete(order: seq<nat>, n: nat) {
    Distinct(order) && AllWithin(order, n) && forall m: nat :: m < n ==> m in order
  }

  /** The fault-free sequential run over all messages, in any order, is itself a harmless run that deals with
      every request, and leaves the stores of the batch fold. */
  lemma ReferenceIsClean(pub: seq<Option<ScoringEvent>>, order: seq<nat>) returns (acts: seq<Action>)
    requires Complete(order, |pub|)
    ensures ValidRun(Init(pub, 1), acts) && Harmless(pub, 1, acts) && AllSettled(Run(Init(pub, 1), acts))
    ensures Run(Init(pub, 1), acts).stores == DeliverAll(EMPTY, Bodies(pub, order), FAULT_FREE, 0).0
  {
    var calls;
    acts, calls := ReferenceRun(pub, order);
    var s := Run(Init(pub, 1), acts);
    forall r ensures !HarmfulRun(Init(pub, 1), acts, r) {
      HarmedIsHarmfulRun(Init(pub, 1), acts, r);
    }
    forall m: nat | m < |s.pub| && s.pub[m].Some? ensures Settled(s, s.pub[m].value.requestID) {
      assert m in s.deleted;
    }
  }

  /** Concurrency adds nothing: the stores of such a run are those that the batch code leaves when it
      processes every message once, in any order, alone and without faults. */
  lemma ConcurrentEqualsSequential(pub: seq<Option<ScoringEvent>>, workers: nat, acts: seq<Action>, order: seq<nat>)
    requires ProducerShaped(pub) && Agree(pub) && NoSharedKeys(pub) && Complete(order, |pub|)
    requires ValidRun(Init(pub, workers), acts)
    requires AllSettled(Run(Init(pub, workers), acts)) && Harmless(pub, workers, acts)
    ensures Run(Init(pub, workers), acts).stores == DeliverAll(EMPTY, Bodies(pub, order), FAULT_FREE, 0).0
  {
    var reference := ReferenceIsClean(pub, order);
    Confluent(pub, workers, acts, 1, reference);
  }

  // ---- Shared keys make the order visible ----------------------------------------------

  predicate RowOf(t: Table, pk: string, r: string) {
    pk in t && t[pk].ProviderItem? && t[pk].response.requestID == r
  }

  lemma {:induction false} LoopStores(st: Stores, ev: ScoringEvent, k: nat, i: nat, calls: nat)
    requires k <= i < |ev.providerResponses| && SameIDs(ev)
    requires DecisionKey(ev.requestID) in st.table
    requires ResponseKey(ev, i) in st.table ==> RowOf(st.table, ResponseKey(ev, i), ev.requestID)
    ensures RowOf(Deliver(st, ev, AtProvider(k), FAULT_FREE, calls).0.table, ResponseKey(ev, i), ev.requestID)
    decreases i - k
  {
    var st' := CallStores(st, ev, AtProvider(k), NoFault);
    assert Deliver(st, ev, AtProvider(k), FAULT_FREE, calls) == Deliver(st', ev, LoopAt(ev, k + 1), FAULT_FREE, calls + 1);
    if k == i {
      assert Progress(st', ev, LoopAt(ev, k + 1));
      DeliverRecorded(st', ev, LoopAt(ev, k + 1), FAULT_FREE, calls + 1);
    } else {
      LoopStores(st', ev, k + 1, i, calls + 1);
    }
  }

  /** The first event that is delivered has its own response under each of its keys. */
  lemma FirstComesFirst(pub: seq<Option<ScoringEvent>>, order: seq<nat>, i: nat)
    requires ProducerShaped(pub) && AllWithin(order, |pub|) && order != []
    requires PublishedResponse(pub, order[0], i)
    ensures var ev := pub[order[0]].value;
            RowOf(DeliverAll(EMPTY, Bodies(pub, order), FAULT_FREE, 0).0.table, ResponseKey(ev, i), ev.requestID)
  {
    var ev := pub[order[0]].value;
    var st := EMPTY.(table := map[DecisionKey(ev.requestID) := DecisionItem(ev.decision)]);
    assert CallStores(EMPTY, ev, AtDecision, NoFault) == st && CallPC(EMPTY, ev, AtDecision, NoFault) == AtProvider(0);
    KindsDisjoint(ev.requestID, ev.requestID, ev.providerResponses[i].source);
    LoopStores(st, ev, 0, i, 1);
    assert Deliver(EMPTY, ev, AtDecision, FAULT_FREE, 0) == Deliver(st, ev, AtProvider(0), FAULT_FREE, 1);
    FirstDeliveryKept(pub, order);
  }

  /** A delivery that finishes without faults records its own event with the retraining sink, if it is the first. */
  lemma {:induction false} FirstIsRetrained(st: Stores, ev: ScoringEvent, pc: PC, calls: nat)
    requires ValidPC(ev, pc) && !pc.Finished? && ev.requestID !in st.retrained
    ensures var d := Deliver(st, ev, pc, FAULT_FREE, calls).0;
            ev.requestID in d.retrained && d.retrained[ev.requestID] == ev
    decreases CallsLeft(ev, pc)
  {
    var st', pc' := CallStores(st, ev, pc, NoFault), CallPC(st, ev, pc, NoFault);
    assert Deliver(st, ev, pc, FAULT_FREE, calls) == Deliver(st', ev, pc', FAULT_FREE, calls + 1);
    if pc.AtRetrain? {
      assert Deliver(st', ev, pc', FAULT_FREE, calls + 1) == (st', calls + 1, true);
    } else {
      FirstIsRetrained(st', ev, pc', calls + 1);
    }
  }

  lemma {:induction false} FirstIsReviewed(st: Stores, ev: ScoringEvent, pc: PC, calls: nat)
    requires ValidPC(ev, pc) && (pc.AtDecision? || pc.AtProvider? || pc.AtReview?) && NeedsReview(ev)
    requires ev.requestID !in st.reviews
    ensures var d := Deliver(st, ev, pc, FAULT_FREE, calls).0;
            ev.requestID in d.reviews && d.reviews[ev.requestID] == ev
    decreases CallsLeft(ev, pc)
  {
    var st', pc' := CallStores(st, ev, pc, NoFault), CallPC(st, ev, pc, NoFault);
    assert Deliver(st, ev, pc, FAULT_FREE, calls) == Deliver(st', ev, pc', FAULT_FREE, calls + 1);
    if pc.AtReview? {
      DeliverRecorded(st', ev, Finished(false), FAULT_FREE, calls + 1);
      RetrainLast(st', ev, FAULT_FREE, calls + 1);
    } else {
      FirstIsReviewed(st', ev, pc', calls + 1);
    }
  }

  /** The first event that is delivered has its own decision row and its own entries in the sinks. */
  lemma FirstEventStands(pub: seq<Option<ScoringEvent>>, order: seq<nat>)
    requires AllWithin(order, |pub|) && order != [] && pub[order[0]].Some?
    ensures var ev, st := pub[order[0]].value, DeliverAll(EMPTY, Bodies(pub, order), FAULT_FREE, 0).0;
            && DecisionKey(ev.decision.requestID) in st.table
            && st.table[DecisionKey(ev.decision.requestID)] == DecisionItem(ev.decision)
            && ev.requestID in st.retrained && st.retrained[ev.requestID] == ev
            && (NeedsReview(ev) ==> ev.requestID in st.reviews && st.reviews[ev.requestID] == ev)
  {
    var ev := pub[order[0]].value;
    FirstDecisionStands(ev);
    FirstIsRetrained(EMPTY, ev, AtDecision, 0);
    if NeedsReview(ev) {
      FirstIsReviewed(EMPTY, ev, AtDecision, 0);
    }
    FirstDeliveryKept(pub, order);
  }

  lemma FirstDecisionStands(ev: ScoringEvent)
    ensures var t := Deliver(EMPTY, ev, AtDecision, FAULT_FREE, 0).0.table;
            DecisionKey(ev.decision.requestID) in t && t[DecisionKey(ev.decision.requestID)] == DecisionItem(ev.decision)
  {
    var st := EMPTY.(table := map[DecisionKey(ev.decision.requestID) := DecisionItem(ev.decision)]);
    assert CallStores(EMPTY, ev, AtDecision, NoFault) == st && CallPC(EMPTY, ev, AtDecision, NoFault) == LoopAt(ev, 0);
    assert Deliver(EMPTY, ev, AtDecision, FAULT_FREE, 0) == Deliver(st, ev, LoopAt(ev, 0), FAULT_FREE, 1);
    DeliverRecorded(st, ev, LoopAt(ev, 0), FAULT_FREE, 1);
  }

  /** What the first delivery leaves, the batch keeps. */
  lemma FirstDeliveryKept(pub: seq<Option<ScoringEvent>>, order: seq<nat>)
    requires AllWithin(order, |pub|) && order != [] && pub[order[0]].Some?
    ensures Extends(Deliver(EMPTY, pub[order[0]].value, AtDecision, FAULT_FREE, 0).0,
                    DeliverAll(EMPTY, Bodies(pub, order), FAULT_FREE, 0).0)
  {
    var ev, rest := pub[order[0]].value, Bodies(pub, order)[1..];
    assert Bodies(pub, order) == [Some(ev)] + rest;
    DeliverOne(EMPTY, Some(ev), FAULT_FREE, 0);
    DeliverAllConcat(EMPTY, [Some(ev)], rest, FAULT_FREE, 0);
    var first := DeliverAll(EMPTY, [Some(ev)], FAULT_FREE, 0);
    DoneMeansRecorded(first.0, rest, FAULT_FREE, first.1);
  }

  function Others(n: nat, m: nat): (order: seq<nat>)
    ensures AllWithin(order, n)
    ensures forall k: nat :: k in order <==> k < n && k != m
    ensures Distinct(order)
  {
    if n == 0 then []
    else Others(n - 1, m) + (if n - 1 == m then [] else [n - 1])
  }

  function StartWith(n: nat, m: nat): (order: seq<nat>)
    requires m < n
    ensures order != [] && order[0] == m && Complete(order, n)
  {
    var rest := Others(n, m);
    var order := [m] + rest;
    assert forall j :: 0 < j < |order| ==> order[j] == rest[j - 1] && rest[j - 1] in rest;
    assert forall k: nat :: k < n && k != m ==> k in rest;
    order
  }

  /** Two published responses of different requests under one key: the stores depend on the order. */
  lemma SharedKeyMakesOrderVisible(pub: seq<Option<ScoringEvent>>, m: nat, i: nat, n: nat, j: nat)
    returns (order1: seq<nat>, order2: seq<nat>)
    requires ProducerShaped(pub) && PublishedResponse(pub, m, i) && PublishedResponse(pub, n, j)
    requires pub[m].value.requestID != pub[n].value.requestID
    requires ResponseKey(pub[m].value, i) == ResponseKey(pub[n].value, j)
    ensures Complete(order1, |pub|) && Complete(order2, |pub|)
    ensures DeliverAll(EMPTY, Bodies(pub, order1), FAULT_FREE, 0).0 != DeliverAll(EMPTY, Bodies(pub, order2), FAULT_FREE, 0).0
  {
    order1, order2 := StartWith(|pub|, m), StartWith(|pub|, n);
    FirstComesFirst(pub, order1, i);
    FirstComesFirst(pub, order2, j);
  }

  /** The stores that a harmless run which deals with every request can end in. */
  ghost predicate Outcome(pub: seq<Option<ScoringEvent>>, st: Stores) {
    exists workers: nat, acts: seq<Action> ::
      && ValidRun(Init(pub, workers), acts) && Harmless(pub, workers, acts)
      && AllSettled(Run(Init(pub, workers), acts)) && Run(Init(pub, workers), acts).stores == st
  }

  /** Two different events under one request id: the stores depend on the order. */
  lemma UnequalEventsMakeOrderVisible(pub: seq<Option<ScoringEvent>>, m: nat, n: nat) returns (order1: seq<nat>, order2: seq<nat>)
    requires m < |pub| && n < |pub| && pub[m].Some? && pub[n].Some?
    requires pub[m].value.requestID == pub[n].value.requestID && pub[m] != pub[n]
    ensures Complete(order1, |pub|) && Complete(order2, |pub|)
    ensures DeliverAll(EMPTY, Bodies(pub, order1), FAULT_FREE, 0).0 != DeliverAll(EMPTY, Bodies(pub, order2), FAULT_FREE, 0).0
  {
    order1, order2 := StartWith(|pub|, m), StartWith(|pub|, n);
    FirstEventStands(pub, order1);
    FirstEventStands(pub, order2);
  }

  lemma TwoOutcomes(pub: seq<Option<ScoringEvent>>, order1: seq<nat>, order2: seq<nat>)
    requires Complete(order1, |pub|) && Complete(order2, |pub|)
    requires DeliverAll(EMPTY, Bodies(pub, order1), FAULT_FREE, 0).0 != DeliverAll(EMPTY, Bodies(pub, order2), FAULT_FREE, 0).0
    ensures !OneOutcome(pub)
  {
    var acts1 := ReferenceIsClean(pub, order1);
    var acts2 := ReferenceIsClean(pub, order2);
    var x, y := Run(Init(pub, 1), acts1).stores, Run(Init(pub, 1), acts2).stores;
    assert Outcome(pub, x) && Outcome(pub, y);
  }

  ghost predicate OneOutcome(pub: seq<Option<ScoringEvent>>) {
    forall x, y :: Outcome(pub, x) && Outcome(pub, y) ==> x == y
  }

  /** The exact condition for confluence: all such runs end in the same stores if and only if messages of one
      request id carry equal events and no two published responses of different requests share a key. */
  lemma ConfluentExactly(pub: seq<Option<ScoringEvent>>)
    requires ProducerShaped(pub)
    ensures OneOutcome(pub) <==> Agree(pub) && NoSharedKeys(pub)
  {
    if !Agree(pub) {
      var r :| !AgreeOn(pub, r);
      var m, n :| 0 <= m < |pub| && 0 <= n < |pub| && pub[m].Some? && pub[n].Some?
        && pub[m].value.requestID == r && pub[n].value.requestID == r && pub[m] != pub[n];
      var order1, order2 := UnequalEventsMakeOrderVisible(pub, m, n);
      TwoOutcomes(pub, order1, order2);
    } else if !NoSharedKeys(pub) {
      var m, i, n, j :| PublishedResponse(pub, m, i) && PublishedResponse(pub, n, j)
        && pub[m].value.requestID != pub[n].value.requestID && ResponseKey(pub[m].value, i) == ResponseKey(pub[n].value, j);
      var order1, order2 := SharedKeyMakesOrderVisible(pub, m, i, n, j);
      TwoOutcomes(pub, order1, order2);
    } else {
      forall x, y | Outcome(pub, x) && Outcome(pub, y) ensures x == y {
        SameOutcome(pub, x, y);
      }
    }
  }

  /** In particular for ids that do not clash, equal events per id are enough, and needed. */
  lemma ConfluentExactlyWithoutClash(pub: seq<Option<ScoringEvent>>)
    requires ProducerShaped(pub)
    requires forall m, n :: 0 <= m < |pub| && 0 <= n < |pub| && pub[m].Some? && pub[n].Some?
                            && pub[m].value.requestID != pub[n].value.requestID
               ==> !Clash(pub[m].value.requestID, pub[n].value.requestID)
    ensures OneOutcome(pub) <==> Agree(pub)
  {
    NoSharedKeysWithoutClash(pub);
    ConfluentExactly(pub);
  }

  lemma SameOutcome(pub: seq<Option<ScoringEvent>>, x: Stores, y: Stores)
    requires ProducerShaped(pub) && Agree(pub) && NoSharedKeys(pub) && Outcome(pub, x) && Outcome(pub, y)
    ensures x == y
  {
    var n1: nat, acts1: seq<Action> :| ValidRun(Init(pub, n1), acts1) && Harmless(pub, n1, acts1)
      && AllSettled(Run(Init(pub, n1), acts1)) && Run(Init(pub, n1), acts1).stores == x;
    var n2: nat, acts2: seq<Action> :| ValidRun(Init(pub, n2), acts2) && Harmless(pub, n2, acts2)
      && AllSettled(Run(Init(pub, n2), acts2)) && Run(Init(pub, n2), acts2).stores == y;
    Confluent(pub, n1, acts1, n2, acts2);
  }

  // ---- Which event stands --------------------------------------------------------------

  /** A copy of this event has been deleted from the queue. */
  ghost predicate CopyDeleted(s: State, ev: ScoringEvent) {
    exists m: nat :: m in s.deleted && m < |s.pub| && s.pub[m] == Some(ev)
  }

  predicate RowIsOf(st: Stores, ev: ScoringEvent) {
    DecisionKey(ev.requestID) in st.table && st.table[DecisionKey(ev.requestID)] == DecisionItem(ev.decision)
  }

  predicate RetrainedIs(st: Stores, ev: ScoringEvent) {
    ev.requestID in st.retrained && st.retrained[ev.requestID] == ev
  }

  predicate ReviewIs(st: Stores, ev: ScoringEvent) {
    ev.requestID in st.reviews && st.reviews[ev.requestID] == ev
  }

  /** All events published under the id of `ev` carry its decision; are equal to it; and those that need a
      review are equal to it. */
  ghost predicate OneDecision(pub: seq<Option<ScoringEvent>>, ev: ScoringEvent) {
    forall m :: 0 <= m < |pub| && pub[m].Some? && pub[m].value.requestID == ev.requestID ==> pub[m].value.decision == ev.decision
  }

  ghost predicate OneEvent(pub: seq<Option<ScoringEvent>>, ev: ScoringEvent) {
    forall m :: 0 <= m < |pub| && pub[m].Some? && pub[m].value.requestID == ev.requestID ==> pub[m].value == ev
  }

  ghost predicate OneReview(pub: seq<Option<ScoringEvent>>, ev: ScoringEvent) {
    forall m :: 0 <= m < |pub| && pub[m].Some? && pub[m].value.requestID == ev.requestID && NeedsReview(pub[m].value)
      ==> pub[m].value == ev
  }

  /** In every run that deletes a copy of `ev`, whatever its faults and crashes, this holds of the stores. */
  ghost predicate Always(pub: seq<Option<ScoringEvent>>, ev: ScoringEvent, p: (Stores, ScoringEvent) -> bool) {
    forall workers: nat, acts: seq<Action> ::
      ValidRun(Init(pub, workers), acts) && CopyDeleted(Run(Init(pub, workers), acts), ev)
      ==> p(Run(Init(pub, workers), acts).stores, ev)
  }

  lemma DeletedStands(pub: seq<Option<ScoringEvent>>, workers: nat, acts: seq<Action>, ev: ScoringEvent)
    requires ProducerShaped(pub) && ValidRun(Init(pub, workers), acts) && CopyDeleted(Run(Init(pub, workers), acts), ev)
    ensures var st := Run(Init(pub, workers), acts).stores;
            && (OneDecision(pub, ev) ==> RowIsOf(st, ev))
            && (OneEvent(pub, ev) ==> RetrainedIs(st, ev))
            && (NeedsReview(ev) && OneReview(pub, ev) ==> ReviewIs(st, ev))
  {
    InvariantsFromInit(pub, workers, acts);
    var s, r := Run(Init(pub, workers), acts), ev.requestID;
    var m: nat :| m in s.deleted && m < |s.pub| && s.pub[m] == Some(ev);
    assert Done(s, m) && SameIDs(ev) && RequestOk(s, r) && WinOk(s, r);
    var n :| 0 <= n < |s.pub| && s.pub[n] == Some(s.stores.retrained[r]);
    if NeedsReview(ev) {
      var k :| 0 <= k < |s.pub| && s.pub[k] == Some(s.stores.reviews[r]);
    }
  }

  /** The run that delivers message `n` first, and a copy of `ev` later. */
  lemma FirstStands(pub: seq<Option<ScoringEvent>>, ev: ScoringEvent, n: nat) returns (acts: seq<Action>)
    requires ProducerShaped(pub) && Published(pub, ev) && n < |pub| && pub[n].Some?
    ensures ValidRun(Init(pub, 1), acts) && CopyDeleted(Run(Init(pub, 1), acts), ev)
    ensures var st, first := Run(Init(pub, 1), acts).stores, pub[n].value;
            RowIsOf(st, first) && RetrainedIs(st, first) && (NeedsReview(first) ==> ReviewIs(st, first))
  {
    var order, calls := StartWith(|pub|, n), 0;
    acts, calls := ReferenceRun(pub, order);
    FirstEventStands(pub, order);
    var m :| 0 <= m < |pub| && pub[m] == Some(ev);
    assert m in order;
    assert m in Run(Init(pub, 1), acts).deleted;
  }

  /** Which answer is on record, exactly. For a published event: in every run that deletes a copy of it the
      decision row is its decision if and only if all events published under its id carry that decision; the
      retraining sink holds it if and only if all of them are equal to it; and, where it needs a review, the
      review queue holds it if and only if all of them that need one are. */
  lemma RecordedExactly(pub: seq<Option<ScoringEvent>>, ev: ScoringEvent)
    requires ProducerShaped(pub) && Published(pub, ev)
    ensures Always(pub, ev, RowIsOf) <==> OneDecision(pub, ev)
    ensures Always(pub, ev, RetrainedIs) <==> OneEvent(pub, ev)
    ensures NeedsReview(ev) ==> (Always(pub, ev, ReviewIs) <==> OneReview(pub, ev))
  {
    forall workers: nat, acts: seq<Action> |
      ValidRun(Init(pub, workers), acts) && CopyDeleted(Run(Init(pub, workers), acts), ev)
      ensures var st := Run(Init(pub, workers), acts).stores;
              && (OneDecision(pub, ev) ==> RowIsOf(st, ev))
              && (OneEvent(pub, ev) ==> RetrainedIs(st, ev))
              && (NeedsReview(ev) && OneReview(pub, ev) ==> ReviewIs(st, ev))
    {
      DeletedStands(pub, workers, acts, ev);
    }
    forall n: nat | n < |pub| && pub[n].Some? && pub[n].value.requestID == ev.requestID
      ensures Always(pub, ev, RowIsOf) ==> pub[n].value.decision == ev.decision
      ensures Always(pub, ev, RetrainedIs) ==> pub[n].value == ev
      ensures NeedsReview(pub[n].value) && Always(pub, ev, ReviewIs) ==> pub[n].value == ev
    {
      var acts := FirstStands(pub, ev, n);
    }
  }

  // ---- Unequal events ------------------------------------------------------------------

  /** Also when messages with one request id differ, and from any state: the store keeps the decision committed
      first, and the delivery that committed it stays on record. */
  lemma {:induction false} FirstCommittedDecisionStays(s: State, acts: seq<Action>, r: string)
    requires ValidRun(s, acts) && DecisionKey(r) in s.stores.table
    ensures var s' := Run(s, acts);
            && DecisionKey(r) in s'.stores.table && s'.stores.table[DecisionKey(r)] == s.stores.table[DecisionKey(r)]
            && (r in s.won ==> r in s'.won && s'.won[r].msg == s.won[r].msg)
    decreases |acts|
  {
    if acts == [] {
    } else {
      RunExtends(s, acts[..1]);
      FirstCommittedDecisionStays(Apply(s, acts[0]), acts[1..], r);
    }
  }

  // ---- The incomplete run --------------------------------------------------------------

  /** The promise that no side effect is skipped after the decision row commits fails for provider
      responses: for every event that carries one, there is a run in which the message is delivered twice,
      deleted as a success, and its first response is in no row. */
  lemma DeletedWithoutEvidence(ev: ScoringEvent) returns (acts: seq<Action>)
    requires SameIDs(ev) && |ev.providerResponses| > 0
    ensures ValidRun(Init([Some(ev)], 1), acts)
    ensures var s := Run(Init([Some(ev)], 1), acts);
            && s.deleted == {0} && s.workers == [Idle] && Recorded(s.stores, ev)
            && ProviderKey(ev.requestID, ev.providerResponses[0].source) !in s.stores.table
  {
    var s0 := Init([Some(ev)], 1);
    var first := FailedFirstDelivery(ev);
    var s1 := Run(s0, first);
    ConservedInit([Some(ev)], 1);
    ConservedRun(s0, first);
    var second := SoloPoll(s1, 0, [0], FAULT_FREE, 0);
    acts := first + second;
    RunConcat(s0, first, second);
    SecondDelivery(ev, s1.stores);
    var evs := Bodies(s1.pub, [0]);
    assert evs == [Some(ev)];
    DeliverOne(s1.stores, Some(ev), FAULT_FREE, 0);
    assert FailedSet([0], [true]) == {} && SetOf([0]) == {0};
    KindsDisjoint(ev.requestID, ev.requestID, ev.providerResponses[0].source);
  }

  /** With the decision row there, a delivery leaves the table alone and succeeds. */
  lemma SecondDelivery(ev: ScoringEvent, st: Stores)
    requires DecisionKey(ev.decision.requestID) in st.table
    ensures var d := Deliver(st, ev, AtDecision, FAULT_FREE, 0);
            d.2 && Recorded(d.0, ev) && d.0.table == st.table
  {
    FaultFreeSucceeds(st, ev, AtDecision, 0);
    DeliverRecorded(st, ev, AtDecision, FAULT_FREE, 0);
    assert Deliver(st, ev, AtDecision, FAULT_FREE, 0) == Deliver(st, ev, AfterAudit(ev), FAULT_FREE, 1);
    DeliverNotifies(st, ev, FAULT_FREE, 1);
  }

  /** The fault that makes the difference: the second call of a delivery is lost. */
  lemma SecondCallLost(ev: ScoringEvent, fate: nat -> Fault)
    requires |ev.providerResponses| > 0 && fate(0) == NoFault && fate(1) == Lost
    ensures Deliver(EMPTY, ev, AtDecision, fate, 0)
            == (EMPTY.(table := map[DecisionKey(ev.decision.requestID) := DecisionItem(ev.decision)]), 2, false)
  {
    var st := EMPTY.(table := map[DecisionKey(ev.decision.requestID) := DecisionItem(ev.decision)]);
    assert CallStores(EMPTY, ev, AtDecision, NoFault) == st;
    assert CallPC(EMPTY, ev, AtDecision, NoFault) == AtProvider(0);
    assert CallStores(st, ev, AtProvider(0), Lost) == st && CallPC(st, ev, AtProvider(0), Lost) == Finished(false);
    assert Deliver(st, ev, Finished(false), fate, 2) == (st, 2, false);
  }

  /** The decision is written, the first provider write is lost, the message goes back to the queue. */
  lemma FailedFirstDelivery(ev: ScoringEvent) returns (acts: seq<Action>)
    requires SameIDs(ev) && |ev.providerResponses| > 0
    ensures ValidRun(Init([Some(ev)], 1), acts)
    ensures var s := Run(Init([Some(ev)], 1), acts);
            && s.pub == [Some(ev)] && s.workers == [Idle] && s.received == [1]
            && s.visible == {0} && s.hidden == {} && s.deleted == {}
            && s.stores == EMPTY.(table := map[DecisionKey(ev.requestID) := DecisionItem(ev.decision)])
  {
    var s0 := Init([Some(ev)], 1);
    var fate: nat -> Fault := n => if n == 1 then Lost else NoFault;
    assert IDs(1) == {0};
    ConservedInit([Some(ev)], 1);
    var poll := SoloPoll(s0, 0, [0], fate, 0);
    var s1 := Run(s0, poll);
    assert Bodies(s0.pub, [0]) == [Some(ev)];
    DeliverOne(EMPTY, Some(ev), fate, 0);
    SecondCallLost(ev, fate);
    assert FailedSet([0], [false]) == {0} by {
      assert ![false][0] && [0][0] in FailedSet([0], [false]);
    }
    assert SetOf([0]) == {0};
    assert s1.hidden == {0};
    RunOne(s1, Expire(0));
    acts := poll + [Expire(0)];
    RunConcat(s0, poll, [Expire(0)]);
  }
}
