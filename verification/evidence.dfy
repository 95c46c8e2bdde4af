/** Provider responses under at-least-once delivery: which ones end up in the store, exactly. */
module Evidence {
  import opened Domain
  import opened Audit
  import opened Consumer
  import opened Delivery

  /** The producer stamps one request id on the event, its decision and all its responses. */
  predicate SameIDs(ev: ScoringEvent) {
    && ev.decision.requestID == ev.requestID
    && forall i :: 0 <= i < |ev.providerResponses| ==> ev.providerResponses[i].requestID == ev.requestID
  }

  ghost predicate ProducerShaped(pub: seq<Option<ScoringEvent>>) {
    forall m :: 0 <= m < |pub| && pub[m].Some? ==> SameIDs(pub[m].value)
  }

  /** No published response of another request has the key of request `r` and this source. */
  ghost predicate Separate(pub: seq<Option<ScoringEvent>>, r: string, source: string) {
    forall m, i ::
      0 <= m < |pub| && pub[m].Some? && pub[m].value.requestID != r && 0 <= i < |pub[m].value.providerResponses|
      ==> ResponseKey(pub[m].value, i) != ProviderKey(r, source)
  }

  /** A request id that clashes with no other published id has all its keys to itself. */
  lemma SeparateWithoutClash(pub: seq<Option<ScoringEvent>>, r: string, source: string)
    requires ProducerShaped(pub)
    requires forall m :: 0 <= m < |pub| && pub[m].Some? && pub[m].value.requestID != r ==> !Clash(r, pub[m].value.requestID)
    ensures Separate(pub, r, source)
  {
    forall m, i | 0 <= m < |pub| && pub[m].Some? && pub[m].value.requestID != r && 0 <= i < |pub[m].value.providerResponses|
      ensures ResponseKey(pub[m].value, i) != ProviderKey(r, source)
    {
      PairCollision(r, pub[m].value.requestID);
    }
  }

  /** The first of the first `n` responses with this source. */
  function Lookup(rs: seq<ProviderRecord>, n: nat, source: string): Option<ProviderRecord>
    requires n <= |rs|
  {
    if n == 0 then None
    else if Lookup(rs, n - 1, source).Some? then Lookup(rs, n - 1, source)
    else if rs[n - 1].source == source then Some(rs[n - 1])
    else None
  }

  lemma {:induction false} LookupSome(rs: seq<ProviderRecord>, n: nat, source: string)
    requires n <= |rs|
    ensures Lookup(rs, n, source).Some? <==> exists i :: 0 <= i < n && rs[i].source == source
  {
    if n == 0 {
    } else {
      LookupSome(rs, n - 1, source);
      if rs[n - 1].source != source {
        assert forall i :: 0 <= i < n && rs[i].source == source ==> i < n - 1;
      }
    }
  }

  ghost predicate RowIs(t: Table, r: string, rs: seq<ProviderRecord>, n: nat, source: string)
    requires n <= |rs|
  {
    match Lookup(rs, n, source)
    case None => ProviderKey(r, source) !in t
    case Some(x) => ProviderKey(r, source) in t && t[ProviderKey(r, source)] == ProviderItem(x)
  }

  /** The provider rows of request `r` are those of the first `n` responses, first response per source. */
  ghost predicate RowsArePrefix(pub: seq<Option<ScoringEvent>>, t: Table, r: string, rs: seq<ProviderRecord>, n: nat) {
    n <= |rs| && forall source :: Separate(pub, r, source) ==> RowIs(t, r, rs, n, source)
  }

  /** The responses carried by the delivery that wrote the decision row of `r`. */
  function WinnersResponses(s: State, r: string): seq<ProviderRecord> {
    if r in s.won && s.won[r].msg < |s.pub| && s.pub[s.won[r].msg].Some?
    then s.pub[s.won[r].msg].value.providerResponses else []
  }

  function Written(s: State, r: string): nat {
    if r in s.won then s.won[r].written else 0
  }

  /** Worker `w` stands in the provider loop for request `r`. */
  predicate InLoop(s: State, w: nat, r: string) {
    && w < |s.workers| && s.workers[w].Busy? && s.workers[w].pos < |s.workers[w].batch|
    && s.workers[w].pc.AtProvider?
    && Current(s, w) < |s.pub| && s.pub[Current(s, w)].Some?
    && s.pub[Current(s, w)].value.requestID == r
  }

  /** What holds of one request id in every reachable state. */
  ghost predicate RequestOk(s: State, r: string) {
    && (DecisionKey(r) in s.stores.table <==> r in s.won)
    && (r in s.won ==> WinOk(s, r))
    && RowsArePrefix(s.pub, s.stores.table, r, WinnersResponses(s, r), Written(s, r))
    && (forall w: nat :: InLoop(s, w, r) ==> LoopOk(s, w, r))
    && (forall v: nat, w: nat :: InLoop(s, v, r) && InLoop(s, w, r) ==> v == w)
    && HarmOk(s, r)
  }

  predicate WinOk(s: State, r: string)
    requires r in s.won
  {
    && s.won[r].msg < |s.pub| && s.pub[s.won[r].msg].Some?
    && s.pub[s.won[r].msg].value.requestID == r
    && DecisionKey(r) in s.stores.table
    && s.stores.table[DecisionKey(r)] == DecisionItem(s.pub[s.won[r].msg].value.decision)
    && (!s.won[r].entered ==> s.won[r].written == 0)
  }

  /** A worker in the loop is the delivery that wrote the decision row, and is exactly as far as the rows. */
  predicate LoopOk(s: State, w: nat, r: string)
    requires InLoop(s, w, r)
  {
    && r in s.won && s.won[r].msg == Current(s, w) && s.won[r].entered
    && s.won[r].written == s.workers[w].pc.k && r !in s.harmed
  }

  /** A request is harmed exactly when its responses are incomplete and nobody is still writing them. */
  ghost predicate HarmOk(s: State, r: string) {
    && (r in s.harmed ==> r in s.won && Written(s, r) < |WinnersResponses(s, r)|)
    && (r in s.won && r !in s.harmed ==>
          Written(s, r) == |WinnersResponses(s, r)| || exists w: nat :: InLoop(s, w, r))
  }

  ghost predicate EvidenceInv(s: State) {
    Conserved(s) && ProducerShaped(s.pub) && forall r :: RequestOk(s, r)
  }

  lemma EvidenceInit(pub: seq<Option<ScoringEvent>>, workers: nat)
    requires ProducerShaped(pub)
    ensures EvidenceInv(Init(pub, workers))
  {
    ConservedInit(pub, workers);
  }

  // ---- One step, one request id --------------------------------------------------------

  predicate SameRow(t: Table, t': Table, pk: string) {
    (pk in t <==> pk in t') && (pk in t ==> t[pk] == t'[pk])
  }

  /** The rows that belong to request `r` are the same in both tables. */
  ghost predicate SameRows(pub: seq<Option<ScoringEvent>>, t: Table, t': Table, r: string) {
    && SameRow(t, t', DecisionKey(r))
    && forall source :: Separate(pub, r, source) ==> SameRow(t, t', ProviderKey(r, source))
  }

  ghost predicate SameLoops(s: State, s': State, r: string) {
    forall w: nat ::
      && (InLoop(s, w, r) <==> InLoop(s', w, r))
      && (InLoop(s, w, r) ==> s.workers[w] == s'.workers[w])
  }

  /** A step that concerns other request ids. */
  lemma RequestUntouched(s: State, s': State, r: string)
    requires RequestOk(s, r) && s'.pub == s.pub
    requires SameRows(s.pub, s.stores.table, s'.stores.table, r)
    requires SameLoops(s, s', r)
    requires r in s'.won <==> r in s.won
    requires r in s.won ==> s'.won[r] == s.won[r]
    requires r in s'.harmed <==> r in s.harmed
    ensures RequestOk(s', r)
  {
    assert WinnersResponses(s', r) == WinnersResponses(s, r) && Written(s', r) == Written(s, r);
    var rs, n := WinnersResponses(s, r), Written(s, r);
    forall source | Separate(s.pub, r, source) ensures RowIs(s'.stores.table, r, rs, n, source) {
      assert RowIs(s.stores.table, r, rs, n, source);
    }
    if w: nat :| InLoop(s, w, r) {
      assert InLoop(s', w, r);
    }
  }

  lemma DecisionRowsAfterPut(pub: seq<Option<ScoringEvent>>, t: Table, ev: ScoringEvent, f: Fault, r: string)
    requires r != ev.decision.requestID
    ensures SameRows(pub, t, PutOnce(t, DecisionKey(ev.decision.requestID), DecisionItem(ev.decision), f), r)
  {
    var pk := DecisionKey(ev.decision.requestID);
    if DecisionKey(r) == pk {
      DecisionKeyInjective(r, ev.decision.requestID);
    }
    forall source ensures ProviderKey(r, source) != pk {
      KindsDisjoint(ev.decision.requestID, r, source);
    }
  }

  lemma DecisionRowAfterWrite(t: Table, ev: ScoringEvent, k: nat, f: Fault, r: string)
    requires k < |ev.providerResponses|
    ensures SameRow(t, PutOnce(t, ResponseKey(ev, k), ProviderItem(ev.providerResponses[k]), f), DecisionKey(r))
  {
    KindsDisjoint(r, ev.providerResponses[k].requestID, ev.providerResponses[k].source);
  }

  lemma OtherRowsAfterWrite(pub: seq<Option<ScoringEvent>>, m: nat, t: Table, k: nat, f: Fault, r: string)
    requires m < |pub| && pub[m].Some? && k < |pub[m].value.providerResponses| && r != pub[m].value.requestID
    ensures var ev := pub[m].value;
            SameRows(pub, t, PutOnce(t, ResponseKey(ev, k), ProviderItem(ev.providerResponses[k]), f), r)
  {
    DecisionRowAfterWrite(t, pub[m].value, k, f, r);
    assert forall source :: Separate(pub, r, source) ==> ResponseKey(pub[m].value, k) != ProviderKey(r, source);
  }

  /** One provider write of the loop, whatever becomes of it: the rows stay a prefix. */
  lemma RowsAfterWrite(pub: seq<Option<ScoringEvent>>, t: Table, ev: ScoringEvent, k: nat, f: Fault)
    requires k < |ev.providerResponses| && SameIDs(ev)
    requires RowsArePrefix(pub, t, ev.requestID, ev.providerResponses, k)
    ensures RowsArePrefix(pub, PutOnce(t, ResponseKey(ev, k), ProviderItem(ev.providerResponses[k]), f),
                          ev.requestID, ev.providerResponses, if f == Lost then k else k + 1)
  {
    var r, rs, n := ev.requestID, ev.providerResponses, if f == Lost then k else k + 1;
    var t' := PutOnce(t, ResponseKey(ev, k), ProviderItem(rs[k]), f);
    forall source | Separate(pub, r, source) ensures RowIs(t', r, rs, n, source) {
      assert RowIs(t, r, rs, k, source);
      if ProviderKey(r, source) == ResponseKey(ev, k) {
        ProviderKeySource(r, source, rs[k].source);
      }
    }
  }

  /** The decision row of a fresh request id is written. */
  lemma CommitSelf(s: State, w: nat, f: Fault)
    requires Processing(s, w) && s.pub[Current(s, w)].Some? && SameIDs(s.pub[Current(s, w)].value)
    requires Commits(s.stores, s.pub[Current(s, w)].value, s.workers[w].pc, f)
    requires RequestOk(s, s.pub[Current(s, w)].value.requestID)
    ensures RequestOk(ApplyStep(s, w, f), s.pub[Current(s, w)].value.requestID)
  {
    var s', m := ApplyStep(s, w, f), Current(s, w);
    var ev := s.pub[m].value;
    var r := ev.requestID;
    assert r !in s.won && s'.won == s.won[r := Win(m, f == NoFault, 0)];
    assert r !in s.harmed;
    forall v: nat ensures InLoop(s', v, r) <==> v == w && f == NoFault && |ev.providerResponses| > 0 {
      assert v != w ==> (InLoop(s', v, r) ==> InLoop(s, v, r));
    }
    forall source | Separate(s.pub, r, source) ensures ProviderKey(r, source) !in s'.stores.table {
      KindsDisjoint(r, r, source);
      assert RowIs(s.stores.table, r, WinnersResponses(s, r), Written(s, r), source);
    }
    assert Written(s', r) == 0 && WinnersResponses(s', r) == ev.providerResponses;
    if f == NoFault && |ev.providerResponses| > 0 {
      assert InLoop(s', w, r);
    }
  }

  /** The worker in the loop of `r` makes its next provider write. */
  lemma WriteSelf(s: State, w: nat, f: Fault)
    requires Processing(s, w) && s.pub[Current(s, w)].Some? && s.workers[w].pc.AtProvider?
    requires SameIDs(s.pub[Current(s, w)].value)
    requires RequestOk(s, s.pub[Current(s, w)].value.requestID)
    ensures RequestOk(ApplyStep(s, w, f), s.pub[Current(s, w)].value.requestID)
  {
    var s', m, k := ApplyStep(s, w, f), Current(s, w), s.workers[w].pc.k;
    var ev := s.pub[m].value;
    var r, rs := ev.requestID, ev.providerResponses;
    assert InLoop(s, w, r) && LoopOk(s, w, r);
    assert WinnersResponses(s, r) == rs && Written(s, r) == k;
    assert s'.won == if f == Lost then s.won else s.won[r := s.won[r].(written := k + 1)];
    var goesOn := (f == NoFault || f == Retried) && k + 1 < |rs|;
    assert goesOn ==> s'.workers[w] == s.workers[w].(pc := AtProvider(k + 1));
    forall v: nat ensures InLoop(s', v, r) <==> v == w && goesOn {
      assert v != w ==> (InLoop(s', v, r) ==> InLoop(s, v, r));
    }
    DecisionRowAfterWrite(s.stores.table, ev, k, f, r);
    RowsAfterWrite(s.pub, s.stores.table, ev, k, f);
    assert WinnersResponses(s', r) == rs && Written(s', r) == if f == Lost then k else k + 1;
    assert s'.harmed == if Harmful(s.stores, ev, AtProvider(k), f) then s.harmed + {r} else s.harmed;
    if goesOn {
      assert InLoop(s', w, r);
    }
  }

  lemma CrashSelf(s: State, w: nat, r: string)
    requires Enabled(s, Crash(w)) && Processing(s, w) && InLoop(s, w, r) && RequestOk(s, r)
    requires SameIDs(s.pub[Current(s, w)].value)
    ensures RequestOk(Apply(s, Crash(w)), r)
  {
    var s' := Apply(s, Crash(w));
    assert LoopOk(s, w, r) && s'.harmed == s.harmed + {r};
    forall v: nat ensures !InLoop(s', v, r) {
      if v != w {
        assert InLoop(s', v, r) ==> InLoop(s, v, r);
      }
    }
    assert WinnersResponses(s', r) == WinnersResponses(s, r) && Written(s', r) == Written(s, r);
  }

  /** A call of worker `w` and the request ids it does not touch. */
  lemma StepOther(s: State, w: nat, f: Fault, r: string)
    requires EvidenceInv(s) && Processing(s, w)
    requires s.pub[Current(s, w)].Some? ==>
               || s.pub[Current(s, w)].value.requestID != r
               || !(Commits(s.stores, s.pub[Current(s, w)].value, s.workers[w].pc, f) || s.workers[w].pc.AtProvider?)
    ensures RequestOk(ApplyStep(s, w, f), r)
  {
    var s', k := ApplyStep(s, w, f), s.workers[w];
    assert WorkerOk(s.pub, s.received, k) && RequestOk(s, r);
    if s.pub[Current(s, w)].Some? {
      var ev := s.pub[Current(s, w)].value;
      if k.pc.AtDecision? {
        if r != ev.requestID {
          DecisionRowsAfterPut(s.pub, s.stores.table, ev, f, r);
        }
      } else if k.pc.AtProvider? {
        OtherRowsAfterWrite(s.pub, Current(s, w), s.stores.table, k.pc.k, f, r);
      }
    }
    forall v: nat ensures (InLoop(s, v, r) <==> InLoop(s', v, r)) && (InLoop(s, v, r) ==> s.workers[v] == s'.workers[v]) {
    }
    RequestUntouched(s, s', r);
  }

  lemma EvidenceOfWorkerStep(s: State, w: nat, f: Fault, r: string)
    requires EvidenceInv(s) && Enabled(s, Step(w, f))
    ensures RequestOk(Apply(s, Step(w, f)), r)
  {
    assert RequestOk(s, r);
    if s.pub[Current(s, w)].Some? && s.pub[Current(s, w)].value.requestID == r
       && Commits(s.stores, s.pub[Current(s, w)].value, s.workers[w].pc, f)
    {
      CommitSelf(s, w, f);
    } else if s.pub[Current(s, w)].Some? && s.pub[Current(s, w)].value.requestID == r && s.workers[w].pc.AtProvider? {
      WriteSelf(s, w, f);
    } else {
      StepOther(s, w, f, r);
    }
  }

  lemma EvidenceOfCrash(s: State, w: nat, r: string)
    requires EvidenceInv(s) && Enabled(s, Crash(w))
    ensures RequestOk(Apply(s, Crash(w)), r)
  {
    assert RequestOk(s, r) && WorkerOk(s.pub, s.received, s.workers[w]);
    if InLoop(s, w, r) {
      CrashSelf(s, w, r);
    } else {
      RequestUntouched(s, Apply(s, Crash(w)), r);
    }
  }

  lemma EvidenceOfRequest(s: State, a: Action, r: string)
    requires EvidenceInv(s) && Enabled(s, a)
    ensures RequestOk(Apply(s, a), r)
  {
    match a {
      case Step(w, f) => EvidenceOfWorkerStep(s, w, f, r);
      case Crash(w) => EvidenceOfCrash(s, w, r);
      case _ =>
        assert RequestOk(s, r);
        RequestUntouched(s, Apply(s, a), r);
    }
  }

  lemma EvidenceStep(s: State, a: Action)
    requires EvidenceInv(s) && Enabled(s, a)
    ensures EvidenceInv(Apply(s, a))
  {
    ConservedStep(s, a);
    forall r ensures RequestOk(Apply(s, a), r) {
      EvidenceOfRequest(s, a, r);
    }
  }

  lemma {:induction false} EvidenceRun(s: State, acts: seq<Action>)
    requires EvidenceInv(s) && ValidRun(s, acts)
    ensures EvidenceInv(Run(s, acts)) && Run(s, acts).pub == s.pub
    decreases |acts|
  {
    if acts == [] {
    } else {
      EvidenceStep(s, acts[0]);
      EvidenceRun(Apply(s, acts[0]), acts[1..]);
    }
  }

  // ---- The results ---------------------------------------------------------------------

  /** The step in which a delivery of `r` goes from the decision write into the provider loop. */
  predicate EntersLoop(s: State, a: Action, r: string)
    requires Enabled(s, a)
  {
    a.Step? && s.pub[Current(s, a.w)].Some? && s.workers[a.w].pc.AtDecision?
    && s.pub[Current(s, a.w)].value.decision.requestID == r
    && CallPC(s.stores, s.pub[Current(s, a.w)].value, AtDecision, a.f).AtProvider?
  }

  function Entries(s: State, acts: seq<Action>, r: string): nat
    requires ValidRun(s, acts)
    decreases |acts|
  {
    if acts == [] then 0
    else (if EntersLoop(s, acts[0], r) then 1 else 0) + Entries(Apply(s, acts[0]), acts[1..], r)
  }

  /** In any run, from any state, at most one delivery per request id enters the provider loop. */
  lemma {:induction false} AtMostOneDeliveryEnters(s: State, acts: seq<Action>, r: string)
    requires ValidRun(s, acts)
    ensures Entries(s, acts, r) <= if DecisionKey(r) in s.stores.table then 0 else 1
    decreases |acts|
  {
    if acts == [] {
    } else {
      AtMostOneDeliveryEnters(Apply(s, acts[0]), acts[1..], r);
    }
  }

  /** The action of this state after which some response of `r` can no longer be stored. */
  predicate HarmfulAction(s: State, a: Action, r: string)
    requires Enabled(s, a)
  {
    match a
    case Step(w, f) =>
      && s.pub[Current(s, w)].Some? && s.pub[Current(s, w)].value.decision.requestID == r
      && Harmful(s.stores, s.pub[Current(s, w)].value, s.workers[w].pc, f)
    case Crash(w) =>
      && Processing(s, w) && s.pub[Current(s, w)].Some? && s.workers[w].pc.AtProvider?
      && s.pub[Current(s, w)].value.decision.requestID == r
    case _ => false
  }

  predicate HarmfulRun(s: State, acts: seq<Action>, r: string)
    requires ValidRun(s, acts)
    decreases |acts|
  {
    acts != [] && (HarmfulAction(s, acts[0], r) || HarmfulRun(Apply(s, acts[0]), acts[1..], r))
  }

  lemma {:induction false} HarmedIsHarmfulRun(s: State, acts: seq<Action>, r: string)
    requires ValidRun(s, acts)
    ensures r in Run(s, acts).harmed <==> r in s.harmed || HarmfulRun(s, acts, r)
    decreases |acts|
  {
    if acts == [] {
    } else {
      HarmedIsHarmfulRun(Apply(s, acts[0]), acts[1..], r);
    }
  }

  /** Exact provider persistence: at all times the stored rows of a request are those of a prefix of the
      responses of one delivery, the one that wrote the decision row; it stands in the loop or has left it.
      This is said of the keys that no published response of another request shares. */
  lemma ProviderRowsArePrefixOfWinner(pub: seq<Option<ScoringEvent>>, workers: nat, acts: seq<Action>, r: string)
    requires ProducerShaped(pub) && ValidRun(Init(pub, workers), acts)
    ensures var s := Run(Init(pub, workers), acts);
            && (DecisionKey(r) in s.stores.table <==> r in s.won)
            && (r in s.won ==> WinOk(s, r))
            && RowsArePrefix(pub, s.stores.table, r, WinnersResponses(s, r), Written(s, r))
            && (r in s.won && !s.won[r].entered ==> Written(s, r) == 0)
            && (forall w: nat :: InLoop(s, w, r) ==> r in s.won && Written(s, r) == s.workers[w].pc.k)
  {
    EvidenceInit(pub, workers);
    EvidenceRun(Init(pub, workers), acts);
    var s := Run(Init(pub, workers), acts);
    assert RequestOk(s, r);
    forall w: nat | InLoop(s, w, r) ensures r in s.won && Written(s, r) == s.workers[w].pc.k {
      assert LoopOk(s, w, r);
    }
  }

  predicate DistinctSources(rs: seq<ProviderRecord>) {
    forall i, j :: 0 <= i < j < |rs| ==> rs[i].source != rs[j].source
  }

  /** These responses of request `r` have their keys to themselves. */
  ghost predicate OwnKeys(pub: seq<Option<ScoringEvent>>, r: string, rs: seq<ProviderRecord>) {
    forall i :: 0 <= i < |rs| ==> Separate(pub, r, rs[i].source)
  }

  ghost predicate AllStored(t: Table, r: string, rs: seq<ProviderRecord>) {
    forall i :: 0 <= i < |rs| ==>
      ProviderKey(r, rs[i].source) in t && t[ProviderKey(r, rs[i].source)] == ProviderItem(rs[i])
  }

  lemma {:induction false} LookupDistinct(rs: seq<ProviderRecord>, n: nat, i: nat)
    requires i < n <= |rs| && DistinctSources(rs)
    ensures Lookup(rs, n, rs[i].source) == Some(rs[i])
  {
    LookupSome(rs, i, rs[i].source);
    if i < n - 1 {
      LookupDistinct(rs, n - 1, i);
    }
  }

  lemma PrefixCompleteIffAll(pub: seq<Option<ScoringEvent>>, t: Table, r: string, rs: seq<ProviderRecord>, n: nat)
    requires DistinctSources(rs) && OwnKeys(pub, r, rs) && RowsArePrefix(pub, t, r, rs, n)
    ensures AllStored(t, r, rs) <==> n == |rs|
  {
    if n == |rs| {
      forall i | 0 <= i < |rs| ensures ProviderKey(r, rs[i].source) in t && t[ProviderKey(r, rs[i].source)] == ProviderItem(rs[i]) {
        LookupDistinct(rs, n, i);
        assert RowIs(t, r, rs, n, rs[i].source);
      }
    } else {
      LookupSome(rs, n, rs[n].source);
      assert Separate(pub, r, rs[n].source) && RowIs(t, r, rs, n, rs[n].source);
    }
  }

  /** Completeness, exactly: whenever no worker stands in the loop of a decided request, all its responses are
      stored if and only if no action of the run was harmful to it (the decision write committed unreported, a
      provider write reported an error before the last response, or the worker crashed inside the loop). */
  lemma CompleteIffNoHarm(pub: seq<Option<ScoringEvent>>, workers: nat, acts: seq<Action>, r: string)
    requires ProducerShaped(pub) && ValidRun(Init(pub, workers), acts)
    requires r in Run(Init(pub, workers), acts).won
    requires forall w: nat :: !InLoop(Run(Init(pub, workers), acts), w, r)
    requires DistinctSources(WinnersResponses(Run(Init(pub, workers), acts), r))
    requires OwnKeys(pub, r, WinnersResponses(Run(Init(pub, workers), acts), r))
    ensures var s := Run(Init(pub, workers), acts);
            AllStored(s.stores.table, r, WinnersResponses(s, r)) <==> !HarmfulRun(Init(pub, workers), acts, r)
  {
    EvidenceInit(pub, workers);
    EvidenceRun(Init(pub, workers), acts);
    HarmedIsHarmfulRun(Init(pub, workers), acts, r);
    var s := Run(Init(pub, workers), acts);
    assert RequestOk(s, r);
    PrefixCompleteIffAll(pub, s.stores.table, r, WinnersResponses(s, r), Written(s, r));
  }

  /** The rows of `r` are settled: decided, and nobody in the loop. */
  ghost predicate RowsSettled(s: State, r: string) {
    r in s.won && forall w: nat :: !InLoop(s, w, r)
  }

  lemma SettledStep(s: State, a: Action, r: string)
    requires EvidenceInv(s) && Enabled(s, a) && RowsSettled(s, r)
    ensures RowsSettled(Apply(s, a), r) && SameRows(s.pub, s.stores.table, Apply(s, a).stores.table, r)
    ensures Apply(s, a).won[r] == s.won[r]
  {
    assert RequestOk(s, r);
    if a.Step? {
      var w, f := a.w, a.f;
      if s.pub[Current(s, w)].Some? {
        var ev := s.pub[Current(s, w)].value;
        if s.workers[w].pc.AtDecision? {
          if ev.requestID != r {
            DecisionRowsAfterPut(s.pub, s.stores.table, ev, f, r);
          }
        } else if s.workers[w].pc.AtProvider? {
          assert InLoop(s, w, ev.requestID);
          OtherRowsAfterWrite(s.pub, Current(s, w), s.stores.table, s.workers[w].pc.k, f, r);
        }
      }
    }
    forall v: nat ensures !InLoop(Apply(s, a), v, r) {
      assert !InLoop(s, v, r);
    }
  }

  /** What is missing once the loop has been left stays missing: redelivery never writes it. */
  lemma {:induction false} LostStaysLost(s: State, acts: seq<Action>, r: string)
    requires EvidenceInv(s) && ValidRun(s, acts) && RowsSettled(s, r)
    ensures SameRows(s.pub, s.stores.table, Run(s, acts).stores.table, r)
    decreases |acts|
  {
    if acts == [] {
    } else {
      SettledStep(s, acts[0], r);
      EvidenceStep(s, acts[0]);
      LostStaysLost(Apply(s, acts[0]), acts[1..], r);
    }
  }
}
