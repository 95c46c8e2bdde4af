/** The write-once audit store: one key space, two kinds of records, conditional puts. */
module Audit {
  import opened Domain

  datatype Record = Record(requestID: string, inputHash: string, score: real, decision: string,
                           signalsUsed: seq<string>, logicVersion: string, subject: string, timestamp: int)

  datatype ProviderRecord = ProviderRecord(requestID: string, inputHash: string, source: string,
                                           score: real, confidence: real, timestamp: int)

  datatype Item = DecisionItem(decision: Record) | ProviderItem(response: ProviderRecord)

  type Table = map<string, Item>

  /** What the network does to one remote call. `Lost`: the call fails and nothing was written.
      `Unacked`: the write took effect, the caller sees an error. `Retried`: the write took effect, the
      client library repeated the call, and the caller sees the answer to the repetition. */
  datatype Fault = NoFault | Lost | Unacked | Retried

  const FAULT_FREE: nat -> Fault := _ => NoFault

  /** What a caller of a sink sees: nil, ErrAlreadyExists, or some other error. */
  datatype Reply = Ok | AlreadyExists | Failed

  function DecisionKey(requestID: string): string {
    "DEC#" + requestID
  }

  function ProviderKey(requestID: string, source: string): string {
    "PRV#" + requestID + "#" + source
  }

  /** Two request ids that can meet in a provider key: one of them, followed by the separator, begins the other. */
  predicate Clash(r1: string, r2: string) {
    r1 + "#" <= r2 || r2 + "#" <= r1
  }

  function PutOnce(t: Table, pk: string, item: Item, f: Fault): Table {
    if pk !in t && f != Lost then t[pk := item] else t
  }

  function PutReply(t: Table, pk: string, f: Fault): Reply {
    match f
    case NoFault => if pk in t then AlreadyExists else Ok
    case Retried => AlreadyExists
    case Lost => Failed
    case Unacked => Failed
  }

  // ---- The two kinds of keys ------------------------------------------------------------

  lemma DecisionKeyInjective(r1: string, r2: string)
    requires DecisionKey(r1) == DecisionKey(r2)
    ensures r1 == r2
  {
    assert r1 == DecisionKey(r1)[4..];
    assert r2 == DecisionKey(r2)[4..];
  }

  lemma KindsDisjoint(r1: string, r2: string, source: string)
    ensures DecisionKey(r1) != ProviderKey(r2, source)
  {
    assert DecisionKey(r1)[0] == 'D';
    assert ProviderKey(r2, source)[0] == 'P';
  }

  /** Two provider keys meet only where the strings after the prefix meet. */
  lemma ProviderKeyTail(r1: string, s1: string, r2: string, s2: string)
    ensures ProviderKey(r1, s1) == ProviderKey(r2, s2) <==> r1 + "#" + s1 == r2 + "#" + s2
  {
    assert ProviderKey(r1, s1)[4..] == r1 + "#" + s1;
    assert ProviderKey(r2, s2)[4..] == r2 + "#" + s2;
    assert ProviderKey(r1, s1) == "PRV#" + (r1 + "#" + s1);
    assert ProviderKey(r2, s2) == "PRV#" + (r2 + "#" + s2);
  }

  lemma ProviderKeySource(r: string, s1: string, s2: string)
    requires ProviderKey(r, s1) == ProviderKey(r, s2)
    ensures s1 == s2
  {
    ProviderKeyTail(r, s1, r, s2);
    assert s1 == (r + "#" + s1)[|r| + 1..];
    assert s2 == (r + "#" + s2)[|r| + 1..];
  }

  /** The shorter of two different ids that share a provider key begins the longer one. */
  lemma SharedKeyClashes(r1: string, s1: string, r2: string, s2: string)
    requires ProviderKey(r1, s1) == ProviderKey(r2, s2) && |r1| <= |r2|
    ensures r1 == r2 || r1 + "#" <= r2
  {
    ProviderKeyTail(r1, s1, r2, s2);
    var a, b := r1 + "#" + s1, r2 + "#" + s2;
    if |r1| == |r2| {
      assert r1 == a[..|r1|] && r2 == b[..|r2|];
    } else {
      assert r1 + "#" == a[..|r1| + 1] && r2[..|r1| + 1] == b[..|r1| + 1];
    }
  }

  lemma ClashSharesKey(r1: string, r2: string) returns (s1: string, s2: string)
    requires r1 + "#" <= r2
    ensures ProviderKey(r1, s1) == ProviderKey(r2, s2)
  {
    s1, s2 := r2[|r1| + 1..] + "#", "";
    assert r2 == (r1 + "#") + r2[|r1| + 1..];
    assert r1 + "#" + s1 == r2 + "#" + s2;
    ProviderKeyTail(r1, s1, r2, s2);
  }

  /** Exactly which request ids can meet: two different ids share a provider key, for some sources, if and
      only if one of them followed by '#' begins the other. */
  lemma PairCollision(r1: string, r2: string)
    requires r1 != r2
    ensures (exists s1, s2 :: ProviderKey(r1, s1) == ProviderKey(r2, s2)) <==> Clash(r1, r2)
  {
    if s1, s2 :| ProviderKey(r1, s1) == ProviderKey(r2, s2) {
      if |r1| <= |r2| {
        SharedKeyClashes(r1, s1, r2, s2);
      } else {
        SharedKeyClashes(r2, s2, r1, s1);
      }
    }
    if r1 + "#" <= r2 {
      var s1, s2 := ClashSharesKey(r1, r2);
    } else if r2 + "#" <= r1 {
      var s2, s1 := ClashSharesKey(r2, r1);
      assert ProviderKey(r1, s1) == ProviderKey(r2, s2);
    }
  }

  /** For ids that do not clash, the provider key determines the request id and the source. */
  lemma ProviderKeyInjective(r1: string, s1: string, r2: string, s2: string)
    requires !Clash(r1, r2) && ProviderKey(r1, s1) == ProviderKey(r2, s2)
    ensures r1 == r2 && s1 == s2
  {
    if r1 != r2 {
      PairCollision(r1, r2);
    } else {
      ProviderKeySource(r1, s1, s2);
    }
  }

  /** In particular ids without '#', such as the generated ones. */
  lemma HashFreeNeverClash(r1: string, r2: string)
    requires '#' !in r1 && '#' !in r2
    ensures !Clash(r1, r2)
  {
    assert (r1 + "#")[|r1|] == '#' && (r2 + "#")[|r2|] == '#';
  }

  // ---- The table as two independent write-once maps ------------------------------------

  datatype Put = PutDecision(decision: Record) | PutProvider(response: ProviderRecord)

  function PutKey(p: Put): string {
    match p
    case PutDecision(r) => DecisionKey(r.requestID)
    case PutProvider(r) => ProviderKey(r.requestID, r.source)
  }

  function PutItem(p: Put): Item {
    match p
    case PutDecision(r) => DecisionItem(r)
    case PutProvider(r) => ProviderItem(r)
  }

  /** The request id and source of a provider put. */
  function PutIDs(p: Put): set<(string, string)> {
    match p
    case PutDecision(_) => {}
    case PutProvider(r) => {(r.requestID, r.source)}
  }

  function AllIDs(puts: seq<(Put, Fault)>): set<(string, string)>
    decreases |puts|
  {
    if puts == [] then {} else PutIDs(puts[0].0) + AllIDs(puts[1..])
  }

  /** No two of these share a provider key. */
  ghost predicate Unambiguous(ids: set<(string, string)>) {
    forall k, l :: k in ids && l in ids && ProviderKey(k.0, k.1) == ProviderKey(l.0, l.1) ==> k == l
  }

  datatype TwoMaps = TwoMaps(decisions: map<string, Record>, providers: map<(string, string), ProviderRecord>)

  function SpecPut(m: TwoMaps, p: Put, f: Fault): TwoMaps {
    match p
    case PutDecision(r) =>
      if r.requestID !in m.decisions && f != Lost then m.(decisions := m.decisions[r.requestID := r]) else m
    case PutProvider(r) =>
      if (r.requestID, r.source) !in m.providers && f != Lost
      then m.(providers := m.providers[(r.requestID, r.source) := r]) else m
  }

  function SpecReply(m: TwoMaps, p: Put, f: Fault): Reply {
    var present := match p
                   case PutDecision(r) => r.requestID in m.decisions
                   case PutProvider(r) => (r.requestID, r.source) in m.providers;
    match f
    case NoFault => if present then AlreadyExists else Ok
    case Retried => AlreadyExists
    case Lost => Failed
    case Unacked => Failed
  }

  /** A run of puts on the table, and on the two maps: final state and every reply. */
  function TableRun(t: Table, puts: seq<(Put, Fault)>): (Table, seq<Reply>)
    decreases |puts|
  {
    if puts == [] then (t, [])
    else
      var (p, f) := puts[0];
      var rest := TableRun(PutOnce(t, PutKey(p), PutItem(p), f), puts[1..]);
      (rest.0, [PutReply(t, PutKey(p), f)] + rest.1)
  }

  function SpecRun(m: TwoMaps, puts: seq<(Put, Fault)>): (TwoMaps, seq<Reply>)
    decreases |puts|
  {
    if puts == [] then (m, [])
    else
      var (p, f) := puts[0];
      var rest := SpecRun(SpecPut(m, p, f), puts[1..]);
      (rest.0, [SpecReply(m, p, f)] + rest.1)
  }

  ghost predicate HoldsDecisions(t: Table, m: TwoMaps) {
    forall r :: r in m.decisions ==> DecisionKey(r) in t && t[DecisionKey(r)] == DecisionItem(m.decisions[r])
  }

  ghost predicate HoldsProviders(t: Table, m: TwoMaps) {
    forall k :: k in m.providers ==> ProviderKey(k.0, k.1) in t && t[ProviderKey(k.0, k.1)] == ProviderItem(m.providers[k])
  }

  ghost predicate KnownKey(m: TwoMaps, pk: string) {
    || (exists r :: r in m.decisions && pk == DecisionKey(r))
    || (exists k :: k in m.providers && pk == ProviderKey(k.0, k.1))
  }

  /** The table holds exactly the two maps, under their encoded keys. */
  ghost predicate Represents(t: Table, m: TwoMaps) {
    && Unambiguous(m.providers.Keys) && HoldsDecisions(t, m) && HoldsProviders(t, m)
    && forall pk :: pk in t ==> KnownKey(m, pk)
  }

  lemma PutPresence(t: Table, m: TwoMaps, p: Put)
    requires Represents(t, m) && Unambiguous(m.providers.Keys + PutIDs(p))
    ensures p.PutDecision? ==> (PutKey(p) in t <==> p.decision.requestID in m.decisions)
    ensures p.PutProvider? ==> (PutKey(p) in t <==> (p.response.requestID, p.response.source) in m.providers)
  {
    var pk := PutKey(p);
    if pk in t {
      assert KnownKey(m, pk);
      if r :| r in m.decisions && pk == DecisionKey(r) {
        if p.PutDecision? {
          DecisionKeyInjective(r, p.decision.requestID);
        } else {
          KindsDisjoint(r, p.response.requestID, p.response.source);
        }
      } else {
        var k :| k in m.providers && pk == ProviderKey(k.0, k.1);
        if p.PutDecision? {
          KindsDisjoint(p.decision.requestID, k.0, k.1);
        } else {
          assert (p.response.requestID, p.response.source) in m.providers.Keys + PutIDs(p);
        }
      }
    }
    if p.PutProvider? {
      var k := (p.response.requestID, p.response.source);
      assert k in m.providers ==> ProviderKey(k.0, k.1) in t;
    }
  }

  lemma KnownAfterPut(m: TwoMaps, p: Put, f: Fault, pk: string)
    requires KnownKey(m, pk)
    ensures KnownKey(SpecPut(m, p, f), pk)
  {
    var m' := SpecPut(m, p, f);
    if r :| r in m.decisions && pk == DecisionKey(r) {
      assert r in m'.decisions;
    } else {
      var k :| k in m.providers && pk == ProviderKey(k.0, k.1);
      assert k in m'.providers;
    }
  }

  lemma NewKeyKnown(m: TwoMaps, p: Put)
    ensures KnownKey(SpecPut(m, p, NoFault), PutKey(p))
  {
    var m' := SpecPut(m, p, NoFault);
    match p
    case PutDecision(r) =>
      assert r.requestID in m'.decisions;
    case PutProvider(r) =>
      assert (r.requestID, r.source) in m'.providers;
  }

  lemma NewDecisionRefines(t: Table, m: TwoMaps, r: Record)
    requires Represents(t, m) && DecisionKey(r.requestID) !in t
    ensures Represents(t[DecisionKey(r.requestID) := DecisionItem(r)], m.(decisions := m.decisions[r.requestID := r]))
  {
    var p := PutDecision(r);
    var t', m' := t[DecisionKey(r.requestID) := DecisionItem(r)], m.(decisions := m.decisions[r.requestID := r]);
    assert m.providers.Keys + PutIDs(p) == m.providers.Keys;
    PutPresence(t, m, p);
    assert m' == SpecPut(m, p, NoFault);
    NewKeyKnown(m, p);
    forall pk | pk in t' && pk != DecisionKey(r.requestID) {
      KnownAfterPut(m, p, NoFault, pk);
    }
    assert HoldsDecisions(t', m') && HoldsProviders(t', m');
  }

  lemma NewProviderRefines(t: Table, m: TwoMaps, r: ProviderRecord)
    requires Represents(t, m) && ProviderKey(r.requestID, r.source) !in t
    requires Unambiguous(m.providers.Keys + {(r.requestID, r.source)})
    ensures Represents(t[ProviderKey(r.requestID, r.source) := ProviderItem(r)],
                       m.(providers := m.providers[(r.requestID, r.source) := r]))
  {
    var p, pk := PutProvider(r), ProviderKey(r.requestID, r.source);
    var t', m' := t[pk := ProviderItem(r)], m.(providers := m.providers[(r.requestID, r.source) := r]);
    PutPresence(t, m, p);
    assert m' == SpecPut(m, p, NoFault);
    NewKeyKnown(m, p);
    forall q | q in t' && q != pk {
      KnownAfterPut(m, p, NoFault, q);
    }
    assert m'.providers.Keys == m.providers.Keys + {(r.requestID, r.source)};
    assert HoldsDecisions(t', m') && HoldsProviders(t', m');
  }

  lemma PutRefines(t: Table, m: TwoMaps, p: Put, f: Fault)
    requires Represents(t, m) && Unambiguous(m.providers.Keys + PutIDs(p))
    ensures Represents(PutOnce(t, PutKey(p), PutItem(p), f), SpecPut(m, p, f))
    ensures PutReply(t, PutKey(p), f) == SpecReply(m, p, f)
  {
    PutPresence(t, m, p);
    if PutKey(p) !in t && f != Lost {
      match p
      case PutDecision(r) => NewDecisionRefines(t, m, r);
      case PutProvider(r) => NewProviderRefines(t, m, r);
    }
  }

  lemma UnambiguousWithin(ids: set<(string, string)>, all: set<(string, string)>)
    requires ids <= all && Unambiguous(all)
    ensures Unambiguous(ids)
  {
  }

  lemma SpecPutIDs(m: TwoMaps, p: Put, f: Fault)
    ensures SpecPut(m, p, f).providers.Keys <= m.providers.Keys + PutIDs(p)
    ensures f == NoFault ==> SpecPut(m, p, f).providers.Keys == m.providers.Keys + PutIDs(p)
  {
  }

  lemma RunStep(t: Table, m: TwoMaps, p: Put, f: Fault, rest: seq<(Put, Fault)>)
    ensures TableRun(t, [(p, f)] + rest)
            == (var r := TableRun(PutOnce(t, PutKey(p), PutItem(p), f), rest); (r.0, [PutReply(t, PutKey(p), f)] + r.1))
    ensures SpecRun(m, [(p, f)] + rest)
            == (var r := SpecRun(SpecPut(m, p, f), rest); (r.0, [SpecReply(m, p, f)] + r.1))
    ensures AllIDs([(p, f)] + rest) == PutIDs(p) + AllIDs(rest)
  {
    assert ([(p, f)] + rest)[1..] == rest;
  }

  /** Store refinement: on every sequence of puts, whatever their faults, in which no two different pairs of
      request id and source share a key, the single table and the two independent write-once maps give the
      same replies and keep representing each other. */
  lemma {:induction false} TableRefinesTwoMaps(t: Table, m: TwoMaps, puts: seq<(Put, Fault)>)
    requires Represents(t, m) && Unambiguous(m.providers.Keys + AllIDs(puts))
    ensures Represents(TableRun(t, puts).0, SpecRun(m, puts).0)
    ensures TableRun(t, puts).1 == SpecRun(m, puts).1
    decreases |puts|
  {
    if puts == [] {
    } else {
      var (p, f) := puts[0];
      var rest, all := puts[1..], m.providers.Keys + AllIDs(puts);
      assert puts == [(p, f)] + rest;
      RunStep(t, m, p, f, rest);
      SpecPutIDs(m, p, f);
      UnambiguousWithin(m.providers.Keys + PutIDs(p), all);
      UnambiguousWithin(SpecPut(m, p, f).providers.Keys + AllIDs(rest), all);
      PutRefines(t, m, p, f);
      TableRefinesTwoMaps(PutOnce(t, PutKey(p), PutItem(p), f), SpecPut(m, p, f), rest);
    }
  }

  /** The first put whose key is taken by another pair is answered differently. */
  lemma AmbiguousReply(t: Table, m: TwoMaps, p: Put)
    requires Represents(t, m) && !Unambiguous(m.providers.Keys + PutIDs(p))
    ensures PutReply(t, PutKey(p), NoFault) != SpecReply(m, p, NoFault)
  {
    var k, l :| k in m.providers.Keys + PutIDs(p) && l in m.providers.Keys + PutIDs(p)
      && ProviderKey(k.0, k.1) == ProviderKey(l.0, l.1) && k != l;
    assert PutIDs(p) != {};
    assert k in m.providers.Keys || l in m.providers.Keys;
  }

  /** And only then: the replies to a sequence of fault-free puts agree if and only if no two of the pairs
      stored and put share a key. */
  lemma {:induction false} RefinesExactlyWhenUnambiguous(t: Table, m: TwoMaps, puts: seq<(Put, Fault)>)
    requires Represents(t, m) && forall i :: 0 <= i < |puts| ==> puts[i].1 == NoFault
    ensures TableRun(t, puts).1 == SpecRun(m, puts).1 <==> Unambiguous(m.providers.Keys + AllIDs(puts))
    decreases |puts|
  {
    if puts == [] {
      assert m.providers.Keys + {} == m.providers.Keys;
    } else {
      var p, rest := puts[0].0, puts[1..];
      assert puts == [(p, NoFault)] + rest;
      RunStep(t, m, p, NoFault, rest);
      if Unambiguous(m.providers.Keys + PutIDs(p)) {
        KeepsRefining(t, m, p, rest);
        RefinesExactlyWhenUnambiguous(PutOnce(t, PutKey(p), PutItem(p), NoFault), SpecPut(m, p, NoFault), rest);
      } else {
        AmbiguousReply(t, m, p);
        assert TableRun(t, puts).1[0] != SpecRun(m, puts).1[0];
        assert m.providers.Keys + PutIDs(p) <= m.providers.Keys + AllIDs(puts);
      }
    }
  }

  lemma SameIDsLeft(m: TwoMaps, p: Put, rest: seq<(Put, Fault)>)
    ensures SpecPut(m, p, NoFault).providers.Keys + AllIDs(rest) == m.providers.Keys + AllIDs([(p, NoFault)] + rest)
  {
    RunStep(map[], m, p, NoFault, rest);
    SpecPutIDs(m, p, NoFault);
  }

  lemma RepliesLeft(t: Table, m: TwoMaps, p: Put, rest: seq<(Put, Fault)>)
    requires PutReply(t, PutKey(p), NoFault) == SpecReply(m, p, NoFault)
    ensures var t', m' := PutOnce(t, PutKey(p), PutItem(p), NoFault), SpecPut(m, p, NoFault);
            TableRun(t, [(p, NoFault)] + rest).1 == SpecRun(m, [(p, NoFault)] + rest).1
            <==> TableRun(t', rest).1 == SpecRun(m', rest).1
  {
    RunStep(t, m, p, NoFault, rest);
    SameTails(PutReply(t, PutKey(p), NoFault), TableRun(PutOnce(t, PutKey(p), PutItem(p), NoFault), rest).1,
              SpecRun(SpecPut(m, p, NoFault), rest).1);
  }

  /** An unambiguous put leaves the question to the rest of the sequence. */
  lemma KeepsRefining(t: Table, m: TwoMaps, p: Put, rest: seq<(Put, Fault)>)
    requires Represents(t, m) && Unambiguous(m.providers.Keys + PutIDs(p))
    ensures var t', m' := PutOnce(t, PutKey(p), PutItem(p), NoFault), SpecPut(m, p, NoFault);
            && Represents(t', m')
            && m'.providers.Keys + AllIDs(rest) == m.providers.Keys + AllIDs([(p, NoFault)] + rest)
            && (TableRun(t, [(p, NoFault)] + rest).1 == SpecRun(m, [(p, NoFault)] + rest).1
                <==> TableRun(t', rest).1 == SpecRun(m', rest).1)
  {
    SameIDsLeft(m, p, rest);
    PutRefines(t, m, p, NoFault);
    RepliesLeft(t, m, p, rest);
  }

  lemma SameTails(x: Reply, a: seq<Reply>, b: seq<Reply>)
    ensures [x] + a == [x] + b <==> a == b
  {
    assert ([x] + a)[1..] == a && ([x] + b)[1..] == b;
  }

  predicate NoClash(ids: set<string>) {
    forall r1, r2 :: r1 in ids && r2 in ids && r1 != r2 ==> !Clash(r1, r2)
  }

  /** Every put is for one of these request ids. */
  predicate ForIDs(puts: seq<(Put, Fault)>, ids: set<string>) {
    forall k :: k in AllIDs(puts) ==> k.0 in ids
  }

  lemma NoClashUnambiguous(keys: set<(string, string)>, ids: set<string>)
    requires NoClash(ids) && forall k :: k in keys ==> k.0 in ids
    ensures Unambiguous(keys)
  {
    forall k, l | k in keys && l in keys && ProviderKey(k.0, k.1) == ProviderKey(l.0, l.1) ensures k == l {
      assert !Clash(k.0, k.0);
      ProviderKeyInjective(k.0, k.1, l.0, l.1);
    }
  }

  /** A clashing pair of ids breaks it: two responses of different requests, one row. */
  lemma ClashBreaksRefinement(r1: string, r2: string, x: ProviderRecord) returns (puts: seq<(Put, Fault)>)
    requires r1 != r2 && Clash(r1, r2)
    ensures ForIDs(puts, {r1, r2})
    ensures TableRun(map[], puts).1 == [Ok, AlreadyExists] && SpecRun(TwoMaps(map[], map[]), puts).1 == [Ok, Ok]
  {
    PairCollision(r1, r2);
    var s1, s2 :| ProviderKey(r1, s1) == ProviderKey(r2, s2);
    var p1, p2 := PutProvider(x.(requestID := r1, source := s1)), PutProvider(x.(requestID := r2, source := s2));
    puts := [(p1, NoFault), (p2, NoFault)];
    assert puts[1..] == [(p2, NoFault)] && puts[1..][1..] == [];
    var t1, m1 := PutOnce(map[], PutKey(p1), PutItem(p1), NoFault), SpecPut(TwoMaps(map[], map[]), p1, NoFault);
    assert TableRun(t1, puts[1..]).1 == [AlreadyExists];
    assert SpecRun(m1, puts[1..]).1 == [Ok];
    assert AllIDs(puts[1..]) == {(r2, s2)};
  }

  /** The exact condition on request ids: the table behaves like two independent maps on all puts for a set
      of ids if and only if no two of the ids clash. */
  lemma RefinesExactlyWhenNoClash(ids: set<string>)
    ensures (forall puts :: ForIDs(puts, ids) ==> TableRun(map[], puts).1 == SpecRun(TwoMaps(map[], map[]), puts).1)
            <==> NoClash(ids)
  {
    var empty := TwoMaps(map[], map[]);
    if NoClash(ids) {
      forall puts | ForIDs(puts, ids) ensures TableRun(map[], puts).1 == SpecRun(empty, puts).1 {
        NoClashUnambiguous(empty.providers.Keys + AllIDs(puts), ids);
        TableRefinesTwoMaps(map[], empty, puts);
      }
    } else {
      var r1, r2 :| r1 in ids && r2 in ids && r1 != r2 && Clash(r1, r2);
      var puts := ClashBreaksRefinement(r1, r2, ProviderRecord(r1, "", "", 0.0, 0.0, 0));
      assert ForIDs(puts, ids);
    }
  }

  /** Write-once: no sequence of puts, faulty or not, changes or removes a stored row. */
  lemma {:induction false} RowsNeverChange(t: Table, puts: seq<(Put, Fault)>, pk: string)
    requires pk in t
    ensures pk in TableRun(t, puts).0 && TableRun(t, puts).0[pk] == t[pk]
    decreases |puts|
  {
    if puts == [] {
    } else {
      var (p, f) := puts[0];
      RowsNeverChange(PutOnce(t, PutKey(p), PutItem(p), f), puts[1..], pk);
    }
  }

  // ---- The sinks -----------------------------------------------------------------------

  function MemoryPut(stored: seq<Record>, r: Record): (seq<Record>, Reply) {
    if StoredID(stored, r.requestID) then (stored, AlreadyExists) else (stored + [r], Ok)
  }

  predicate StoredID(stored: seq<Record>, requestID: string) {
    exists i :: 0 <= i < |stored| && stored[i].requestID == requestID
  }

  function FaultFree(puts: seq<Put>): (r: seq<(Put, Fault)>)
    ensures |r| == |puts|
  {
    seq(|puts|, i requires 0 <= i < |puts| => (puts[i], NoFault))
  }

  function DecisionPuts(puts: seq<Record>): (r: seq<Put>)
    ensures |r| == |puts|
  {
    seq(|puts|, i requires 0 <= i < |puts| => PutDecision(puts[i]))
  }

  datatype Memory = Memory(decisions: seq<Record>, providers: seq<ProviderRecord>)

  /** A put on the in-memory sink: a provider response is always appended. */
  function MemoryPutAny(m: Memory, p: Put): (Memory, Reply) {
    match p
    case PutDecision(r) =>
      var (stored, reply) := MemoryPut(m.decisions, r);
      (m.(decisions := stored), reply)
    case PutProvider(r) => (m.(providers := m.providers + [r]), Ok)
  }

  /** A run of puts of both kinds on the in-memory sink. */
  function MemoryPuts(m: Memory, puts: seq<Put>): (Memory, seq<Reply>)
    decreases |puts|
  {
    if puts == [] then (m, [])
    else
      var (m', reply) := MemoryPutAny(m, puts[0]);
      var rest := MemoryPuts(m', puts[1..]);
      (rest.0, [reply] + rest.1)
  }

  /** The decision rows of the table are exactly the records of the list, each id once. */
  ghost predicate SameDecisions(t: Table, stored: seq<Record>) {
    && (forall i, j :: 0 <= i < j < |stored| ==> stored[i].requestID != stored[j].requestID)
    && (forall i :: 0 <= i < |stored| ==>
          DecisionKey(stored[i].requestID) in t && t[DecisionKey(stored[i].requestID)] == DecisionItem(stored[i]))
    && (forall r :: DecisionKey(r) in t ==> StoredID(stored, r))
  }

  lemma NewDecisionRow(t: Table, stored: seq<Record>, r: Record)
    requires SameDecisions(t, stored) && DecisionKey(r.requestID) !in t
    ensures SameDecisions(t[DecisionKey(r.requestID) := DecisionItem(r)], stored + [r])
  {
    var t', stored' := t[DecisionKey(r.requestID) := DecisionItem(r)], stored + [r];
    forall q | DecisionKey(q) in t' ensures StoredID(stored', q) {
      if DecisionKey(q) == DecisionKey(r.requestID) {
        DecisionKeyInjective(q, r.requestID);
        assert stored'[|stored|].requestID == q;
      } else {
        var i :| 0 <= i < |stored| && stored[i].requestID == q;
        assert stored'[i].requestID == q;
      }
    }
  }

  /** One put of either kind keeps the decisions the same, and is answered the same unless it is a response
      whose key the table already has. */
  lemma MemoryStep(t: Table, m: Memory, p: Put)
    requires SameDecisions(t, m.decisions)
    ensures SameDecisions(PutOnce(t, PutKey(p), PutItem(p), NoFault), MemoryPutAny(m, p).0.decisions)
    ensures PutReply(t, PutKey(p), NoFault) == MemoryPutAny(m, p).1 <==> !(p.PutProvider? && PutKey(p) in t)
  {
    match p
    case PutDecision(r) =>
      assert PutKey(p) in t <==> StoredID(m.decisions, r.requestID);
      if PutKey(p) !in t {
        NewDecisionRow(t, m.decisions, r);
      }
    case PutProvider(r) =>
      forall q ensures DecisionKey(q) != PutKey(p) {
        KindsDisjoint(q, r.requestID, r.source);
      }
  }

  /** No put is for a provider key that the table has or an earlier put is for. */
  predicate FreshResponses(t: Table, puts: seq<Put>) {
    forall i :: 0 <= i < |puts| && puts[i].PutProvider? ==>
      PutKey(puts[i]) !in t && forall j :: 0 <= j < i && puts[j].PutProvider? ==> PutKey(puts[j]) != PutKey(puts[i])
  }

  lemma FreshStep(t: Table, p: Put, rest: seq<Put>)
    ensures FreshResponses(t, [p] + rest)
            <==> !(p.PutProvider? && PutKey(p) in t) && FreshResponses(PutOnce(t, PutKey(p), PutItem(p), NoFault), rest)
  {
    var puts, t' := [p] + rest, PutOnce(t, PutKey(p), PutItem(p), NoFault);
    forall i | 0 <= i < |rest| && rest[i].PutProvider? && p.PutDecision? ensures PutKey(rest[i]) != PutKey(p) {
      KindsDisjoint(p.decision.requestID, rest[i].response.requestID, rest[i].response.source);
    }
    if FreshResponses(t, puts) {
      assert puts[0] == p;
      forall i | 0 <= i < |rest| && rest[i].PutProvider?
        ensures PutKey(rest[i]) !in t' && forall j :: 0 <= j < i && rest[j].PutProvider? ==> PutKey(rest[j]) != PutKey(rest[i])
      {
        assert puts[i + 1] == rest[i];
        assert forall j :: 0 <= j < i ==> puts[j + 1] == rest[j];
      }
    }
    if !(p.PutProvider? && PutKey(p) in t) && FreshResponses(t', rest) {
      forall i | 0 <= i < |puts| && puts[i].PutProvider?
        ensures PutKey(puts[i]) !in t && forall j :: 0 <= j < i && puts[j].PutProvider? ==> PutKey(puts[j]) != PutKey(puts[i])
      {
        if i > 0 {
          assert puts[i] == rest[i - 1];
        }
      }
    }
  }

  /** The in-memory sink of the tests and the conditional put hold the same decisions after every sequence of
      fault-free puts of both kinds; and they answer alike if and only if no provider key is put twice or is
      already stored. */
  lemma {:induction false} MemorySinkAgreesExactly(t: Table, m: Memory, puts: seq<Put>)
    requires SameDecisions(t, m.decisions)
    ensures SameDecisions(TableRun(t, FaultFree(puts)).0, MemoryPuts(m, puts).0.decisions)
    ensures TableRun(t, FaultFree(puts)).1 == MemoryPuts(m, puts).1 <==> FreshResponses(t, puts)
    decreases |puts|
  {
    if puts == [] {
    } else {
      var p, rest := puts[0], puts[1..];
      assert puts == [p] + rest && FaultFree(puts) == [(p, NoFault)] + FaultFree(rest);
      RunStep(t, TwoMaps(map[], map[]), p, NoFault, FaultFree(rest));
      MemoryStep(t, m, p);
      FreshStep(t, p, rest);
      var t', m' := PutOnce(t, PutKey(p), PutItem(p), NoFault), MemoryPutAny(m, p).0;
      MemorySinkAgreesExactly(t', m', rest);
      SameHeadsAndTails(PutReply(t, PutKey(p), NoFault), TableRun(t', FaultFree(rest)).1,
                        MemoryPutAny(m, p).1, MemoryPuts(m', rest).1);
    }
  }

  /** The responses among these puts, in order. */
  function ResponsesIn(puts: seq<Put>): seq<ProviderRecord> {
    if puts == [] then []
    else (match puts[0] case PutDecision(_) => [] case PutProvider(r) => [r]) + ResponsesIn(puts[1..])
  }

  lemma SameHeadsAndTails(x: Reply, a: seq<Reply>, y: Reply, b: seq<Reply>)
    ensures [x] + a == [y] + b <==> x == y && a == b
  {
    assert ([x] + a)[1..] == a && ([y] + b)[1..] == b && ([x] + a)[0] == x && ([y] + b)[0] == y;
  }

  /** The in-memory sink keeps every response that was put, in order, repetitions and all. */
  lemma {:induction false} MemoryKeepsResponses(m: Memory, puts: seq<Put>)
    ensures MemoryPuts(m, puts).0.providers == m.providers + ResponsesIn(puts)
    decreases |puts|
  {
    if puts == [] {
    } else {
      MemoryKeepsResponses(MemoryPutAny(m, puts[0]).0, puts[1..]);
    }
  }

  /** In particular they agree on every sequence of decision puts. */
  lemma MemorySinkAgrees(t: Table, m: Memory, puts: seq<Record>)
    requires SameDecisions(t, m.decisions)
    ensures SameDecisions(TableRun(t, FaultFree(DecisionPuts(puts))).0, MemoryPuts(m, DecisionPuts(puts)).0.decisions)
    ensures TableRun(t, FaultFree(DecisionPuts(puts))).1 == MemoryPuts(m, DecisionPuts(puts)).1
  {
    MemorySinkAgreesExactly(t, m, DecisionPuts(puts));
  }

  /** The fate of every remote call of one process, in order. */
  class Net {
    const fate: nat -> Fault
    var calls: nat

    constructor (fate: nat -> Fault)
      ensures this.fate == fate && calls == 0
    {
      this.fate := fate;
      calls := 0;
    }

    method Next() returns (f: Fault)
      modifies this
      ensures f == fate(old(calls)) && calls == old(calls) + 1
    {
      f := fate(calls);
      calls := calls + 1;
    }
  }

  class DynamoSink {
    const net: Net
    var table: Table

    constructor (net: Net)
      ensures this.net == net && table == map[]
    {
      this.net := net;
      table := map[];
    }

    method PutDecision(r: Record) returns (reply: Reply)
      modifies this, net
      ensures net.calls == old(net.calls) + 1
      ensures reply == PutReply(old(table), DecisionKey(r.requestID), net.fate(old(net.calls)))
      ensures table == PutOnce(old(table), DecisionKey(r.requestID), DecisionItem(r), net.fate(old(net.calls)))
      ensures reply == Ok ==>
                "DEC#" + r.requestID in table && table["DEC#" + r.requestID] == DecisionItem(r)
      ensures "DEC#" + r.requestID in old(table) ==> table == old(table)
    {
      reply := ConditionalPut("DEC#" + r.requestID, DecisionItem(r));
    }

    method PutProviderResponse(r: ProviderRecord) returns (reply: Reply)
      modifies this, net
      ensures net.calls == old(net.calls) + 1
      ensures reply == PutReply(old(table), ProviderKey(r.requestID, r.source), net.fate(old(net.calls)))
      ensures table == PutOnce(old(table), ProviderKey(r.requestID, r.source), ProviderItem(r), net.fate(old(net.calls)))
      ensures reply == Ok ==>
                && "PRV#" + r.requestID + "#" + r.source in table
                && table["PRV#" + r.requestID + "#" + r.source] == ProviderItem(r)
      ensures "PRV#" + r.requestID + "#" + r.source in old(table) ==> table == old(table)
    {
      reply := ConditionalPut("PRV#" + r.requestID + "#" + r.source, ProviderItem(r));
    }

    /** The conditional put: write unless the key exists; an existing key is reported as such. */
    method ConditionalPut(pk: string, item: Item) returns (reply: Reply)
      modifies this, net
      ensures net.calls == old(net.calls) + 1
      ensures reply == PutReply(old(table), pk, net.fate(old(net.calls)))
      ensures table == PutOnce(old(table), pk, item, net.fate(old(net.calls)))
      ensures var f := net.fate(old(net.calls));
              && (reply == Ok <==> f == NoFault && pk !in old(table))
              && (reply == Failed <==> f == Lost || f == Unacked)
              && table == if pk in old(table) || f == Lost then old(table) else old(table)[pk := item]
    {
      var f := net.Next();
      if f == Lost {
        return Failed;
      }
      var conditionFailed := pk in table;
      if !conditionFailed {
        table := table[pk := item];
      }
      match f
      case Unacked => reply := Failed;
      case Retried => reply := AlreadyExists;
      case _ => reply := if conditionFailed then AlreadyExists else Ok;
    }
  }

  /** The write-once in-memory sink. */
  class MemorySink {
    var decisions: seq<Record>
    var providers: seq<ProviderRecord>
    var seen: map<string, bool>

    ghost predicate Valid()
      reads this
    {
      forall r :: (r in seen && seen[r]) <==> StoredID(decisions, r)
    }

    constructor ()
      ensures Valid() && decisions == [] && providers == []
    {
      decisions, providers, seen := [], [], map[];
    }

    method PutDecision(r: Record) returns (reply: Reply)
      requires Valid()
      modifies this
      ensures Valid() && providers == old(providers)
      ensures (decisions, reply) == MemoryPut(old(decisions), r)
    {
      if r.requestID in seen && seen[r.requestID] {
        return AlreadyExists;
      }
      seen := seen[r.requestID := true];
      decisions := decisions + [r];
      reply := Ok;
      assert decisions[|decisions| - 1] == r;
      forall q ensures (q in seen && seen[q]) <==> StoredID(decisions, q) {
        if i :| 0 <= i < |decisions| - 1 && decisions[i].requestID == q {
          assert old(decisions)[i].requestID == q;
        }
        if StoredID(old(decisions), q) {
          var i :| 0 <= i < |old(decisions)| && old(decisions)[i].requestID == q;
          assert decisions[i].requestID == q;
        }
      }
    }

    /** Unlike the conditional put, provider responses are appended without a check. */
    method PutProviderResponse(r: ProviderRecord) returns (reply: Reply)
      modifies this
      ensures reply == Ok && providers == old(providers) + [r]
      ensures decisions == old(decisions) && seen == old(seen)
    {
      providers := providers + [r];
      reply := Ok;
    }
  }
}
