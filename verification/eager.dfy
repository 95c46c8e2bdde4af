/** The two models of Stage A agree: every eager schedule in virtual time is a run of the step system. */
module Eager {
  import opened Domain
  import opened Sums
  import opened Pipeline
  import opened FanIn
  import VT = VirtualTime

  // ---- Runs ----------------------------------------------------------------------------

  lemma Cons(s: State, a: Action, rest: seq<Action>)
    requires Enabled(s, a) && ValidRun(Apply(s, a), rest)
    ensures ValidRun(s, [a] + rest) && Run(s, [a] + rest) == Run(Apply(s, a), rest)
  {
    assert ([a] + rest)[1..] == rest;
  }

  lemma {:induction false} Concat(s: State, a: seq<Action>, b: seq<Action>)
    requires ValidRun(s, a) && ValidRun(Run(s, a), b)
    ensures ValidRun(s, a + b) && Run(s, a + b) == Run(Run(s, a), b)
    decreases |a|
  {
    if a == [] {
      assert a + b == b;
    } else {
      assert (a + b)[1..] == a[1..] + b;
      Concat(Apply(s, a[0]), a[1..], b);
    }
  }

  // ---- One resolution ------------------------------------------------------------------

  function Reports(r: Option<RiskData>): seq<RiskData> {
    match r
    case None => []
    case Some(d) => [d]
  }

  /** Provider `i` has resolved, and its resolution has been read. */
  function Resolved(s: State, i: nat, res: Option<RiskData>): State
    requires i < |s.senders|
  {
    s.(senders := s.senders[i := Exited(res)], received := s.received + [res],
       collected := s.collected + Reports(res),
       observed := if s.withObserver then s.observed + Reports(res) else s.observed)
  }

  /** From a provider that is ready to send to the collector that has read it. */
  lemma SendAndReceive(s: State, i: nat, res: Option<RiskData>)
    requires i < |s.senders| && s.senders[i] == Ready(res)
    requires s.main.Collecting? && s.channel == [] && |s.received| < |s.senders|
    ensures ValidRun(s, [Send(i), Receive])
    ensures Run(s, [Send(i), Receive])
            == s.(senders := s.senders[i := Exited(res)], received := s.received + [res], collected := s.collected + Reports(res))
  {
    var s1 := Apply(s, Send(i));
    assert s1.channel == [res] && s1.channel[1..] == [];
    var s2 := Apply(s1, Receive);
    assert ValidRun(s2, []) && Run(s2, []) == s2;
    Cons(s1, Receive, []);
    Cons(s, Send(i), [Receive]);
    assert [Receive] + [] == [Receive] && [Send(i)] + [Receive] == [Send(i), Receive];
    assert s.collected + [] == s.collected;
  }

  lemma ResolveOne(s: State, i: nat, res: Option<RiskData>) returns (acts: seq<Action>)
    requires i < |s.senders| && s.senders[i].Fetching?
    requires s.main.Collecting? && s.channel == [] && |s.received| < |s.senders|
    ensures ValidRun(s, acts) && Run(s, acts) == Resolved(s, i, res)
  {
    assert s.observed + [] == s.observed;
    var s1 := Apply(s, if res.Some? then FetchSucceeds(i, res.value) else FetchFails(i));
    if s1.senders[i].Observing? {
      var s2 := Apply(s1, Observe(i));
      assert s2.senders == s.senders[i := Ready(res)];
      SendAndReceive(s2, i, res);
      Cons(s1, Observe(i), [Send(i), Receive]);
      Cons(s, FetchSucceeds(i, res.value), [Observe(i)] + [Send(i), Receive]);
      acts := [FetchSucceeds(i, res.value)] + ([Observe(i)] + [Send(i), Receive]);
      assert s2.senders[i := Exited(res)] == s.senders[i := Exited(res)];
    } else {
      SendAndReceive(s1, i, res);
      var a := if res.Some? then FetchSucceeds(i, res.value) else FetchFails(i);
      Cons(s, a, [Send(i), Receive]);
      acts := [a] + [Send(i), Receive];
      assert s1.senders[i := Exited(res)] == s.senders[i := Exited(res)];
    }
  }

  // ---- A whole schedule ----------------------------------------------------------------

  /** The arrival at position `j` is the resolution of provider `order[j]`. */
  ghost predicate Arranges(order: seq<nat>, arr: seq<VT.Arrival>, rs: seq<VT.Arrival>) {
    && |order| == |arr| == |rs|
    && (forall j :: 0 <= j < |order| ==> order[j] < |rs| && arr[j] == rs[order[j]])
    && (forall i, j :: 0 <= i < j < |order| ==> order[i] != order[j])
  }

  /** Positions in a sequence without its element `i`, as positions in the whole sequence. */
  function Around(positions: seq<nat>, i: nat): (r: seq<nat>)
    ensures |r| == |positions|
  {
    seq(|positions|, j requires 0 <= j < |positions| => if positions[j] < i then positions[j] else positions[j] + 1)
  }

  lemma ArrangeLast(arr: seq<VT.Arrival>, rs: seq<VT.Arrival>, i: nat, rest: seq<nat>)
    requires arr != [] && i < |rs| && rs[i] == arr[|arr| - 1]
    requires Arranges(rest, arr[..|arr| - 1], Without(rs, i))
    ensures Arranges(Around(rest, i) + [i], arr, rs)
  {
    var order := Around(rest, i) + [i];
    forall j | 0 <= j < |order| ensures order[j] < |rs| && arr[j] == rs[order[j]] {
      if j < |rest| {
        assert arr[..|arr| - 1][j] == Without(rs, i)[rest[j]];
      }
    }
  }

  lemma {:induction false} Arrange(arr: seq<VT.Arrival>, rs: seq<VT.Arrival>) returns (order: seq<nat>)
    requires multiset(arr) == multiset(rs)
    ensures Arranges(order, arr, rs)
    decreases |arr|
  {
    assert |multiset(arr)| == |arr| && |multiset(rs)| == |rs|;
    if arr == [] {
      order := [];
    } else {
      var n := |arr| - 1;
      var i := RemoveMatch(arr, rs);
      var rest := Arrange(arr[..n], Without(rs, i));
      order := Around(rest, i) + [i];
      ArrangeLast(arr, rs, i, rest);
    }
  }

  /** The collector has read the first `k` arrivals of this schedule, and nothing else has happened. */
  ghost predicate HasRead(s: State, s0: State, arr: seq<VT.Arrival>, order: seq<nat>, k: nat)
    requires k <= |arr| == |order|
  {
    && s == s0.(senders := s.senders, received := s.received, collected := VT.Answers(arr[..k]), observed := s.observed)
    && |s.senders| == |s0.senders| && |s.received| == k
    && (forall j :: 0 <= j < k ==> order[j] < |s.senders| && s.senders[order[j]] == Exited(arr[j].res))
    && (forall i: nat :: i < |s.senders| && i !in order[..k] ==> s.senders[i].Fetching?)
  }

  lemma ReadNext(s: State, s0: State, arr: seq<VT.Arrival>, rs: seq<VT.Arrival>, order: seq<nat>, k: nat)
    returns (acts: seq<Action>)
    requires Arranges(order, arr, rs) && 0 < k <= |arr| == |s0.senders|
    requires s0.main.Collecting? && s0.channel == []
    requires HasRead(s, s0, arr, order, k - 1)
    ensures ValidRun(s, acts) && HasRead(Run(s, acts), s0, arr, order, k)
  {
    assert order[k - 1] !in order[..k - 1];
    acts := ResolveOne(s, order[k - 1], arr[k - 1].res);
    HasReadOneMore(s, s0, arr, rs, order, k);
  }

  lemma HasReadOneMore(s: State, s0: State, arr: seq<VT.Arrival>, rs: seq<VT.Arrival>, order: seq<nat>, k: nat)
    requires Arranges(order, arr, rs) && 0 < k <= |arr| == |s0.senders| && HasRead(s, s0, arr, order, k - 1)
    ensures order[k - 1] < |s.senders| && HasRead(Resolved(s, order[k - 1], arr[k - 1].res), s0, arr, order, k)
  {
    assert arr[..k][..k - 1] == arr[..k - 1];
    assert order[..k] == order[..k - 1] + [order[k - 1]];
  }

  lemma {:induction false} ReadPrefix(s0: State, arr: seq<VT.Arrival>, rs: seq<VT.Arrival>, order: seq<nat>, k: nat)
    returns (acts: seq<Action>)
    requires Arranges(order, arr, rs) && k <= |arr| == |s0.senders|
    requires s0.main.Collecting? && s0.channel == [] && s0.received == [] && s0.collected == []
    requires forall i :: 0 <= i < |s0.senders| ==> s0.senders[i].Fetching?
    ensures ValidRun(s0, acts) && HasRead(Run(s0, acts), s0, arr, order, k)
    decreases k
  {
    if k == 0 {
      acts := [];
      assert arr[..0] == [];
    } else {
      var before := ReadPrefix(s0, arr, rs, order, k - 1);
      var last := ReadNext(Run(s0, before), s0, arr, rs, order, k);
      acts := before + last;
      Concat(s0, before, last);
    }
  }

  /** The loop ends: all have resolved, or the deadline fires and its branch is taken. */
  lemma LoopEnds(s: State) returns (acts: seq<Action>)
    requires s.main.Collecting? && !s.deadline && !s.cut && |s.received| <= |s.senders|
    ensures ValidRun(s, acts)
    ensures var s' := Run(s, acts);
            && s'.main == StageADone(s) && s'.collected == s.collected && s'.senders == s.senders
            && (s'.cut <==> |s.received| < |s.senders|)
  {
    if |s.received| == |s.senders| {
      var s1 := Apply(s, LoopDone);
      assert ValidRun(s1, []) && Run(s1, []) == s1;
      Cons(s, LoopDone, []);
      acts := [LoopDone] + [];
    } else {
      var s1 := Apply(s, Deadline);
      var s2 := Apply(s1, TakeDeadline);
      assert ValidRun(s2, []) && Run(s2, []) == s2;
      Cons(s1, TakeDeadline, []);
      Cons(s, Deadline, [TakeDeadline] + []);
      acts := [Deadline] + ([TakeDeadline] + []);
    }
  }

  /** What virtual time says of production Stage A, the step system can do: for every schedule of the vendors
      and every point at which the eager loop may leave it there is a run that ends Stage A with the same
      reports in the same order, by the deadline branch exactly if the loop is cut, every goroutine that has
      exited having the resolution of its vendor. */
  lemma EagerScheduleIsARun(cfg: Config, withObserver: bool, hasDependent: bool,
                            vs: seq<VT.Vendor>, deadline: real, p: seq<VT.Arrival>, k: nat)
    returns (acts: seq<Action>, rs: seq<VT.Arrival>)
    requires VT.ProductionSchedule(p, vs, deadline) && VT.Cut(p, deadline, k)
    ensures VT.Resolutions(vs, deadline, rs)
    ensures ValidRun(Init(cfg, withObserver, hasDependent, |vs|), acts)
    ensures var s := Run(Init(cfg, withObserver, hasDependent, |vs|), acts);
            && s.main == (if hasDependent then CallingDependent else Returned)
            && s.collected == VT.Answers(p[..k]) && (s.cut <==> k < |vs|)
            && forall i :: 0 <= i < |vs| && s.senders[i].Exited? ==> s.senders[i].res == rs[i].res
  {
    var s0 := Init(cfg, withObserver, hasDependent, |vs|);
    rs := VT.ProductionArrivals(p, vs, deadline);
    var order := Arrange(p, rs);
    var reading := ReadPrefix(s0, p, rs, order, k);
    var s := Run(s0, reading);
    var leaving := LoopEnds(s);
    acts := reading + leaving;
    Concat(s0, reading, leaving);
    forall i | 0 <= i < |vs| && s.senders[i].Exited? ensures s.senders[i].res == rs[i].res {
      assert i in order[..k];
      var j :| 0 <= j < k && order[j] == i;
    }
  }
}
