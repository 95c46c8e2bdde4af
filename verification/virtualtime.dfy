/** The scorer in virtual time, with a collector that reads every resolution the moment it is sent: how long
    Stage A takes, what it collects, and how the production fan-in compares with the naive one. */
module VirtualTime {
  import opened Domain
  import opened Sums
  import opened Pipeline
  import opened Simulated

  /** A vendor with a fixed outcome: when it would answer, what (`None`: an error), and whether it gives up
      when its context ends. Times count from the start of Stage A. */
  datatype Vendor = Vendor(latency: real, answer: Option<RiskData>, honours: bool)

  /** A resolution as it reaches the channel. */
  datatype Arrival = Arrival(at: real, res: Option<RiskData>)

  function Min(x: real, y: real): real {
    if x < y then x else y
  }

  /** What a vendor called under `deadline` may do. One that honours its context and finishes exactly at the
      deadline may go either way: its select sees the timer and the context at once. */
  predicate Resolves(v: Vendor, deadline: real, a: Arrival) {
    if !v.honours || v.latency < deadline then a == Arrival(v.latency, v.answer)
    else if v.latency > deadline then a == Arrival(deadline, None)
    else a == Arrival(deadline, v.answer) || a == Arrival(deadline, None)
  }

  /** One way in which all of them resolve. */
  ghost predicate Resolutions(vs: seq<Vendor>, deadline: real, rs: seq<Arrival>) {
    |rs| == |vs| && forall i :: 0 <= i < |vs| ==> Resolves(vs[i], deadline, rs[i])
  }

  /** The naive goroutines send successes only. */
  function Successes(arr: seq<Arrival>): (r: seq<Arrival>)
    ensures |r| <= |arr|
  {
    if arr == [] then []
    else
      var n := |arr| - 1;
      Successes(arr[..n]) + (if arr[n].res.Some? then [arr[n]] else [])
  }

  ghost predicate InTimeOrder(arr: seq<Arrival>) {
    forall i, j :: 0 <= i < j < |arr| ==> arr[i].at <= arr[j].at
  }

  function Answers(arr: seq<Arrival>): seq<RiskData> {
    if arr == [] then []
    else
      var n := |arr| - 1;
      Answers(arr[..n]) + (match arr[n].res case None => [] case Some(d) => [d])
  }

  // ---- The collecting loops ------------------------------------------------------------

  /** The loop read the first `k` arrivals: all that came before the deadline, perhaps some that came with it. */
  ghost predicate Cut(arr: seq<Arrival>, deadline: real, k: nat) {
    && k <= |arr|
    && (forall i :: 0 <= i < k ==> arr[i].at <= deadline)
    && (forall i :: k <= i < |arr| ==> arr[i].at >= deadline)
  }

  function ReturnTime(arr: seq<Arrival>, n: nat, deadline: real, k: nat): real
    requires k <= |arr| && |arr| <= n
  {
    if k < n then deadline else if n == 0 then 0.0 else arr[n - 1].at
  }

  /** The production loop: one resolution per provider, success or not, or the deadline. `tie` decides what
      the select does when a resolution and the deadline are both there. */
  method RunStageA(arr: seq<Arrival>, n: nat, deadline: real, tie: nat -> bool)
    returns (collected: seq<RiskData>, at: real, k: nat)
    requires InTimeOrder(arr) && |arr| <= n
    ensures Cut(arr, deadline, k)
    ensures collected == Answers(arr[..k]) && at == ReturnTime(arr, n, deadline, k)
    ensures at == if k < n then deadline else if n == 0 then 0.0 else arr[n - 1].at
  {
    collected, at, k := [], 0.0, 0;
    while k < n
      invariant 0 <= k <= n && k <= |arr|
      invariant forall i :: 0 <= i < k ==> arr[i].at <= deadline
      invariant collected == Answers(arr[..k])
      invariant at == if k == 0 then 0.0 else arr[k - 1].at
      decreases n - k
    {
      if k == |arr| || arr[k].at > deadline || (arr[k].at == deadline && tie(k)) {
        at := deadline;
        return;
      }
      assert arr[..k + 1][..k] == arr[..k];
      if arr[k].res.Some? {
        collected := collected + [arr[k].res.value];
      }
      at := arr[k].at;
      k := k + 1;
    }
  }

  /** The naive loop: one success per provider, or the deadline. */
  method RunNaiveStageA(arr: seq<Arrival>, n: nat, deadline: real, tie: nat -> bool)
    returns (collected: seq<RiskData>, at: real, k: nat)
    requires InTimeOrder(arr) && |arr| <= n
    requires forall i :: 0 <= i < |arr| ==> arr[i].res.Some?
    ensures Cut(arr, deadline, k)
    ensures collected == Answers(arr[..k]) && at == ReturnTime(arr, n, deadline, k)
    ensures at == if k < n then deadline else if n == 0 then 0.0 else arr[n - 1].at
  {
    collected, at, k := [], 0.0, 0;
    while k < n
      invariant 0 <= k <= n && k <= |arr|
      invariant forall i :: 0 <= i < k ==> arr[i].at <= deadline
      invariant collected == Answers(arr[..k])
      invariant at == if k == 0 then 0.0 else arr[k - 1].at
      decreases n - k
    {
      if k == |arr| || arr[k].at > deadline || (arr[k].at == deadline && tie(k)) {
        at := deadline;
        return;
      }
      assert arr[..k + 1][..k] == arr[..k];
      collected := collected + [arr[k].res.value];
      at := arr[k].at;
      k := k + 1;
    }
  }

  // ---- What is collected ---------------------------------------------------------------

  function Early(a: Arrival, deadline: real): multiset<RiskData> {
    if a.at < deadline then Bag(a.res) else multiset{}
  }

  /** The answers that came before the deadline. */
  function EarlyBag(arr: seq<Arrival>, deadline: real): multiset<RiskData> {
    if arr == [] then multiset{} else EarlyBag(arr[..|arr| - 1], deadline) + Early(arr[|arr| - 1], deadline)
  }

  lemma EarlyAppend(arr: seq<Arrival>, a: Arrival, deadline: real)
    ensures EarlyBag(arr + [a], deadline) == EarlyBag(arr, deadline) + Early(a, deadline)
  {
    assert (arr + [a])[..|arr|] == arr;
  }

  lemma SwapLast(a: multiset<RiskData>, b: multiset<RiskData>, x: multiset<RiskData>, y: multiset<RiskData>)
    requires a == b + x
    ensures a + y == (b + y) + x
  {
  }

  lemma WithoutAppend(arr: seq<Arrival>, i: nat)
    requires i < |arr| - 1
    ensures Without(arr, i) == Without(arr[..|arr| - 1], i) + [arr[|arr| - 1]]
  {
  }

  lemma EarlyUnfold(arr: seq<Arrival>, deadline: real, i: nat)
    requires i < |arr| - 1
    ensures EarlyBag(Without(arr, i), deadline)
            == EarlyBag(Without(arr[..|arr| - 1], i), deadline) + Early(arr[|arr| - 1], deadline)
  {
    WithoutAppend(arr, i);
    EarlyAppend(Without(arr[..|arr| - 1], i), arr[|arr| - 1], deadline);
  }

  lemma {:induction false} EarlyWithout(arr: seq<Arrival>, deadline: real, i: nat)
    requires i < |arr|
    ensures EarlyBag(arr, deadline) == EarlyBag(Without(arr, i), deadline) + Early(arr[i], deadline)
    decreases |arr|
  {
    var n := |arr| - 1;
    if i == n {
      assert Without(arr, i) == arr[..n];
    } else {
      EarlyWithout(arr[..n], deadline, i);
      EarlyUnfold(arr, deadline, i);
      SwapLast(EarlyBag(arr[..n], deadline), EarlyBag(Without(arr[..n], i), deadline),
               Early(arr[i], deadline), Early(arr[n], deadline));
    }
  }

  lemma {:induction false} EarlyPermutation(a: seq<Arrival>, b: seq<Arrival>, deadline: real)
    requires multiset(a) == multiset(b)
    ensures EarlyBag(a, deadline) == EarlyBag(b, deadline)
    decreases |a|
  {
    if a == [] {
      assert |multiset(b)| == 0;
    } else {
      var i := RemoveMatch(a, b);
      EarlyWithout(b, deadline, i);
      EarlyPermutation(a[..|a| - 1], Without(b, i), deadline);
    }
  }

  lemma {:induction false} EarlySuccesses(arr: seq<Arrival>, deadline: real)
    ensures EarlyBag(Successes(arr), deadline) == EarlyBag(arr, deadline)
  {
    if arr == [] {
    } else {
      var n := |arr| - 1;
      EarlySuccesses(arr[..n], deadline);
      if arr[n].res.Some? {
        EarlyAppend(Successes(arr[..n]), arr[n], deadline);
      } else {
        assert Successes(arr) == Successes(arr[..n]) && Early(arr[n], deadline) == multiset{};
      }
    }
  }

  /** No success arrives exactly at the deadline. */
  ghost predicate TieFree(arr: seq<Arrival>, deadline: real) {
    forall i :: 0 <= i < |arr| && arr[i].res.Some? ==> arr[i].at != deadline
  }

  lemma EarlySkip(arr: seq<Arrival>, deadline: real)
    requires arr != [] && arr[|arr| - 1].at >= deadline
    ensures EarlyBag(arr, deadline) == EarlyBag(arr[..|arr| - 1], deadline)
  {
    assert Early(arr[|arr| - 1], deadline) == multiset{};
  }

  lemma {:induction false} NothingEarlyUpTo(arr: seq<Arrival>, deadline: real, k: nat, n: nat)
    requires k <= n <= |arr| && forall i :: k <= i < |arr| ==> arr[i].at >= deadline
    ensures EarlyBag(arr[..n], deadline) == EarlyBag(arr[..k], deadline)
    decreases n
  {
    if n == k {
    } else {
      NothingEarlyUpTo(arr, deadline, k, n - 1);
      assert arr[..n][..n - 1] == arr[..n - 1];
      EarlySkip(arr[..n], deadline);
    }
  }

  lemma NothingEarly(arr: seq<Arrival>, deadline: real, k: nat)
    requires k <= |arr| && forall i :: k <= i < |arr| ==> arr[i].at >= deadline
    ensures EarlyBag(arr, deadline) == EarlyBag(arr[..k], deadline)
  {
    NothingEarlyUpTo(arr, deadline, k, |arr|);
    assert arr[..|arr|] == arr;
  }

  lemma {:induction false} AllEarly(arr: seq<Arrival>, deadline: real)
    requires TieFree(arr, deadline) && forall i :: 0 <= i < |arr| ==> arr[i].at <= deadline
    ensures multiset(Answers(arr)) == EarlyBag(arr, deadline)
  {
    if arr == [] {
    } else {
      var n := |arr| - 1;
      AllEarly(arr[..n], deadline);
      assert multiset(Answers(arr)) == multiset(Answers(arr[..n])) + Bag(arr[n].res);
      assert Early(arr[n], deadline) == Bag(arr[n].res);
    }
  }

  /** Whatever the loop reads, it collects exactly the answers before the deadline. */
  lemma CollectedIsEarly(arr: seq<Arrival>, deadline: real, k: nat)
    requires Cut(arr, deadline, k) && TieFree(arr[..k], deadline)
    ensures multiset(Answers(arr[..k])) == EarlyBag(arr, deadline)
  {
    NothingEarly(arr, deadline, k);
    AllEarly(arr[..k], deadline);
  }

  // ---- The comparison ------------------------------------------------------------------

  /** `arr` is one order in which these vendors can reach the production channel. */
  ghost predicate ProductionSchedule(arr: seq<Arrival>, vs: seq<Vendor>, deadline: real) {
    InTimeOrder(arr) && exists rs :: Resolutions(vs, deadline, rs) && multiset(arr) == multiset(rs)
  }

  ghost predicate NaiveSchedule(arr: seq<Arrival>, vs: seq<Vendor>, deadline: real) {
    InTimeOrder(arr) && exists rs :: Resolutions(vs, deadline, rs) && multiset(arr) == multiset(Successes(rs))
  }

  /** No vendor would answer exactly at the deadline. */
  ghost predicate NoTie(vs: seq<Vendor>, deadline: real) {
    forall i :: 0 <= i < |vs| && vs[i].answer.Some? ==> vs[i].latency != deadline
  }

  lemma OneResolution(vs: seq<Vendor>, deadline: real, rs: seq<Arrival>, ts: seq<Arrival>)
    requires NoTie(vs, deadline) && Resolutions(vs, deadline, rs) && Resolutions(vs, deadline, ts)
    ensures rs == ts && TieFree(rs, deadline)
  {
    forall i | 0 <= i < |vs| ensures rs[i] == ts[i] {
      assert Resolves(vs[i], deadline, rs[i]) && Resolves(vs[i], deadline, ts[i]);
    }
    forall i | 0 <= i < |rs| && rs[i].res.Some? ensures rs[i].at != deadline {
      assert Resolves(vs[i], deadline, rs[i]);
    }
  }

  lemma TieFreeFromMultiset(arr: seq<Arrival>, bs: seq<Arrival>, deadline: real)
    requires TieFree(bs, deadline) && multiset(arr) <= multiset(bs)
    ensures TieFree(arr, deadline)
  {
    forall i | 0 <= i < |arr| && arr[i].res.Some? ensures arr[i].at != deadline {
      assert arr[i] in multiset(bs);
      var j :| 0 <= j < |bs| && bs[j] == arr[i];
    }
  }

  lemma {:induction false} SuccessesWithin(arr: seq<Arrival>)
    ensures multiset(Successes(arr)) <= multiset(arr)
  {
    if arr == [] {
    } else {
      var n := |arr| - 1;
      SuccessesWithin(arr[..n]);
      assert arr == arr[..n] + [arr[n]];
      assert multiset(arr) == multiset(arr[..n]) + multiset{arr[n]};
    }
  }

  lemma {:induction false} SuccessesSucceed(arr: seq<Arrival>)
    ensures |Successes(arr)| == |arr| ==> Successes(arr) == arr
    ensures forall i :: 0 <= i < |Successes(arr)| ==> Successes(arr)[i].res.Some?
  {
    if arr == [] {
    } else {
      SuccessesSucceed(arr[..|arr| - 1]);
    }
  }

  /** What is not read came no earlier than the deadline. */
  lemma Unread(arr: seq<Arrival>, deadline: real, k: nat)
    requires Cut(arr, deadline, k)
    ensures k < |arr| ==> arr[k].at >= deadline
  {
  }

  lemma NaiveArrivals(arr: seq<Arrival>, vs: seq<Vendor>, deadline: real) returns (rs: seq<Arrival>)
    requires NaiveSchedule(arr, vs, deadline)
    ensures Resolutions(vs, deadline, rs) && multiset(arr) == multiset(Successes(rs)) && |arr| == |Successes(rs)|
  {
    rs :| Resolutions(vs, deadline, rs) && multiset(arr) == multiset(Successes(rs));
    assert |multiset(arr)| == |arr| && |multiset(Successes(rs))| == |Successes(rs)|;
  }

  lemma ProductionArrivals(arr: seq<Arrival>, vs: seq<Vendor>, deadline: real) returns (rs: seq<Arrival>)
    requires ProductionSchedule(arr, vs, deadline)
    ensures Resolutions(vs, deadline, rs) && multiset(arr) == multiset(rs) && |arr| == |vs|
  {
    rs :| Resolutions(vs, deadline, rs) && multiset(arr) == multiset(rs);
    assert |multiset(arr)| == |arr| && |multiset(rs)| == |rs|;
  }

  ghost predicate HasVendor(a: Arrival, vs: seq<Vendor>, deadline: real) {
    exists j :: 0 <= j < |vs| && Resolves(vs[j], deadline, a)
  }

  ghost predicate HasArrival(v: Vendor, arr: seq<Arrival>, deadline: real) {
    exists i :: 0 <= i < |arr| && Resolves(v, deadline, arr[i])
  }

  /** Every arrival comes from a vendor. */
  ghost predicate EachFrom(arr: seq<Arrival>, vs: seq<Vendor>, deadline: real) {
    forall i {:trigger HasVendor(arr[i], vs, deadline)} :: 0 <= i < |arr| ==> HasVendor(arr[i], vs, deadline)
  }

  /** Every vendor arrives. */
  ghost predicate EachArrives(arr: seq<Arrival>, vs: seq<Vendor>, deadline: real) {
    forall j {:trigger HasArrival(vs[j], arr, deadline)} :: 0 <= j < |vs| ==> HasArrival(vs[j], arr, deadline)
  }

  lemma FromVendors(arr: seq<Arrival>, rs: seq<Arrival>, vs: seq<Vendor>, deadline: real)
    requires Resolutions(vs, deadline, rs) && multiset(arr) <= multiset(rs)
    ensures EachFrom(arr, vs, deadline)
    ensures multiset(rs) <= multiset(arr) ==> EachArrives(arr, vs, deadline)
  {
    forall i | 0 <= i < |arr| ensures HasVendor(arr[i], vs, deadline) {
      assert arr[i] in multiset(rs);
      var j :| 0 <= j < |rs| && rs[j] == arr[i];
      assert Resolves(vs[j], deadline, arr[i]);
    }
    if multiset(rs) <= multiset(arr) {
      forall j | 0 <= j < |vs| ensures HasArrival(vs[j], arr, deadline) {
        assert rs[j] in multiset(arr);
        var i :| 0 <= i < |arr| && arr[i] == rs[j];
        assert Resolves(vs[j], deadline, arr[i]);
      }
    }
  }

  lemma ProductionShape(arr: seq<Arrival>, vs: seq<Vendor>, deadline: real)
    requires ProductionSchedule(arr, vs, deadline)
    ensures |arr| == |vs| && EachFrom(arr, vs, deadline) && EachArrives(arr, vs, deadline)
  {
    var rs := ProductionArrivals(arr, vs, deadline);
    FromVendors(arr, rs, vs, deadline);
  }

  predicate AllAnswerEarly(vs: seq<Vendor>, deadline: real) {
    forall i :: 0 <= i < |vs| ==> vs[i].answer.Some? && vs[i].latency < deadline
  }

  lemma NaiveShape(arr: seq<Arrival>, vs: seq<Vendor>, deadline: real)
    requires NaiveSchedule(arr, vs, deadline)
    ensures |arr| <= |vs| && EachFrom(arr, vs, deadline) && forall i :: 0 <= i < |arr| ==> arr[i].res.Some?
    ensures |arr| == |vs| ==> EachArrives(arr, vs, deadline)
    ensures AllAnswerEarly(vs, deadline) ==> |arr| == |vs|
  {
    var rs := NaiveArrivals(arr, vs, deadline);
    SuccessesWithin(rs);
    SuccessesSucceed(rs);
    FromVendors(arr, rs, vs, deadline);
    forall i | 0 <= i < |arr| ensures arr[i].res.Some? {
      assert arr[i] in multiset(Successes(rs));
      var j :| 0 <= j < |Successes(rs)| && Successes(rs)[j] == arr[i];
    }
    if AllAnswerEarly(vs, deadline) {
      forall i | 0 <= i < |vs| ensures rs[i].res.Some? {
        assert Resolves(vs[i], deadline, rs[i]);
      }
      AllSuccesses(rs);
    }
  }

  /** Without a tie both fan-ins collect the same reports. */
  lemma SameCollected(vs: seq<Vendor>, deadline: real, p: seq<Arrival>, kp: nat, q: seq<Arrival>, kq: nat)
    requires ProductionSchedule(p, vs, deadline) && NaiveSchedule(q, vs, deadline)
    requires NoTie(vs, deadline)
    requires Cut(p, deadline, kp) && Cut(q, deadline, kq)
    ensures multiset(Answers(p[..kp])) == multiset(Answers(q[..kq]))
  {
    var rs := ProductionArrivals(p, vs, deadline);
    var ts := NaiveArrivals(q, vs, deadline);
    SuccessesWithin(ts);
    OneResolution(vs, deadline, rs, ts);
    TieFreeFromMultiset(p, rs, deadline);
    TieFreeFromMultiset(q, rs, deadline);
    CollectedIsEarly(p, deadline, kp);
    CollectedIsEarly(q, deadline, kq);
    EarlyPermutation(p, rs, deadline);
    EarlyPermutation(q, Successes(rs), deadline);
    EarlySuccesses(rs, deadline);
  }

  /** The production fan-in returns no later, ties or not. */
  lemma ProductionNoLater(vs: seq<Vendor>, deadline: real, p: seq<Arrival>, kp: nat, q: seq<Arrival>, kq: nat)
    requires ProductionSchedule(p, vs, deadline) && NaiveSchedule(q, vs, deadline) && deadline >= 0.0
    requires Cut(p, deadline, kp) && Cut(q, deadline, kq)
    ensures |p| == |vs| && |q| <= |vs|
    ensures ReturnTime(p, |vs|, deadline, kp) <= ReturnTime(q, |vs|, deadline, kq) <= deadline
  {
    ProductionShape(p, vs, deadline);
    NaiveShape(q, vs, deadline);
    ReturnsNoLater(vs, deadline, p, kp, q, kq);
  }

  lemma ReturnsNoLater(vs: seq<Vendor>, deadline: real, p: seq<Arrival>, kp: nat, q: seq<Arrival>, kq: nat)
    requires |p| == |vs| && EachFrom(p, vs, deadline) && Cut(p, deadline, kp)
    requires |q| <= |vs| && (|q| == |vs| ==> EachArrives(q, vs, deadline))
    requires InTimeOrder(q) && Cut(q, deadline, kq) && deadline >= 0.0
    ensures ReturnTime(p, |vs|, deadline, kp) <= ReturnTime(q, |vs|, deadline, kq) <= deadline
  {
    var n := |vs|;
    if kq == n && n > 0 && q[n - 1].at < deadline {
      forall i | 0 <= i < n ensures p[i].at <= q[n - 1].at {
        assert HasVendor(p[i], vs, deadline);
        var j :| 0 <= j < n && Resolves(vs[j], deadline, p[i]);
        assert HasArrival(vs[j], q, deadline);
        var k :| 0 <= k < n && Resolves(vs[j], deadline, q[k]);
        assert q[k].at <= q[n - 1].at;
      }
      Unread(p, deadline, kp);
    }
  }

  /** Where the designs differ: the naive loop is pinned to the deadline by a single vendor that does not
      succeed before it; the production loop only by one that does not resolve before it. */
  lemma PinnedToDeadline(vs: seq<Vendor>, deadline: real, p: seq<Arrival>, kp: nat, q: seq<Arrival>, kq: nat)
    requires ProductionSchedule(p, vs, deadline) && NaiveSchedule(q, vs, deadline) && deadline > 0.0
    requires Cut(p, deadline, kp) && Cut(q, deadline, kq)
    ensures |p| == |vs| && |q| <= |vs|
    ensures ReturnTime(q, |vs|, deadline, kq) == deadline <==> !AllAnswerEarly(vs, deadline)
    ensures ReturnTime(p, |vs|, deadline, kp) == deadline <==> exists i :: 0 <= i < |vs| && vs[i].latency >= deadline
  {
    ProductionShape(p, vs, deadline);
    NaiveShape(q, vs, deadline);
    ProductionPinned(vs, deadline, p, kp);
    NaivePinned(vs, deadline, q, kq);
  }

  lemma ProductionPinned(vs: seq<Vendor>, deadline: real, p: seq<Arrival>, kp: nat)
    requires |p| == |vs| && EachFrom(p, vs, deadline) && EachArrives(p, vs, deadline)
    requires InTimeOrder(p) && Cut(p, deadline, kp) && deadline > 0.0
    ensures ReturnTime(p, |vs|, deadline, kp) == deadline <==> exists i :: 0 <= i < |vs| && vs[i].latency >= deadline
  {
    var n := |vs|;
    if i :| 0 <= i < n && vs[i].latency >= deadline {
      assert HasArrival(vs[i], p, deadline);
      var j :| 0 <= j < n && Resolves(vs[i], deadline, p[j]);
      assert p[j].at >= deadline && p[n - 1].at >= p[j].at;
    } else {
      forall i | 0 <= i < n ensures p[i].at < deadline {
        assert HasVendor(p[i], vs, deadline);
        var j :| 0 <= j < n && Resolves(vs[j], deadline, p[i]);
        assert vs[j].latency < deadline;
      }
      Unread(p, deadline, kp);
    }
  }

  lemma NaivePinned(vs: seq<Vendor>, deadline: real, q: seq<Arrival>, kq: nat)
    requires |q| <= |vs| && EachFrom(q, vs, deadline) && (|q| == |vs| ==> EachArrives(q, vs, deadline))
    requires forall i :: 0 <= i < |q| ==> q[i].res.Some?
    requires AllAnswerEarly(vs, deadline) ==> |q| == |vs|
    requires InTimeOrder(q) && Cut(q, deadline, kq) && deadline > 0.0
    ensures ReturnTime(q, |vs|, deadline, kq) == deadline <==> !AllAnswerEarly(vs, deadline)
  {
    var n := |vs|;
    if i :| 0 <= i < n && !(vs[i].answer.Some? && vs[i].latency < deadline) {
      if kq == n {
        assert HasArrival(vs[i], q, deadline);
        var j :| 0 <= j < n && Resolves(vs[i], deadline, q[j]);
        assert q[j].at == deadline && q[n - 1].at >= q[j].at;
      }
    } else {
      forall i | 0 <= i < |q| ensures q[i].at < deadline {
        assert HasVendor(q[i], vs, deadline);
        var j :| 0 <= j < n && Resolves(vs[j], deadline, q[i]);
        assert vs[j].answer.Some? && vs[j].latency < deadline;
      }
      Unread(q, deadline, kq);
    }
  }

  lemma {:induction false} AllSuccesses(arr: seq<Arrival>)
    requires forall i :: 0 <= i < |arr| ==> arr[i].res.Some?
    ensures Successes(arr) == arr
  {
    if arr == [] {
    } else {
      AllSuccesses(arr[..|arr| - 1]);
    }
  }

  // ---- Ties ----------------------------------------------------------------------------

  /** Whatever the schedules, both fan-ins collect the same. */
  ghost predicate AlwaysTheSame(vs: seq<Vendor>, deadline: real) {
    forall p, kp: nat, q, kq: nat ::
      ProductionSchedule(p, vs, deadline) && NaiveSchedule(q, vs, deadline) && Cut(p, deadline, kp) && Cut(q, deadline, kq)
      ==> multiset(Answers(p[..kp])) == multiset(Answers(q[..kq]))
  }

  function InsertByTime(a: Arrival, arr: seq<Arrival>): seq<Arrival> {
    if arr == [] || arr[|arr| - 1].at <= a.at then arr + [a]
    else InsertByTime(a, arr[..|arr| - 1]) + [arr[|arr| - 1]]
  }

  lemma {:induction false} InsertBag(a: Arrival, arr: seq<Arrival>)
    ensures multiset(InsertByTime(a, arr)) == multiset(arr) + multiset{a}
  {
    if arr == [] || arr[|arr| - 1].at <= a.at {
    } else {
      var n := |arr| - 1;
      assert arr == arr[..n] + [arr[n]];
      InsertBag(a, arr[..n]);
    }
  }

  lemma {:induction false} InsertOrder(a: Arrival, arr: seq<Arrival>, latest: real)
    requires InTimeOrder(arr) && a.at <= latest && forall i :: 0 <= i < |arr| ==> arr[i].at <= latest
    ensures var r := InsertByTime(a, arr); InTimeOrder(r) && forall i :: 0 <= i < |r| ==> r[i].at <= latest
  {
    if arr == [] || arr[|arr| - 1].at <= a.at {
    } else {
      var n := |arr| - 1;
      InsertOrder(a, arr[..n], arr[n].at);
    }
  }

  function SortByTime(arr: seq<Arrival>): (r: seq<Arrival>)
    ensures InTimeOrder(r) && multiset(r) == multiset(arr)
  {
    if arr == [] then []
    else
      var n := |arr| - 1;
      var rest := SortByTime(arr[..n]);
      var last := if rest == [] then arr[n].at else rest[|rest| - 1].at;
      assert arr == arr[..n] + [arr[n]];
      InsertBag(arr[n], rest);
      InsertOrder(arr[n], rest, if arr[n].at < last then last else arr[n].at);
      InsertByTime(arr[n], rest)
  }

  /** Reads everything up to the deadline, with or without what comes exactly then. */
  predicate Reads(a: Arrival, deadline: real, ties: bool) {
    a.at < deadline || (ties && a.at == deadline)
  }

  lemma {:induction false} CutAt(arr: seq<Arrival>, deadline: real, ties: bool) returns (k: nat)
    requires InTimeOrder(arr)
    ensures Cut(arr, deadline, k)
    ensures forall i :: 0 <= i < |arr| ==> (i < k <==> Reads(arr[i], deadline, ties))
    decreases |arr|
  {
    if arr == [] || Reads(arr[|arr| - 1], deadline, ties) {
      k := |arr|;
    } else {
      var n := |arr| - 1;
      k := CutAt(arr[..n], deadline, ties);
      assert forall i :: 0 <= i < n ==> arr[..n][i] == arr[i];
    }
  }

  lemma {:induction false} AnswersGrow(arr: seq<Arrival>, a: nat, b: nat, j: nat)
    requires a <= j < b <= |arr| && arr[j].res.Some?
    ensures |Answers(arr[..a])| < |Answers(arr[..b])|
    decreases b
  {
    assert arr[..b][..b - 1] == arr[..b - 1];
    if j < b - 1 {
      AnswersGrow(arr, a, b - 1, j);
    } else {
      AnswersMonotone(arr, a, b - 1);
    }
  }

  lemma {:induction false} AnswersMonotone(arr: seq<Arrival>, a: nat, b: nat)
    requires a <= b <= |arr|
    ensures |Answers(arr[..a])| <= |Answers(arr[..b])|
    decreases b
  {
    if a == b {
    } else {
      assert arr[..b][..b - 1] == arr[..b - 1];
      AnswersMonotone(arr, a, b - 1);
    }
  }

  function Answering(v: Vendor, deadline: real): Arrival {
    if v.honours && v.latency > deadline then Arrival(deadline, None) else Arrival(v.latency, v.answer)
  }

  /** Read without the ties, any order collects the early answers. */
  lemma CollectsEarly(p: seq<Arrival>, rs: seq<Arrival>, deadline: real) returns (k: nat)
    requires InTimeOrder(p) && multiset(p) == multiset(rs)
    ensures Cut(p, deadline, k) && multiset(Answers(p[..k])) == EarlyBag(rs, deadline)
    ensures forall i :: 0 <= i < |p| ==> (i < k <==> p[i].at < deadline)
  {
    k := CutAt(p, deadline, false);
    CollectedIsEarly(p, deadline, k);
    EarlyPermutation(p, rs, deadline);
  }

  /** Read with the ties, an order with a tied success collects something else. */
  lemma CollectsMore(p: seq<Arrival>, rs: seq<Arrival>, deadline: real, i: nat) returns (k: nat)
    requires InTimeOrder(p) && multiset(p) == multiset(rs)
    requires i < |rs| && rs[i].res.Some? && rs[i].at == deadline
    ensures Cut(p, deadline, k) && multiset(Answers(p[..k])) != EarlyBag(rs, deadline)
  {
    k := CutAt(p, deadline, true);
    var k0 := CollectsEarly(p, rs, deadline);
    assert rs[i] in multiset(p);
    var j :| 0 <= j < |p| && p[j] == rs[i];
    AnswersGrow(p, k0, k, j);
    assert |multiset(Answers(p[..k]))| == |Answers(p[..k])| && |multiset(Answers(p[..k0]))| == |Answers(p[..k0])|;
  }

  lemma Differs(vs: seq<Vendor>, deadline: real, p: seq<Arrival>, kp: nat, q: seq<Arrival>, kq: nat)
    requires ProductionSchedule(p, vs, deadline) && NaiveSchedule(q, vs, deadline) && Cut(p, deadline, kp) && Cut(q, deadline, kq)
    requires multiset(Answers(p[..kp])) != multiset(Answers(q[..kq]))
    ensures !AlwaysTheSame(vs, deadline)
  {
  }

  lemma SortedSchedules(vs: seq<Vendor>, deadline: real, rs: seq<Arrival>)
    requires Resolutions(vs, deadline, rs)
    ensures ProductionSchedule(SortByTime(rs), vs, deadline) && NaiveSchedule(SortByTime(Successes(rs)), vs, deadline)
  {
  }

  /** A tie: the vendor may be read by one fan-in and missed by the other. */
  lemma TieShows(vs: seq<Vendor>, deadline: real, i: nat)
    requires i < |vs| && vs[i].answer.Some? && vs[i].latency == deadline
    ensures !AlwaysTheSame(vs, deadline)
  {
    var rs := seq(|vs|, j requires 0 <= j < |vs| => Answering(vs[j], deadline));
    SortedSchedules(vs, deadline, rs);
    var p, q := SortByTime(rs), SortByTime(Successes(rs));
    var kp := CollectsMore(p, rs, deadline, i);
    var kq := CollectsEarly(q, Successes(rs), deadline);
    EarlySuccesses(rs, deadline);
    Differs(vs, deadline, p, kp, q, kq);
  }

  /** The exact condition: the two fan-ins collect the same whatever the schedules if and only if no vendor
      would answer exactly at the deadline. */
  lemma SameCollectedExactlyWithoutTies(vs: seq<Vendor>, deadline: real)
    ensures AlwaysTheSame(vs, deadline) <==> NoTie(vs, deadline)
  {
    if NoTie(vs, deadline) {
      forall p, kp: nat, q, kq: nat | ProductionSchedule(p, vs, deadline) && NaiveSchedule(q, vs, deadline)
                                      && Cut(p, deadline, kp) && Cut(q, deadline, kq)
        ensures multiset(Answers(p[..kp])) == multiset(Answers(q[..kq]))
      {
        SameCollected(vs, deadline, p, kp, q, kq);
      }
    } else {
      var i :| 0 <= i < |vs| && vs[i].answer.Some? && vs[i].latency == deadline;
      TieShows(vs, deadline, i);
    }
  }

  // ---- Stage B -------------------------------------------------------------------------

  /** The dependent vendor as it is called at `start` with the collected reports; it honours its context. */
  function Bureau(cfg: SimConfig, hash: nat, start: real, prior: seq<RiskData>): Vendor {
    Vendor(start + cfg.latency, if cfg.fails then None else Some(Answer(cfg, hash, prior)), true)
  }

  /** The call written out: what the bureau answers to which reports, and when. */
  lemma BureauCall(cfg: SimConfig, hash: nat, start: real, prior: seq<RiskData>, deadline: real, a: Arrival)
    requires Resolves(Bureau(cfg, hash, start, prior), deadline, a)
    ensures a.res.Some? ==> a == Arrival(start + cfg.latency, Some(Answer(cfg, hash, prior))) && a.at <= deadline && !cfg.fails
    ensures !cfg.fails && start + cfg.latency < deadline ==> a.res.Some?
    ensures a.at <= deadline
  {
  }

  /** Everything that is aggregated: Stage A, and the dependent's answer if there is one. */
  function Collected(stageA: seq<RiskData>, dependent: Arrival): seq<RiskData> {
    stageA + (match dependent.res case None => [] case Some(d) => [d])
  }

  /** Naive and production on the same vendors: production ends no later, ties or not; its dependent answers
      whenever the naive one does, unless it would end exactly at the budget; and without a tie in Stage A it
      then uses at least the naive signals, and decides the same if the dependent answered in both or in
      neither. */
  lemma {:induction false} ProductionDominatesNaive(cfg: Config, vs: seq<Vendor>, bureau: SimConfig, hash: nat,
                                                    p: seq<Arrival>, kp: nat, q: seq<Arrival>, kq: nat, dp: Arrival, dq: Arrival)
    requires cfg.stageABudget >= 0.0 && cfg.budget >= 0.0
    requires var deadline := Min(cfg.budget, cfg.stageABudget);
             && ProductionSchedule(p, vs, deadline) && Cut(p, deadline, kp) && |p| <= |vs|
             && NaiveSchedule(q, vs, deadline) && Cut(q, deadline, kq) && |q| <= |vs|
             && Resolves(Bureau(bureau, hash, ReturnTime(p, |vs|, deadline, kp), Answers(p[..kp])), cfg.budget, dp)
             && Resolves(Bureau(bureau, hash, ReturnTime(q, |vs|, deadline, kq), Answers(q[..kq])), cfg.budget, dq)
    ensures var deadline := Min(cfg.budget, cfg.stageABudget);
            var x, y := Collected(Answers(p[..kp]), dp), Collected(Answers(q[..kq]), dq);
            && dp.at <= dq.at
            && (ReturnTime(p, |vs|, deadline, kp) + bureau.latency != cfg.budget && dq.res.Some? ==> dp.res.Some?)
            && (NoTie(vs, deadline) && (dq.res.Some? ==> dp.res.Some?) ==> multiset(y) <= multiset(x))
            && (NoTie(vs, deadline) && (dq.res.Some? <==> dp.res.Some?) ==> Verdict(cfg, x) == Verdict(cfg, y))
  {
    var deadline := Min(cfg.budget, cfg.stageABudget);
    ProductionNoLater(vs, deadline, p, kp, q, kq);
    if NoTie(vs, deadline) {
      SameCollected(vs, deadline, p, kp, q, kq);
      SameStageA(cfg, bureau, hash, Answers(p[..kp]), Answers(q[..kq]), dp, dq);
    }
  }

  /** The same Stage A reports in another order, with or without the dependent's answer to them. */
  lemma SameStageA(cfg: Config, bureau: SimConfig, hash: nat, a: seq<RiskData>, b: seq<RiskData>, dp: Arrival, dq: Arrival)
    requires multiset(a) == multiset(b)
    requires dp.res.Some? ==> dp.res == Some(Answer(bureau, hash, a))
    requires dq.res.Some? ==> dq.res == Some(Answer(bureau, hash, b))
    ensures var x, y := Collected(a, dp), Collected(b, dq);
            && ((dq.res.Some? ==> dp.res.Some?) ==> multiset(y) <= multiset(x))
            && ((dq.res.Some? <==> dp.res.Some?) ==> Verdict(cfg, x) == Verdict(cfg, y))
  {
    AnswerIndependentOfOrder(bureau, hash, a, b);
    if dq.res.Some? <==> dp.res.Some? {
      VerdictIndependentOfOrder(cfg, Collected(a, dp), Collected(b, dq));
    }
  }

  // ---- Nested budgets ------------------------------------------------------------------

  /** A context deadline; `Never` for the root. */
  datatype Deadline = Never | At(t: real)

  function WithTimeout(parent: Deadline, now: real, budget: real): Deadline {
    match parent
    case Never => At(now + budget)
    case At(t) => At(Min(t, now + budget))
  }

  /** A chain of WithTimeout calls, outermost first: (time of the call, budget). */
  function Nest(root: Deadline, chain: seq<(real, real)>): Deadline {
    if chain == [] then root
    else WithTimeout(Nest(root, chain[..|chain| - 1]), chain[|chain| - 1].0, chain[|chain| - 1].1)
  }

  /** The effective deadline is the least of all the deadlines above it. */
  lemma {:induction false} EffectiveDeadlineIsLeast(root: Deadline, chain: seq<(real, real)>)
    requires chain != []
    ensures Nest(root, chain).At?
    ensures root.At? ==> Nest(root, chain).t <= root.t
    ensures forall i :: 0 <= i < |chain| ==> Nest(root, chain).t <= chain[i].0 + chain[i].1
    ensures Nest(root, chain) == root || exists i :: 0 <= i < |chain| && Nest(root, chain).t == chain[i].0 + chain[i].1
  {
    var n := |chain| - 1;
    if n > 0 {
      EffectiveDeadlineIsLeast(root, chain[..n]);
      if i :| 0 <= i < n && Nest(root, chain[..n]).t == chain[..n][i].0 + chain[..n][i].1 {
        assert chain[i] == chain[..n][i];
      }
    } else {
      assert chain[..0] == [];
    }
    assert chain[n].0 + chain[n].1 == chain[n].0 + chain[n].1;
  }

  /** The dependent vendor: how long it takes from its call, what it answers to the reports it is given, and
      whether it gives up when its context ends. */
  datatype Dependent = Dependent(latency: real, respond: seq<RiskData> -> Option<RiskData>, honours: bool)

  function CalledAt(dep: Dependent, start: real, prior: seq<RiskData>): Vendor {
    Vendor(start + dep.latency, dep.respond(prior), dep.honours)
  }

  /** A call that starts before its deadline ends by it exactly if the vendor honours the context or is fast. */
  lemma EndsByDeadlineExactly(v: Vendor, deadline: real, a: Arrival)
    requires Resolves(v, deadline, a)
    ensures a.at <= deadline <==> v.honours || v.latency <= deadline
  {
  }

  function OuterDeadline(cfg: Config, caller: Deadline): real {
    WithTimeout(caller, 0.0, cfg.budget).t
  }

  function StageADeadline(cfg: Config, caller: Deadline): real {
    WithTimeout(At(OuterDeadline(cfg, caller)), 0.0, cfg.stageABudget).t
  }

  /** The deadlines of the two stages are those of the chain of contexts. */
  lemma StageDeadlines(cfg: Config, caller: Deadline)
    ensures Nest(caller, [(0.0, cfg.budget)]) == At(OuterDeadline(cfg, caller))
    ensures Nest(caller, [(0.0, cfg.budget), (0.0, cfg.stageABudget)]) == At(StageADeadline(cfg, caller))
  {
    var outer, both := [(0.0, cfg.budget)], [(0.0, cfg.budget), (0.0, cfg.stageABudget)];
    assert outer[..0] == [] && both[..1] == outer;
  }

  /** The whole pipeline in virtual time. Stage A ends by its own deadline even if no provider honours its
      context, so Stage B starts with at least what the outer deadline reserves for it; and the pipeline ends
      by the outer deadline exactly if the dependent, where there is one, honours its context or is fast. */
  method RunPipeline(cfg: Config, caller: Deadline, arr: seq<Arrival>, n: nat, tie: nat -> bool,
                     dep: Option<Dependent>, expires: bool)
    returns (res: ScoreResult, start: real, end: real, k: nat, last: Arrival)
    requires InTimeOrder(arr) && |arr| <= n && cfg.budget >= 0.0 && cfg.stageABudget >= 0.0
    requires caller.At? ==> caller.t >= 0.0
    ensures Nest(caller, [(0.0, cfg.budget), (0.0, cfg.stageABudget)]) == At(StageADeadline(cfg, caller))
    ensures Cut(arr, StageADeadline(cfg, caller), k) && start == ReturnTime(arr, n, StageADeadline(cfg, caller), k)
    ensures dep.None? ==> end == start && res == Verdict(cfg, Answers(arr[..k]))
    ensures dep.Some? ==>
              && Resolves(CalledAt(dep.value, start, Answers(arr[..k])), OuterDeadline(cfg, caller), last)
              && end == last.at && res == Verdict(cfg, Collected(Answers(arr[..k]), last))
    ensures var reports := Answers(arr[..k]);
            dep.Some? ==>
              && res == Verdict(cfg, if last.res.Some? then reports + [last.res.value] else reports)
              && (last.res.Some? ==> last.res == dep.value.respond(reports))
              && (start + dep.value.latency < OuterDeadline(cfg, caller) || !dep.value.honours ==>
                    last == Arrival(start + dep.value.latency, dep.value.respond(reports)))
              && (start + dep.value.latency > OuterDeadline(cfg, caller) && dep.value.honours ==>
                    last == Arrival(OuterDeadline(cfg, caller), None))
    ensures start <= cfg.stageABudget && start <= OuterDeadline(cfg, caller)
    ensures OuterDeadline(cfg, caller) - start
            >= (if caller.At? then Min(caller.t, cfg.budget) else cfg.budget) - cfg.stageABudget
    ensures end <= OuterDeadline(cfg, caller) <==>
              dep.None? || dep.value.honours || start + dep.value.latency <= OuterDeadline(cfg, caller)
  {
    StageDeadlines(cfg, caller);
    var outer := WithTimeout(caller, 0.0, cfg.budget);
    var inner := WithTimeout(outer, 0.0, cfg.stageABudget);
    var collected;
    collected, start, k := RunStageA(arr, n, inner.t, tie);
    end, last := start, Arrival(start, None);
    if dep.Some? {
      var v := CalledAt(dep.value, start, collected);
      last := if v.honours && (v.latency > outer.t || (v.latency == outer.t && expires))
              then Arrival(outer.t, None) else Arrival(v.latency, v.answer);
      EndsByDeadlineExactly(v, outer.t, last);
      end := last.at;
      if last.res.Some? {
        collected := collected + [last.res.value];
      }
    }
    assert collected == if dep.Some? then Collected(Answers(arr[..k]), last) else Answers(arr[..k]);
    res := Decide(cfg, collected);
  }

  /** Stage A ends by the time its slowest vendor would take anyway. */
  lemma EndsByLatencies(vs: seq<Vendor>, deadline: real, p: seq<Arrival>, kp: nat, bound: real)
    requires ProductionSchedule(p, vs, deadline) && Cut(p, deadline, kp) && bound >= 0.0
    requires forall i :: 0 <= i < |vs| ==> vs[i].latency <= bound
    ensures |p| == |vs| && ReturnTime(p, |vs|, deadline, kp) <= bound
  {
    ProductionShape(p, vs, deadline);
    forall i | 0 <= i < |p| ensures p[i].at <= bound {
      assert HasVendor(p[i], vs, deadline);
      var j :| 0 <= j < |vs| && Resolves(vs[j], deadline, p[i]);
      assert vs[j].latency <= bound;
    }
    if kp < |vs| {
      assert p[kp].at >= deadline;
    }
  }

  /** Per-source budgets: with every vendor guarded and honouring its context, all resolve by the guard's
      budget, and so Stage A of the production scorer ends by then. */
  lemma GuardedStageAEndsByGuardBudget(vs: seq<Vendor>, guard: real, deadline: real, p: seq<Arrival>, kp: nat)
    requires 0.0 <= guard < deadline
    requires forall i :: 0 <= i < |vs| ==> vs[i].honours
    requires ProductionSchedule(p, vs, Min(deadline, guard)) && Cut(p, deadline, kp)
    ensures |p| == |vs| == kp && ReturnTime(p, |vs|, deadline, kp) <= guard
  {
    ProductionShape(p, vs, guard);
    forall i | 0 <= i < |p| ensures p[i].at <= guard {
      assert HasVendor(p[i], vs, guard);
      var j :| 0 <= j < |vs| && Resolves(vs[j], guard, p[i]);
      assert vs[j].honours;
    }
    Unread(p, deadline, kp);
  }
}
