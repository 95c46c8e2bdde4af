/** The two-phase scorer as a step system: one goroutine per independent provider, a channel with one slot
    per provider, the collecting loop with its deadline branch, and the dependent call. Any interleaving is
    a run; providers answer with any data, or fail, at any time. */
module FanIn {
  import opened Domain
  import opened Sums
  import opened Pipeline
  import opened Simulated

  /** A goroutine of the fan-out. `None` is the failed resolution, `Some` the successful one. */
  datatype Sender =
    | Fetching
    | Observing(data: RiskData)
    | Ready(res: Option<RiskData>)
    | Exited(res: Option<RiskData>)

  /** The goroutine of the caller. */
  datatype Main =
    | Collecting
    | CallingDependent
    | ObservingDependent(data: RiskData)
    | Returned

  /** `received` is what the loop has read from the channel so far, `cut` whether it left by the deadline
      branch, `observed` the completed observer calls, `dependentData` the dependent's answer. */
  datatype State = State(
    cfg: Config, withObserver: bool, hasDependent: bool,
    senders: seq<Sender>, channel: seq<Option<RiskData>>, deadline: bool,
    main: Main, received: seq<Option<RiskData>>, cut: bool,
    collected: seq<RiskData>, observed: seq<RiskData>, dependentData: Option<RiskData>)

  datatype Action =
    | FetchFails(i: nat)
    | FetchSucceeds(i: nat, data: RiskData)
    | Observe(i: nat)
    | Send(i: nat)
    | Deadline
    | Receive
    | TakeDeadline
    | LoopDone
    | DependentFails
    | DependentSucceeds(data: RiskData)
    | ObserveDependent

  function Init(cfg: Config, withObserver: bool, hasDependent: bool, n: nat): State {
    State(cfg, withObserver, hasDependent, seq(n, _ => Fetching), [], false, Collecting, [], false, [], [], None)
  }

  predicate Enabled(s: State, a: Action) {
    match a
    case FetchFails(i) => i < |s.senders| && s.senders[i].Fetching?
    case FetchSucceeds(i, _) => i < |s.senders| && s.senders[i].Fetching?
    case Observe(i) => i < |s.senders| && s.senders[i].Observing?
    case Send(i) => i < |s.senders| && s.senders[i].Ready? && |s.channel| < |s.senders|
    case Deadline => !s.deadline
    case Receive => s.main.Collecting? && |s.received| < |s.senders| && s.channel != []
    case TakeDeadline => s.main.Collecting? && |s.received| < |s.senders| && s.deadline
    case LoopDone => s.main.Collecting? && |s.received| == |s.senders|
    case DependentFails => s.main.CallingDependent?
    case DependentSucceeds(_) => s.main.CallingDependent?
    case ObserveDependent => s.main.ObservingDependent?
  }

  /** After Stage A: the dependent call, or the decision. */
  function StageADone(s: State): Main {
    if s.hasDependent then CallingDependent else Returned
  }

  /** What the scorer returns: the verdict on what it had collected. */
  function Result(s: State): ScoreResult {
    Verdict(s.cfg, s.collected)
  }

  function Apply(s: State, a: Action): (s': State)
    requires Enabled(s, a)
    ensures |s'.senders| == |s.senders|
    ensures s'.cfg == s.cfg && s'.withObserver == s.withObserver && s'.hasDependent == s.hasDependent
  {
    match a
    case FetchFails(i) => s.(senders := s.senders[i := Ready(None)])
    case FetchSucceeds(i, data) => s.(senders := s.senders[i := if s.withObserver then Observing(data) else Ready(Some(data))])
    case Observe(i) => s.(observed := s.observed + [s.senders[i].data], senders := s.senders[i := Ready(Some(s.senders[i].data))])
    case Send(i) => s.(channel := s.channel + [s.senders[i].res], senders := s.senders[i := Exited(s.senders[i].res)])
    case Deadline => s.(deadline := true)
    case Receive =>
      var r := s.channel[0];
      s.(channel := s.channel[1..], received := s.received + [r],
         collected := if r.Some? then s.collected + [r.value] else s.collected)
    case TakeDeadline => s.(cut := true, main := StageADone(s))
    case LoopDone => s.(main := StageADone(s))
    case DependentFails => s.(main := Returned)
    case DependentSucceeds(data) =>
      if s.withObserver then s.(dependentData := Some(data), main := ObservingDependent(data))
      else s.(dependentData := Some(data), collected := s.collected + [data], main := Returned)
    case ObserveDependent =>
      var data := s.main.data;
      s.(observed := s.observed + [data], collected := s.collected + [data],
         main := Returned)
  }

  predicate ValidRun(s: State, acts: seq<Action>)
    decreases |acts|
  {
    acts == [] || (Enabled(s, acts[0]) && ValidRun(Apply(s, acts[0]), acts[1..]))
  }

  function Run(s: State, acts: seq<Action>): (s': State)
    requires ValidRun(s, acts)
    ensures |s'.senders| == |s.senders|
    ensures s'.cfg == s.cfg && s'.withObserver == s.withObserver && s'.hasDependent == s.hasDependent
    decreases |acts|
  {
    if acts == [] then s else Run(Apply(s, acts[0]), acts[1..])
  }

  // ---- What the goroutines have produced -----------------------------------------------

  function Datas(rs: seq<Option<RiskData>>): multiset<RiskData> {
    if rs == [] then multiset{} else Datas(rs[..|rs| - 1]) + Bag(rs[|rs| - 1])
  }

  lemma Regroup(a: multiset<RiskData>, b: multiset<RiskData>, c: multiset<RiskData>)
    ensures (a + b) + c == a + (b + c)
  {
  }

  lemma DatasAppend(rs: seq<Option<RiskData>>, r: Option<RiskData>)
    ensures Datas(rs + [r]) == Datas(rs) + Bag(r)
  {
    assert (rs + [r])[..|rs|] == rs;
  }

  lemma {:induction false} DatasCons(r: Option<RiskData>, rest: seq<Option<RiskData>>)
    ensures Datas([r] + rest) == Bag(r) + Datas(rest)
  {
    if rest == [] {
      assert [r] + rest == [] + [r];
      DatasAppend([], r);
    } else {
      var n := |rest| - 1;
      var before, last := rest[..n], rest[n];
      assert before + [last] == rest && ([r] + before) + [last] == [r] + rest;
      DatasCons(r, before);
      DatasAppend([r] + before, last);
      DatasAppend(before, last);
      Regroup(Bag(r), Datas(before), Bag(last));
    }
  }

  lemma DatasTail(rs: seq<Option<RiskData>>)
    requires rs != []
    ensures Datas(rs) == Bag(rs[0]) + Datas(rs[1..])
  {
    assert rs == [rs[0]] + rs[1..];
    DatasCons(rs[0], rs[1..]);
  }

  /** One goroutine's answer, by how far it has got. */
  function Fetched(x: Sender): multiset<RiskData> {
    match x
    case Fetching => multiset{}
    case Observing(d) => multiset{d}
    case Ready(r) => Bag(r)
    case Exited(r) => Bag(r)
  }

  function Past(x: Sender): multiset<RiskData> {
    if x.Observing? then multiset{} else Fetched(x)
  }

  function Sent(x: Sender): multiset<RiskData> {
    if x.Exited? then Fetched(x) else multiset{}
  }

  function Total(f: Sender -> multiset<RiskData>, xs: seq<Sender>): multiset<RiskData> {
    if xs == [] then multiset{} else Total(f, xs[..|xs| - 1]) + f(xs[|xs| - 1])
  }

  function ExitedCount(xs: seq<Sender>): nat {
    if xs == [] then 0 else ExitedCount(xs[..|xs| - 1]) + if xs[|xs| - 1].Exited? then 1 else 0
  }

  lemma AddBoth(a: multiset<RiskData>, b: multiset<RiskData>, c: multiset<RiskData>, d: multiset<RiskData>, e: multiset<RiskData>)
    requires a + b == c + d
    ensures (a + e) + b == (c + e) + d
  {
    assert (a + e) + b == (a + b) + e;
    assert (c + e) + d == (c + d) + e;
  }

  lemma {:induction false} TotalUpdate(f: Sender -> multiset<RiskData>, xs: seq<Sender>, i: nat, x: Sender)
    requires i < |xs|
    ensures Total(f, xs[i := x]) + f(xs[i]) == Total(f, xs) + f(x)
  {
    var n, ys := |xs| - 1, xs[i := x];
    if i < n {
      assert ys[..n] == xs[..n][i := x];
      TotalUpdate(f, xs[..n], i, x);
      AddBoth(Total(f, ys[..n]), f(xs[i]), Total(f, xs[..n]), f(x), f(xs[n]));
    } else {
      assert ys[..n] == xs[..n];
      AddBoth(Total(f, xs[..n]), f(x), Total(f, xs[..n]), f(x), f(xs[n]));
    }
  }

  lemma {:induction false} TotalSub(f: Sender -> multiset<RiskData>, g: Sender -> multiset<RiskData>, xs: seq<Sender>)
    requires forall x :: f(x) <= g(x)
    ensures Total(f, xs) <= Total(g, xs)
  {
    if xs == [] {
    } else {
      TotalSub(f, g, xs[..|xs| - 1]);
    }
  }

  lemma {:induction false} TotalEmpty(f: Sender -> multiset<RiskData>, n: nat)
    requires f(Fetching) == multiset{}
    ensures Total(f, seq(n, _ => Fetching)) == multiset{}
  {
    if n == 0 {
    } else {
      assert seq(n, _ => Fetching)[..n - 1] == seq(n - 1, _ => Fetching);
      TotalEmpty(f, n - 1);
    }
  }

  lemma {:induction false} TotalSize(xs: seq<Sender>)
    ensures |Total(Fetched, xs)| <= |xs|
  {
    if xs == [] {
    } else {
      TotalSize(xs[..|xs| - 1]);
    }
  }

  lemma {:induction false} ExitedUpdate(xs: seq<Sender>, i: nat, x: Sender)
    requires i < |xs|
    ensures ExitedCount(xs[i := x]) == ExitedCount(xs) - (if xs[i].Exited? then 1 else 0) + (if x.Exited? then 1 else 0)
  {
    var n := |xs| - 1;
    if i < n {
      assert xs[i := x][..n] == xs[..n][i := x];
      ExitedUpdate(xs[..n], i, x);
    } else {
      assert xs[i := x][..n] == xs[..n];
    }
  }

  lemma {:induction false} ExitedBound(xs: seq<Sender>, i: nat)
    requires i < |xs|
    ensures ExitedCount(xs) <= |xs|
    ensures !xs[i].Exited? ==> ExitedCount(xs) < |xs|
  {
    var n := |xs| - 1;
    if i < n {
      ExitedBound(xs[..n], i);
    } else if n > 0 {
      ExitedBound(xs[..n], 0);
    }
  }

  lemma {:induction false} ExitedAll(xs: seq<Sender>)
    requires ExitedCount(xs) == |xs|
    ensures forall i :: 0 <= i < |xs| ==> xs[i].Exited?
    ensures Total(Sent, xs) == Total(Fetched, xs)
  {
    if xs == [] {
    } else {
      if |xs| > 1 {
        ExitedBound(xs[..|xs| - 1], 0);
      }
      ExitedAll(xs[..|xs| - 1]);
    }
  }

  // ---- The invariant -------------------------------------------------------------------

  /** The part of `collected` that came through the channel. */
  function StageAPart(s: State): multiset<RiskData> {
    Datas(s.received)
  }

  /** The dependent's answer, once it counts. */
  function DependentPart(s: State): multiset<RiskData> {
    if s.main.Returned? then Bag(s.dependentData) else multiset{}
  }

  ghost predicate ChannelOk(s: State) {
    && |s.received| + |s.channel| == ExitedCount(s.senders)
    && Datas(s.received) + Datas(s.channel) == Total(Sent, s.senders)
    && |s.received| <= |s.senders|
    && (!s.main.Collecting? && !s.cut ==> |s.received| == |s.senders|)
  }

  ghost predicate CollectedOk(s: State) {
    && multiset(s.collected) == StageAPart(s) + DependentPart(s)
    && (s.main.CallingDependent? ==> s.hasDependent)
    && (s.dependentData.Some? ==> s.hasDependent && (s.main.ObservingDependent? || s.main.Returned?))
    && (s.main.ObservingDependent? ==> s.dependentData == Some(s.main.data) && s.withObserver)
  }

  ghost predicate ObservedOk(s: State) {
    s.withObserver ==> multiset(s.observed) == Total(Past, s.senders) + DependentPart(s)
  }

  ghost predicate Inv(s: State) {
    ChannelOk(s) && CollectedOk(s) && ObservedOk(s)
  }

  lemma {:induction false} NoneExited(n: nat)
    ensures ExitedCount(seq(n, _ => Fetching)) == 0
  {
    if n == 0 {
    } else {
      assert seq(n, _ => Fetching)[..n - 1] == seq(n - 1, _ => Fetching);
      NoneExited(n - 1);
    }
  }

  lemma InvInit(cfg: Config, withObserver: bool, hasDependent: bool, n: nat)
    ensures Inv(Init(cfg, withObserver, hasDependent, n))
  {
    TotalEmpty(Sent, n);
    TotalEmpty(Past, n);
    NoneExited(n);
  }

  /** What a goroutine's step adds to what has been sent, and to what is past its observer. */
  function AddsSent(s: State, a: Action): multiset<RiskData>
    requires Enabled(s, a)
  {
    if a.Send? then Bag(s.senders[a.i].res) else multiset{}
  }

  function AddsPast(s: State, a: Action): multiset<RiskData>
    requires Enabled(s, a)
  {
    if a.FetchSucceeds? && !s.withObserver then multiset{a.data}
    else if a.Observe? then multiset{s.senders[a.i].data}
    else multiset{}
  }

  predicate OfSender(a: Action) {
    a.FetchFails? || a.FetchSucceeds? || a.Observe? || a.Send?
  }

  lemma OneSentStep(s: State, a: Action)
    requires Enabled(s, a) && OfSender(a)
    ensures Sent(s.senders[a.i]) == multiset{} && Sent(Apply(s, a).senders[a.i]) == AddsSent(s, a)
    ensures !s.senders[a.i].Exited? && (Apply(s, a).senders[a.i].Exited? <==> a.Send?)
  {
  }

  lemma SentAfterSender(s: State, a: Action)
    requires Enabled(s, a) && OfSender(a)
    ensures Total(Sent, Apply(s, a).senders) == Total(Sent, s.senders) + AddsSent(s, a)
    ensures ExitedCount(Apply(s, a).senders) == ExitedCount(s.senders) + (if a.Send? then 1 else 0)
  {
    var y := Apply(s, a).senders[a.i];
    assert Apply(s, a).senders == s.senders[a.i := y];
    OneSentStep(s, a);
    TotalUpdate(Sent, s.senders, a.i, y);
    ExitedUpdate(s.senders, a.i, y);
  }

  lemma FetchPastStep(s: State, a: Action)
    requires Enabled(s, a) && (a.FetchFails? || a.FetchSucceeds?)
    ensures Past(Apply(s, a).senders[a.i]) == Past(s.senders[a.i]) + AddsPast(s, a)
  {
    assert Past(s.senders[a.i]) == multiset{};
  }

  lemma OnePastStep(s: State, a: Action)
    requires Enabled(s, a) && OfSender(a)
    ensures Past(Apply(s, a).senders[a.i]) == Past(s.senders[a.i]) + AddsPast(s, a)
  {
    if a.FetchFails? || a.FetchSucceeds? {
      FetchPastStep(s, a);
    } else if a.Observe? {
      assert Past(s.senders[a.i]) == multiset{};
    } else {
      assert AddsPast(s, a) == multiset{};
    }
  }

  lemma PastAfterSender(s: State, a: Action)
    requires Enabled(s, a) && OfSender(a)
    ensures Total(Past, Apply(s, a).senders) == Total(Past, s.senders) + AddsPast(s, a)
  {
    var x, y := s.senders[a.i], Apply(s, a).senders[a.i];
    assert Apply(s, a).senders == s.senders[a.i := y];
    TotalUpdate(Past, s.senders, a.i, y);
    OnePastStep(s, a);
    Cancel(Total(Past, Apply(s, a).senders), Past(x), Total(Past, s.senders), AddsPast(s, a));
  }

  lemma Cancel(a: multiset<RiskData>, b: multiset<RiskData>, c: multiset<RiskData>, d: multiset<RiskData>)
    requires a + b == c + (b + d)
    ensures a == c + d
  {
    assert a == (a + b) - b;
    assert c + d == (c + (b + d)) - b;
  }

  lemma ChannelAfterSender(s: State, a: Action)
    requires ChannelOk(s) && Enabled(s, a) && OfSender(a)
    ensures ChannelOk(Apply(s, a))
  {
    SentAfterSender(s, a);
    if a.Send? {
      var r := s.senders[a.i].res;
      assert (s.channel + [r])[..|s.channel|] == s.channel;
      assert Datas(s.channel + [r]) == Datas(s.channel) + Bag(r);
      assert Datas(s.received) + (Datas(s.channel) + Bag(r)) == (Datas(s.received) + Datas(s.channel)) + Bag(r);
    }
  }

  lemma ObservedAfterSender(s: State, a: Action)
    requires ObservedOk(s) && Enabled(s, a) && OfSender(a)
    ensures ObservedOk(Apply(s, a))
  {
    PastAfterSender(s, a);
  }

  lemma InvSender(s: State, a: Action)
    requires Inv(s) && Enabled(s, a) && OfSender(a)
    ensures Inv(Apply(s, a))
  {
    ChannelAfterSender(s, a);
    ObservedAfterSender(s, a);
  }

  lemma ChannelAfterReceive(s: State)
    requires ChannelOk(s) && Enabled(s, Receive)
    ensures ChannelOk(Apply(s, Receive))
  {
    var r, s' := s.channel[0], Apply(s, Receive);
    DatasTail(s.channel);
    DatasAppend(s.received, r);
    assert (Datas(s.received) + Bag(r)) + Datas(s'.channel) == Datas(s.received) + (Bag(r) + Datas(s'.channel));
  }

  lemma CollectedAfterReceive(s: State)
    requires CollectedOk(s) && Enabled(s, Receive)
    ensures CollectedOk(Apply(s, Receive))
  {
    DatasAppend(s.received, s.channel[0]);
    CollectedGrows(s);
    assert DependentPart(Apply(s, Receive)) == DependentPart(s) == multiset{};
  }

  lemma CollectedGrows(s: State)
    requires Enabled(s, Receive)
    ensures multiset(Apply(s, Receive).collected) == multiset(s.collected) + Bag(s.channel[0])
  {
    if s.channel[0].Some? {
      assert Apply(s, Receive).collected == s.collected + [s.channel[0].value];
    }
  }

  lemma InvReceive(s: State)
    requires Inv(s) && Enabled(s, Receive)
    ensures Inv(Apply(s, Receive))
  {
    ChannelAfterReceive(s);
    CollectedAfterReceive(s);
    assert ObservedOk(Apply(s, Receive));
  }

  lemma InvLoopEnd(s: State, a: Action)
    requires Inv(s) && Enabled(s, a) && (a.TakeDeadline? || a.LoopDone? || a.Deadline?)
    ensures Inv(Apply(s, a))
  {
    if !a.Deadline? {
      assert s.dependentData == None && DependentPart(s) == DependentPart(Apply(s, a)) == multiset{};
    }
  }

  predicate OfDependent(a: Action) {
    a.DependentFails? || a.DependentSucceeds? || a.ObserveDependent?
  }

  lemma ChannelAfterDependent(s: State, a: Action)
    requires ChannelOk(s) && Enabled(s, a) && OfDependent(a)
    ensures ChannelOk(Apply(s, a))
  {
  }

  lemma CollectedAfterDependent(s: State, a: Action)
    requires CollectedOk(s) && Enabled(s, a) && OfDependent(a)
    ensures CollectedOk(Apply(s, a))
  {
    assert DependentPart(s) == multiset{};
    if a.DependentFails? {
      assert s.dependentData == None;
    }
  }

  lemma ObservedAfterDependent(s: State, a: Action)
    requires CollectedOk(s) && ObservedOk(s) && Enabled(s, a) && OfDependent(a)
    ensures ObservedOk(Apply(s, a))
  {
    assert DependentPart(s) == multiset{};
    if a.DependentFails? {
      assert s.dependentData == None;
    }
  }

  lemma InvDependent(s: State, a: Action)
    requires Inv(s) && Enabled(s, a) && OfDependent(a)
    ensures Inv(Apply(s, a))
  {
    ChannelAfterDependent(s, a);
    CollectedAfterDependent(s, a);
    ObservedAfterDependent(s, a);
  }

  lemma {:induction false} InvStep(s: State, a: Action)
    requires Inv(s) && Enabled(s, a)
    ensures Inv(Apply(s, a))
  {
    if OfSender(a) {
      InvSender(s, a);
    } else if a.Receive? {
      InvReceive(s);
    } else if OfDependent(a) {
      InvDependent(s, a);
    } else {
      InvLoopEnd(s, a);
    }
  }

  lemma {:induction false} InvRun(s: State, acts: seq<Action>)
    requires Inv(s) && ValidRun(s, acts)
    ensures Inv(Run(s, acts))
    decreases |acts|
  {
    if acts == [] {
    } else {
      InvStep(s, acts[0]);
      InvRun(Apply(s, acts[0]), acts[1..]);
    }
  }

  // ---- Safety --------------------------------------------------------------------------

  /** In every interleaving a goroutine that is ready to send finds a free slot: no send ever blocks. */
  lemma SendNeverBlocks(cfg: Config, withObserver: bool, hasDependent: bool, n: nat, acts: seq<Action>, i: nat)
    requires ValidRun(Init(cfg, withObserver, hasDependent, n), acts) && i < n
    requires Run(Init(cfg, withObserver, hasDependent, n), acts).senders[i].Ready?
    ensures Enabled(Run(Init(cfg, withObserver, hasDependent, n), acts), Send(i))
  {
    InvInit(cfg, withObserver, hasDependent, n);
    InvRun(Init(cfg, withObserver, hasDependent, n), acts);
    ExitedBound(Run(Init(cfg, withObserver, hasDependent, n), acts).senders, i);
  }

  function Sends(acts: seq<Action>, i: nat): nat {
    if acts == [] then 0 else (if acts[0] == Send(i) then 1 else 0) + Sends(acts[1..], i)
  }

  /** Every goroutine sends at most once, and exactly once when it has exited. */
  lemma {:induction false} SendsExactlyOnce(s: State, acts: seq<Action>, i: nat)
    requires ValidRun(s, acts) && i < |s.senders|
    ensures i < |Run(s, acts).senders|
    ensures Sends(acts, i) == (if Run(s, acts).senders[i].Exited? then 1 else 0) - (if s.senders[i].Exited? then 1 else 0)
    decreases |acts|
  {
    if acts == [] {
    } else {
      SendsExactlyOnce(Apply(s, acts[0]), acts[1..], i);
    }
  }

  /** What Stage A contributes: never more than the providers that succeeded; all of them if the loop ran to
      its end; and always what was read from the channel. */
  lemma CollectedWithinSuccesses(s: State)
    requires Inv(s)
    ensures Datas(s.received) <= Total(Fetched, s.senders)
    ensures !s.main.Collecting? && !s.cut ==> Datas(s.received) == Total(Fetched, s.senders) && s.channel == []
  {
    assert forall x: Sender :: Sent(x) <= Fetched(x);
    TotalSub(Sent, Fetched, s.senders);
    if !s.main.Collecting? && !s.cut {
      if |s.senders| > 0 {
        ExitedBound(s.senders, 0);
      }
      ExitedAll(s.senders);
    }
  }

  /** The loop is left by the deadline branch only after the deadline. */
  lemma {:induction false} CutAfterDeadline(s: State, acts: seq<Action>)
    requires ValidRun(s, acts) && (s.cut ==> s.deadline)
    ensures Run(s, acts).cut ==> Run(s, acts).deadline
    ensures Run(s, acts).deadline ==> s.deadline || Deadline in acts
    decreases |acts|
  {
    if acts == [] {
    } else {
      CutAfterDeadline(Apply(s, acts[0]), acts[1..]);
    }
  }

  // ---- The dependent call --------------------------------------------------------------

  /** How often the dependent vendor answers or fails in these actions. */
  function DependentCalls(acts: seq<Action>): nat {
    if acts == [] then 0
    else (if acts[0].DependentFails? || acts[0].DependentSucceeds? then 1 else 0) + DependentCalls(acts[1..])
  }

  /** After Stage A, and only then, the dependent is called, if there is one. */
  lemma {:induction false} CallsLeftInRun(s: State, acts: seq<Action>)
    requires ValidRun(s, acts) && (s.main.CallingDependent? ==> s.hasDependent)
    ensures s.main.Returned? || s.main.ObservingDependent? ==> DependentCalls(acts) == 0
    ensures Run(s, acts).main.Returned? && (s.main.Collecting? || s.main.CallingDependent?)
            ==> DependentCalls(acts) == if s.hasDependent then 1 else 0
    decreases |acts|
  {
    if acts == [] {
    } else {
      CallsLeftInRun(Apply(s, acts[0]), acts[1..]);
    }
  }

  /** What the dependent answers is kept. */
  lemma {:induction false} DependentDataStays(s: State, acts: seq<Action>)
    requires ValidRun(s, acts)
    requires s.dependentData.Some? ==> s.main.ObservingDependent? || s.main.Returned?
    ensures s.dependentData.Some? ==> Run(s, acts).dependentData == s.dependentData
    ensures forall i :: 0 <= i < |acts| && acts[i].DependentSucceeds? ==> Run(s, acts).dependentData == Some(acts[i].data)
    decreases |acts|
  {
    if acts == [] {
    } else {
      DependentDataStays(Apply(s, acts[0]), acts[1..]);
    }
  }

  /** Stage B, exactly: a scorer with a dependent vendor returns only after calling it once, whether it answers
      or fails, and what it answers is collected; without a dependent nothing is called. */
  lemma DependentCalledOnce(cfg: Config, withObserver: bool, hasDependent: bool, n: nat, acts: seq<Action>)
    requires ValidRun(Init(cfg, withObserver, hasDependent, n), acts)
    requires Run(Init(cfg, withObserver, hasDependent, n), acts).main.Returned?
    ensures DependentCalls(acts) == if hasDependent then 1 else 0
    ensures forall i :: 0 <= i < |acts| && acts[i].DependentSucceeds? ==>
              acts[i].data in Run(Init(cfg, withObserver, hasDependent, n), acts).collected
  {
    var s0 := Init(cfg, withObserver, hasDependent, n);
    InvInit(cfg, withObserver, hasDependent, n);
    InvRun(s0, acts);
    CallsLeftInRun(s0, acts);
    DependentDataStays(s0, acts);
    var s := Run(s0, acts);
    forall i | 0 <= i < |acts| && acts[i].DependentSucceeds? ensures acts[i].data in s.collected {
      assert acts[i].data in multiset(s.collected);
    }
  }

  /** Fan-in safety over whole runs. */
  lemma FanInSafety(cfg: Config, withObserver: bool, hasDependent: bool, n: nat, acts: seq<Action>)
    requires ValidRun(Init(cfg, withObserver, hasDependent, n), acts)
    ensures var s := Run(Init(cfg, withObserver, hasDependent, n), acts);
            && |s.channel| <= n
            && multiset(s.collected) <= Total(Fetched, s.senders) + Bag(s.dependentData)
            && (s.main.Returned? && !s.cut ==> multiset(s.collected) == Total(Fetched, s.senders) + Bag(s.dependentData))
            && |s.collected| <= n + 1
            && (s.cut ==> Deadline in acts)
  {
    InvInit(cfg, withObserver, hasDependent, n);
    InvRun(Init(cfg, withObserver, hasDependent, n), acts);
    CutAfterDeadline(Init(cfg, withObserver, hasDependent, n), acts);
    var s := Run(Init(cfg, withObserver, hasDependent, n), acts);
    CollectedWithinSuccesses(s);
    TotalSize(s.senders);
    assert |multiset(s.collected)| == |s.collected|;
    assert |StageAPart(s)| <= |Total(Fetched, s.senders)| by {
      assert Total(Fetched, s.senders) == StageAPart(s) + (Total(Fetched, s.senders) - StageAPart(s));
    }
    if n > 0 {
      ExitedBound(s.senders, 0);
    }
  }

  /** In this run the dependent vendor, when it answers, answers to the reports it is called with. */
  ghost predicate Enriched(s: State, acts: seq<Action>, bureau: SimConfig, hash: nat)
    requires ValidRun(s, acts)
    decreases |acts|
  {
    acts == [] ||
    ((acts[0].DependentSucceeds? ==> acts[0].data == Answer(bureau, hash, s.collected))
     && Enriched(Apply(s, acts[0]), acts[1..], bureau, hash))
  }

  /** The dependent's answer is the one to what Stage A has collected, in some order. */
  ghost predicate AnswersStageA(s: State, bureau: SimConfig, hash: nat) {
    s.dependentData.Some? ==>
      exists prior :: multiset(prior) == Datas(s.received) && s.dependentData == Some(Answer(bureau, hash, prior))
  }

  lemma EnrichedStep(s: State, a: Action, bureau: SimConfig, hash: nat)
    requires CollectedOk(s) && AnswersStageA(s, bureau, hash) && Enabled(s, a)
    requires a.DependentSucceeds? ==> a.data == Answer(bureau, hash, s.collected)
    ensures AnswersStageA(Apply(s, a), bureau, hash)
  {
    if a.DependentSucceeds? {
      assert DependentPart(s) == multiset{};
      assert multiset(s.collected) == Datas(s.received);
    }
  }

  lemma {:induction false} EnrichedRun(s: State, acts: seq<Action>, bureau: SimConfig, hash: nat)
    requires Inv(s) && AnswersStageA(s, bureau, hash) && ValidRun(s, acts) && Enriched(s, acts, bureau, hash)
    ensures AnswersStageA(Run(s, acts), bureau, hash)
    decreases |acts|
  {
    if acts == [] {
    } else {
      EnrichedStep(s, acts[0], bureau, hash);
      InvStep(s, acts[0]);
      EnrichedRun(Apply(s, acts[0]), acts[1..], bureau, hash);
    }
  }

  lemma SameAnswers(s: State, t: State, bureau: SimConfig, hash: nat)
    requires AnswersStageA(s, bureau, hash) && AnswersStageA(t, bureau, hash) && Datas(s.received) == Datas(t.received)
    requires s.dependentData.Some? <==> t.dependentData.Some?
    ensures s.dependentData == t.dependentData
  {
    if s.dependentData.Some? {
      var a :| multiset(a) == Datas(s.received) && s.dependentData == Some(Answer(bureau, hash, a));
      var b :| multiset(b) == Datas(t.received) && t.dependentData == Some(Answer(bureau, hash, b));
      AnswerIndependentOfOrder(bureau, hash, a, b);
    }
  }

  /** Arrival order cannot change the answer: two runs that were not cut short, got the same reports from the
      independent vendors in whatever interleaving, and had the enriched dependent answer in both or in
      neither, give the same score, decision and signals. */
  lemma {:induction false} ScheduleCannotChangeTheVerdict(cfg: Config, withObserver: bool, hasDependent: bool, n: nat,
                                       bureau: SimConfig, hash: nat, acts1: seq<Action>, acts2: seq<Action>)
    requires ValidRun(Init(cfg, withObserver, hasDependent, n), acts1)
    requires ValidRun(Init(cfg, withObserver, hasDependent, n), acts2)
    requires Enriched(Init(cfg, withObserver, hasDependent, n), acts1, bureau, hash)
    requires Enriched(Init(cfg, withObserver, hasDependent, n), acts2, bureau, hash)
    ensures var s, t := Run(Init(cfg, withObserver, hasDependent, n), acts1), Run(Init(cfg, withObserver, hasDependent, n), acts2);
            s.main.Returned? && !s.cut && t.main.Returned? && !t.cut
            && Total(Fetched, s.senders) == Total(Fetched, t.senders)
            && (s.dependentData.Some? <==> t.dependentData.Some?)
            ==> Result(s) == Result(t)
  {
    var s0 := Init(cfg, withObserver, hasDependent, n);
    var s, t := Run(s0, acts1), Run(s0, acts2);
    InvInit(cfg, withObserver, hasDependent, n);
    InvRun(s0, acts1);
    InvRun(s0, acts2);
    EnrichedRun(s0, acts1, bureau, hash);
    EnrichedRun(s0, acts2, bureau, hash);
    CollectedWithinSuccesses(s);
    CollectedWithinSuccesses(t);
    if Datas(s.received) == Datas(t.received) && (s.dependentData.Some? <==> t.dependentData.Some?) {
      SameAnswers(s, t, bureau, hash);
      if multiset(s.collected) == multiset(t.collected) {
        VerdictIndependentOfOrder(cfg, s.collected, t.collected);
      }
    }
  }

  /** What is returned is final: goroutines that finish later change nothing in it. */
  lemma {:induction false} AnswerIsFinal(s: State, acts: seq<Action>)
    requires s.main.Returned? && ValidRun(s, acts)
    ensures Run(s, acts).main.Returned? && Result(Run(s, acts)) == Result(s)
    decreases |acts|
  {
    if acts == [] {
    } else {
      AnswerIsFinal(Apply(s, acts[0]), acts[1..]);
    }
  }

  /** Evidence coverage: in as-you-go mode, every report the decision uses has been observed when the scorer
      returns. */
  lemma CollectedIsObserved(cfg: Config, hasDependent: bool, n: nat, acts: seq<Action>)
    requires ValidRun(Init(cfg, true, hasDependent, n), acts)
    requires Run(Init(cfg, true, hasDependent, n), acts).main.Returned?
    ensures var s := Run(Init(cfg, true, hasDependent, n), acts);
            multiset(s.collected) <= multiset(s.observed)
  {
    InvInit(cfg, true, hasDependent, n);
    InvRun(Init(cfg, true, hasDependent, n), acts);
    var s := Run(Init(cfg, true, hasDependent, n), acts);
    assert forall x: Sender :: Sent(x) <= Past(x);
    TotalSub(Sent, Past, s.senders);
  }

  /** The other direction is not guaranteed: a provider may be observed after the deadline branch was taken,
      and then its report is recorded but not used. */
  lemma ObservedMayExceedCollected(cfg: Config, d: RiskData) returns (acts: seq<Action>)
    ensures ValidRun(Init(cfg, true, false, 1), acts)
    ensures var s := Run(Init(cfg, true, false, 1), acts);
            s.main.Returned? && s.collected == [] && s.observed == [d]
  {
    var s0 := Init(cfg, true, false, 1);
    acts := [FetchSucceeds(0, d), Deadline, TakeDeadline, Observe(0)];
    assert acts[1..] == [Deadline, TakeDeadline, Observe(0)];
    assert acts[1..][1..] == [TakeDeadline, Observe(0)];
    assert acts[1..][1..][1..] == [Observe(0)];
    assert acts[1..][1..][1..][1..] == [];
    var s1 := Apply(s0, acts[0]);
    assert s1.senders == [Observing(d)];
    var s2 := Apply(s1, Deadline);
    var s3 := Apply(s2, TakeDeadline);
    var s4 := Apply(s3, Observe(0));
    assert ValidRun(s4, []) && Run(s4, []) == s4;
    assert ValidRun(s3, [Observe(0)]) && Run(s3, [Observe(0)]) == s4;
    assert ValidRun(s2, [TakeDeadline, Observe(0)]) && Run(s2, [TakeDeadline, Observe(0)]) == s4;
  }

  lemma WithinSize(a: multiset<RiskData>, b: multiset<RiskData>)
    requires a <= b
    ensures |a| <= |b|
  {
    assert b == a + (b - a);
  }

  /** What was collected came from the vendors that succeeded. */
  lemma SucceededAtLeast(cfg: Config, withObserver: bool, hasDependent: bool, n: nat, acts: seq<Action>)
    requires ValidRun(Init(cfg, withObserver, hasDependent, n), acts)
    ensures var s := Run(Init(cfg, withObserver, hasDependent, n), acts);
            |Total(Fetched, s.senders) + Bag(s.dependentData)| >= |s.collected| && |s.collected| <= n + 1
  {
    FanInSafety(cfg, withObserver, hasDependent, n, acts);
    var s := Run(Init(cfg, withObserver, hasDependent, n), acts);
    WithinSize(multiset(s.collected), Total(Fetched, s.senders) + Bag(s.dependentData));
    assert |multiset(s.collected)| == |s.collected|;
  }

  /** What the scorer returns, of what it has collected: the weighted mean and the sorted sources. */
  lemma AnswerFacts(s: State)
    ensures Sum(Weight, s.collected) > 0.0 ==> Result(s).score == Sum(Weighted, s.collected) / Sum(Weight, s.collected)
    ensures Sum(Weight, s.collected) <= 0.0 ==> Result(s).score == 0.0
    ensures Sorted(Result(s).signalsUsed) && multiset(Result(s).signalsUsed) == multiset(Sources(s.collected))
    ensures |Result(s).signalsUsed| == |s.collected| && Result(s).logicVersion == s.cfg.logicVersion
  {
    DecisionExactly(s.cfg, s.collected);
  }

  /** An automatic verdict on these reports passed the gate. */
  lemma GatePassed(cfg: Config, collected: seq<RiskData>)
    requires Verdict(cfg, collected).decision == APPROVE || Verdict(cfg, collected).decision == DECLINE
    ensures Covered(cfg, collected)
  {
    DecisionsDiffer();
  }

  /** No automatic verdict on thin data, over whole runs: an APPROVE or DECLINE means that enough providers
      really succeeded, confidently enough; and the answer names each report it used. */
  lemma NoAutomaticVerdictOnThinData(cfg: Config, withObserver: bool, hasDependent: bool, n: nat, acts: seq<Action>)
    requires ValidRun(Init(cfg, withObserver, hasDependent, n), acts)
    requires Run(Init(cfg, withObserver, hasDependent, n), acts).main.Returned?
    ensures var s := Run(Init(cfg, withObserver, hasDependent, n), acts);
            var succeeded := Total(Fetched, s.senders) + Bag(s.dependentData);
            && (Result(s).decision == APPROVE || Result(s).decision == DECLINE ==>
                  && |succeeded| >= |s.collected| >= 1 && |s.collected| >= cfg.minSignals
                  && Covered(cfg, s.collected))
            && Sorted(Result(s).signalsUsed)
            && multiset(Result(s).signalsUsed) == multiset(Sources(s.collected))
            && |Result(s).signalsUsed| <= n + 1
  {
    SucceededAtLeast(cfg, withObserver, hasDependent, n, acts);
    var s := Run(Init(cfg, withObserver, hasDependent, n), acts);
    assert |Result(s).signalsUsed| == |s.collected| && Sorted(Result(s).signalsUsed) by {
      AnswerFacts(s);
    }
    if Result(s).decision == APPROVE || Result(s).decision == DECLINE {
      GatePassed(cfg, s.collected);
    }
  }

  // ---- Termination and leak freedom ----------------------------------------------------

  function StepsLeft(x: Sender): nat {
    match x
    case Fetching => 3
    case Observing(_) => 2
    case Ready(_) => 1
    case Exited(_) => 0
  }

  function AllSteps(xs: seq<Sender>): nat {
    if xs == [] then 0 else AllSteps(xs[..|xs| - 1]) + StepsLeft(xs[|xs| - 1])
  }

  function MainSteps(s: State): nat {
    match s.main
    case Collecting => (if |s.received| <= |s.senders| then |s.senders| - |s.received| else 0) + 3
    case CallingDependent => 2
    case ObservingDependent(_) => 1
    case Returned => 0
  }

  function Measure(s: State): nat {
    AllSteps(s.senders) + MainSteps(s) + if s.deadline then 0 else 1
  }

  lemma {:induction false} AllStepsUpdate(xs: seq<Sender>, i: nat, x: Sender)
    requires i < |xs|
    ensures AllSteps(xs[i := x]) == AllSteps(xs) - StepsLeft(xs[i]) + StepsLeft(x)
  {
    var n := |xs| - 1;
    if i < n {
      assert xs[i := x][..n] == xs[..n][i := x];
      AllStepsUpdate(xs[..n], i, x);
    } else {
      assert xs[i := x][..n] == xs[..n];
    }
  }

  lemma StepDecreases(s: State, a: Action)
    requires Enabled(s, a)
    ensures Measure(Apply(s, a)) < Measure(s)
  {
    if a.FetchFails? || a.FetchSucceeds? || a.Observe? || a.Send? {
      AllStepsUpdate(s.senders, a.i, Apply(s, a).senders[a.i]);
    }
  }

  lemma {:induction false} RunLength(s: State, acts: seq<Action>)
    requires ValidRun(s, acts)
    ensures |acts| <= Measure(s)
    decreases |acts|
  {
    if acts == [] {
    } else {
      StepDecreases(s, acts[0]);
      RunLength(Apply(s, acts[0]), acts[1..]);
    }
  }

  lemma {:induction false} InitialSteps(n: nat)
    ensures AllSteps(seq(n, _ => Fetching)) == 3 * n
  {
    if n == 0 {
    } else {
      assert seq(n, _ => Fetching)[..n - 1] == seq(n - 1, _ => Fetching);
      InitialSteps(n - 1);
    }
  }

  /** Only vendors that ignore their context can still act: the providers in `hung`, and the dependent if
      `hungDependent`. */
  ghost predicate OnlyHungLeft(s: State, hung: set<nat>, hungDependent: bool) {
    forall a :: Enabled(s, a) ==>
      || ((a.FetchFails? || a.FetchSucceeds?) && a.i in hung)
      || ((a.DependentFails? || a.DependentSucceeds?) && hungDependent)
  }

  /** Every run is short; and when only vendors that ignore their context could still act, every goroutine of
      the other providers has exited, also those the scorer stopped waiting for, and the scorer has returned,
      or waits for a dependent that ignores its context. */
  lemma {:induction false} NoLeaks(cfg: Config, withObserver: bool, hasDependent: bool, n: nat, acts: seq<Action>,
                                   hung: set<nat>, hungDependent: bool)
    requires ValidRun(Init(cfg, withObserver, hasDependent, n), acts)
    ensures |acts| <= 4 * n + 4
    ensures var s := Run(Init(cfg, withObserver, hasDependent, n), acts);
            OnlyHungLeft(s, hung, hungDependent) ==>
              && (s.main.Returned? || (hungDependent && s.main.CallingDependent?))
              && forall i :: 0 <= i < n && i !in hung ==> s.senders[i].Exited?
  {
    var s0 := Init(cfg, withObserver, hasDependent, n);
    RunLength(s0, acts);
    InitialSteps(n);
    InvInit(cfg, withObserver, hasDependent, n);
    InvRun(s0, acts);
    if OnlyHungLeft(Run(s0, acts), hung, hungDependent) {
      StuckMeansDone(Run(s0, acts), hung, hungDependent);
    }
  }

  lemma StuckSender(s: State, hung: set<nat>, hungDependent: bool, i: nat)
    requires ChannelOk(s) && OnlyHungLeft(s, hung, hungDependent) && i < |s.senders| && i !in hung
    ensures s.senders[i].Exited?
  {
    ExitedBound(s.senders, i);
    assert !Enabled(s, FetchFails(i)) && !Enabled(s, Observe(i)) && !Enabled(s, Send(i));
  }

  lemma StuckMain(s: State, hung: set<nat>, hungDependent: bool)
    requires ChannelOk(s) && OnlyHungLeft(s, hung, hungDependent)
    ensures s.main.Returned? || (hungDependent && s.main.CallingDependent?)
  {
    assert !Enabled(s, Deadline) && !Enabled(s, TakeDeadline) && !Enabled(s, LoopDone) && !Enabled(s, ObserveDependent);
    if !s.main.Returned? {
      MainCanAct(s);
      assert Enabled(s, DependentFails);
    }
  }

  /** As long as the scorer has not returned, it or its clock can act. */
  lemma MainCanAct(s: State)
    requires |s.received| <= |s.senders| && !s.main.Returned?
    ensures Enabled(s, Deadline) || Enabled(s, TakeDeadline) || Enabled(s, LoopDone)
            || Enabled(s, DependentFails) || Enabled(s, ObserveDependent)
  {
  }

  lemma StuckMeansDone(s: State, hung: set<nat>, hungDependent: bool)
    requires Inv(s) && OnlyHungLeft(s, hung, hungDependent)
    ensures s.main.Returned? || (hungDependent && s.main.CallingDependent?)
    ensures forall i: nat :: i < |s.senders| && i !in hung ==> s.senders[i].Exited?
  {
    StuckMain(s, hung, hungDependent);
    forall i: nat | i < |s.senders| && i !in hung {
      StuckSender(s, hung, hungDependent, i);
    }
  }
}
