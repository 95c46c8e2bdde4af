/** The incident: a burst of requests while one vendor always fails. With the guard the burst costs the healthy
    vendors' time plus a bounded number of budgets; with the naive fan-in every request waits for the deadline. */
module Incident {
  import opened Domain
  import opened Guard
  import opened VirtualTime

  /** Stage A of one request: the healthy vendors, the order of arrivals, and how many the loop read. */
  datatype StageA = StageA(healthy: seq<Vendor>, arr: seq<Arrival>, read: nat)

  predicate WellFormed(st: StageA) {
    st.read <= |st.arr| <= |st.healthy| + 1
  }

  function StageATime(st: StageA, deadline: real): real
    requires WellFormed(st)
  {
    ReturnTime(st.arr, |st.healthy| + 1, deadline, st.read)
  }

  ghost predicate AllWellFormed(stages: seq<StageA>) {
    forall i :: 0 <= i < |stages| ==> WellFormed(stages[i])
  }

  /** The Stage A time of the first `n` requests together. */
  ghost function TotalTime(stages: seq<StageA>, n: nat, deadline: real): real
    requires n <= |stages| && AllWellFormed(stages)
  {
    if n == 0 then 0.0 else TotalTime(stages, n - 1, deadline) + StageATime(stages[n - 1], deadline)
  }

  /** How long the `i`th request keeps the sick vendor busy: not at all if the breaker refuses it. */
  function Busy(cfg: GuardConfig, calls: seq<Call>, i: nat): int
    requires i < |calls|
  {
    Observe("", cfg, After(cfg, Closed(0), calls[..i]), calls[i]).nanos
  }

  /** The sick vendor as the scorer sees it through its guard. */
  function Sick(cfg: GuardConfig, calls: seq<Call>, i: nat): Vendor
    requires i < |calls|
  {
    Vendor(Busy(cfg, calls, i) as real, None, true)
  }

  /** Through its guard the sick vendor resolves at once if the breaker refuses, and otherwise takes what it
      takes; it never answers. */
  lemma SickExactly(cfg: GuardConfig, calls: seq<Call>, i: nat)
    requires i < |calls| && OwnErrors(calls)
    ensures var b, v := After(cfg, Closed(0), calls[..i]), Sick(cfg, calls, i);
            && v.answer == None && v.honours
            && (ErrorOf(cfg, b, calls[i]) == Some(OpenState) || ErrorOf(cfg, b, calls[i]) == Some(TooManyRequests) ==> v.latency == 0.0)
            && (ErrorOf(cfg, b, calls[i]) != Some(OpenState) && ErrorOf(cfg, b, calls[i]) != Some(TooManyRequests) ==>
                  v.latency == calls[i].duration as real)
  {
  }

  ghost predicate GuardedStage(cfg: GuardConfig, calls: seq<Call>, st: StageA, i: nat, deadline: real)
    requires i < |calls|
  {
    WellFormed(st) && ProductionSchedule(st.arr, st.healthy + [Sick(cfg, calls, i)], deadline) && Cut(st.arr, deadline, st.read)
  }

  /** Every request of the burst goes through production Stage A with the guarded vendor among its vendors. */
  ghost predicate GuardedBurst(cfg: GuardConfig, calls: seq<Call>, stages: seq<StageA>, deadline: real) {
    |stages| == |calls| && forall i :: 0 <= i < |calls| ==> GuardedStage(cfg, calls, stages[i], i, deadline)
  }

  predicate HealthyWithin(stages: seq<StageA>, latency: real) {
    forall i, j :: 0 <= i < |stages| && 0 <= j < |stages[i].healthy| ==> stages[i].healthy[j].latency <= latency
  }

  lemma OneStage(cfg: GuardConfig, calls: seq<Call>, st: StageA, i: nat, deadline: real, latency: real)
    requires i < |calls| && calls[i].duration >= 0 && GuardedStage(cfg, calls, st, i, deadline) && latency >= 0.0
    requires forall j :: 0 <= j < |st.healthy| ==> st.healthy[j].latency <= latency
    ensures StageATime(st, deadline) <= latency + Busy(cfg, calls, i) as real
  {
    var vs, bound := st.healthy + [Sick(cfg, calls, i)], latency + Busy(cfg, calls, i) as real;
    assert forall j :: 0 <= j < |vs| ==> vs[j].latency <= bound;
    EndsByLatencies(vs, deadline, st.arr, st.read, bound);
  }

  lemma BurstWellFormed(cfg: GuardConfig, calls: seq<Call>, stages: seq<StageA>, deadline: real)
    requires GuardedBurst(cfg, calls, stages, deadline)
    ensures AllWellFormed(stages)
  {
    forall i | 0 <= i < |stages| ensures WellFormed(stages[i]) {
      assert GuardedStage(cfg, calls, stages[i], i, deadline);
    }
  }

  lemma BusyStep(cfg: GuardConfig, calls: seq<Call>, n: nat)
    requires n < |calls|
    ensures VendorTime(cfg, Closed(0), calls[..n + 1]) == VendorTime(cfg, Closed(0), calls[..n]) + Busy(cfg, calls, n)
  {
    assert calls[..n + 1][..n] == calls[..n];
  }

  lemma StageOfBurst(cfg: GuardConfig, calls: seq<Call>, stages: seq<StageA>, i: nat, deadline: real, latency: real)
    requires OneByOne(calls) && GuardedBurst(cfg, calls, stages, deadline) && i < |stages|
    requires HealthyWithin(stages, latency) && latency >= 0.0
    ensures WellFormed(stages[i]) && StageATime(stages[i], deadline) <= latency + Busy(cfg, calls, i) as real
  {
    assert GuardedStage(cfg, calls, stages[i], i, deadline);
    OneStage(cfg, calls, stages[i], i, deadline, latency);
  }

  ghost function Times(n: nat, x: real): real {
    if n == 0 then 0.0 else Times(n - 1, x) + x
  }

  lemma {:induction false} TimesIsProduct(n: nat, x: real)
    ensures Times(n, x) == n as real * x
  {
    if n == 0 {
    } else {
      TimesIsProduct(n - 1, x);
      assert n as real * x == (n - 1) as real * x + x;
    }
  }

  lemma {:induction false} TotalBound(cfg: GuardConfig, calls: seq<Call>, stages: seq<StageA>, n: nat, deadline: real, latency: real)
    requires AllWellFormed(stages) && n <= |stages| == |calls|
    requires forall i :: 0 <= i < |stages| ==> StageATime(stages[i], deadline) <= latency + Busy(cfg, calls, i) as real
    ensures TotalTime(stages, n, deadline) <= Times(n, latency) + VendorTime(cfg, Closed(0), calls[..n]) as real
    decreases n
  {
    if n == 0 {
    } else {
      TotalBound(cfg, calls, stages, n - 1, deadline, latency);
      BusyStep(cfg, calls, n - 1);
    }
  }

  lemma BurstTime(cfg: GuardConfig, calls: seq<Call>, stages: seq<StageA>, deadline: real, latency: real)
    requires OneByOne(calls) && GuardedBurst(cfg, calls, stages, deadline)
    requires HealthyWithin(stages, latency) && latency >= 0.0
    ensures AllWellFormed(stages)
    ensures TotalTime(stages, |stages|, deadline) <= Times(|calls|, latency) + VendorTime(cfg, Closed(0), calls) as real
  {
    BurstWellFormed(cfg, calls, stages, deadline);
    forall i | 0 <= i < |stages|
      ensures StageATime(stages[i], deadline) <= latency + Busy(cfg, calls, i) as real
    {
      StageOfBurst(cfg, calls, stages, i, deadline, latency);
    }
    TotalBound(cfg, calls, stages, |calls|, deadline, latency);
    assert calls[..|calls|] == calls;
  }

  /** The guarded burst: all its Stage A time together is at most the healthy vendors' time per request, plus
      one budget for each failure up to the trip count and for each open window that has passed. */
  lemma BurstIsCheap(cfg: GuardConfig, calls: seq<Call>, attempts: seq<Attempt>, stages: seq<StageA>, deadline: real, latency: real)
    requires OneByOne(calls) && AllFail(calls) && Honoured(cfg, attempts, calls)
    requires GuardedBurst(cfg, calls, stages, deadline) && HealthyWithin(stages, latency) && latency >= 0.0
    ensures AllWellFormed(stages)
    ensures TotalTime(stages, |stages|, deadline)
            <= |calls| as real * latency + ((Trip(cfg) + Span(calls) / OpenTimeout(cfg)) * Allowed(cfg)) as real
  {
    BurstTime(cfg, calls, stages, deadline, latency);
    TimesIsProduct(|calls|, latency);
    BreakerCostBound(cfg, calls, attempts);
  }

  ghost predicate NaiveStage(st: StageA, sick: Vendor, deadline: real) {
    NaiveSchedule(st.arr, st.healthy + [sick], deadline) && Cut(st.arr, deadline, st.read)
  }

  lemma NaiveStageTime(st: StageA, sick: Vendor, deadline: real)
    requires WellFormed(st) && NaiveStage(st, sick, deadline) && sick.answer == None && deadline > 0.0
    ensures StageATime(st, deadline) == deadline
  {
    var vs := st.healthy + [sick];
    assert vs[|st.healthy|].answer == None;
    NaiveShape(st.arr, vs, deadline);
    NaivePinned(vs, deadline, st.arr, st.read);
  }

  ghost predicate NaiveBurst(stages: seq<StageA>, sick: Vendor, deadline: real) {
    forall i :: 0 <= i < |stages| ==> NaiveStage(stages[i], sick, deadline)
  }

  lemma {:induction false} EqualStages(stages: seq<StageA>, n: nat, deadline: real)
    requires AllWellFormed(stages) && n <= |stages|
    requires forall i :: 0 <= i < |stages| ==> StageATime(stages[i], deadline) == deadline
    ensures TotalTime(stages, n, deadline) == n as real * deadline
    decreases n
  {
    if n == 0 {
    } else {
      EqualStages(stages, n - 1, deadline);
      assert n as real * deadline == (n - 1) as real * deadline + deadline;
    }
  }

  /** The naive burst: a vendor that never answers costs every request the whole deadline. */
  lemma NaiveBurstIsDear(stages: seq<StageA>, sick: Vendor, deadline: real)
    requires sick.answer == None && deadline > 0.0
    requires AllWellFormed(stages) && NaiveBurst(stages, sick, deadline)
    ensures TotalTime(stages, |stages|, deadline) == |stages| as real * deadline
  {
    forall i | 0 <= i < |stages| ensures StageATime(stages[i], deadline) == deadline {
      NaiveStageTime(stages[i], sick, deadline);
    }
    EqualStages(stages, |stages|, deadline);
  }
}
