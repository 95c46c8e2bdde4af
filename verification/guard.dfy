/** The per-source guard: its own timeout, a circuit breaker and one metric per call. The breaker engine is a
    library outside this repository; the small machine here is an assumption about it, driven only by the
    settings the repository gives it. Times are integers (nanoseconds). */
module Guard {
  import opened Domain
  import opened Metrics

  datatype FetchError = Canceled | DeadlineExceeded | VendorError | OpenState | TooManyRequests

  /** Zero values stand for "not set". */
  datatype GuardConfig = GuardConfig(budget: int, consecutiveFailuresToTrip: nat, halfOpenMaxRequests: nat, openTimeout: int)

  const SIXTY_SECONDS := 60_000_000_000

  function Trip(cfg: GuardConfig): nat {
    if cfg.consecutiveFailuresToTrip == 0 then 5 else cfg.consecutiveFailuresToTrip
  }

  function MaxRequests(cfg: GuardConfig): nat {
    if cfg.halfOpenMaxRequests == 0 then 1 else cfg.halfOpenMaxRequests
  }

  function OpenTimeout(cfg: GuardConfig): int {
    if cfg.openTimeout <= 0 then SIXTY_SECONDS else cfg.openTimeout
  }

  /** A caller that goes away is not held against the vendor. */
  predicate IsSuccessful(err: Option<FetchError>) {
    err == None || err == Some(Canceled)
  }

  function Classify(err: Option<FetchError>): Outcome {
    match err
    case None => Success
    case Some(OpenState) => BreakerOpen
    case Some(TooManyRequests) => BreakerOpen
    case Some(DeadlineExceeded) => Timeout
    case Some(_) => Error
  }

  // ---- The assumed breaker -------------------------------------------------------------

  datatype Breaker = Closed(failures: nat) | Open(until: int) | HalfOpen(requests: nat, successes: nat)

  /** A request at `now`, and what the vendor would do with it: its error, and how long it takes. */
  datatype Call = Call(now: int, err: Option<FetchError>, duration: int)

  /** An open breaker whose timeout has passed is half-open. */
  function Current(b: Breaker, now: int): Breaker {
    if b.Open? && b.until < now then HalfOpen(0, 0) else b
  }

  function Refusal(cfg: GuardConfig, b: Breaker): Option<FetchError> {
    match b
    case Closed(_) => None
    case Open(_) => Some(OpenState)
    case HalfOpen(requests, _) => if requests >= MaxRequests(cfg) then Some(TooManyRequests) else None
  }

  /** The breaker after an admitted request has ended at `end`. */
  function Settle(cfg: GuardConfig, b: Breaker, ok: bool, end: int): Breaker {
    match b
    case Closed(failures) =>
      if ok then Closed(0)
      else if failures + 1 >= Trip(cfg) then Open(end + OpenTimeout(cfg))
      else Closed(failures + 1)
    case Open(_) => b
    case HalfOpen(requests, successes) =>
      if !ok then Open(end + OpenTimeout(cfg))
      else if successes + 1 >= MaxRequests(cfg) then Closed(0)
      else HalfOpen(requests + 1, successes + 1)
  }

  predicate Invokes(cfg: GuardConfig, b: Breaker, c: Call) {
    Refusal(cfg, Current(b, c.now)).None?
  }

  function Next(cfg: GuardConfig, b: Breaker, c: Call): Breaker {
    var cur := Current(b, c.now);
    if Refusal(cfg, cur).Some? then cur else Settle(cfg, cur, IsSuccessful(c.err), c.now + c.duration)
  }

  function ErrorOf(cfg: GuardConfig, b: Breaker, c: Call): Option<FetchError> {
    var refusal := Refusal(cfg, Current(b, c.now));
    if refusal.Some? then refusal else c.err
  }

  // ---- Runs ----------------------------------------------------------------------------

  function After(cfg: GuardConfig, b: Breaker, calls: seq<Call>): Breaker {
    if calls == [] then b else Next(cfg, After(cfg, b, calls[..|calls| - 1]), calls[|calls| - 1])
  }

  function Errors(cfg: GuardConfig, b: Breaker, calls: seq<Call>): seq<Option<FetchError>> {
    if calls == [] then []
    else
      var n := |calls| - 1;
      Errors(cfg, b, calls[..n]) + [ErrorOf(cfg, After(cfg, b, calls[..n]), calls[n])]
  }

  /** How often the vendor is really called. */
  function Invoked(cfg: GuardConfig, b: Breaker, calls: seq<Call>): nat {
    if calls == [] then 0
    else
      var n := |calls| - 1;
      Invoked(cfg, b, calls[..n]) + if Invokes(cfg, After(cfg, b, calls[..n]), calls[n]) then 1 else 0
  }

  /** How long it is kept busy. */
  function VendorTime(cfg: GuardConfig, b: Breaker, calls: seq<Call>): int {
    if calls == [] then 0
    else
      var n := |calls| - 1;
      VendorTime(cfg, b, calls[..n]) + if Invokes(cfg, After(cfg, b, calls[..n]), calls[n]) then calls[n].duration else 0
  }

  /** The vendor itself never answers with the breaker's errors. */
  predicate OwnErrors(calls: seq<Call>) {
    forall i :: 0 <= i < |calls| ==> calls[i].err != Some(OpenState) && calls[i].err != Some(TooManyRequests)
  }

  /** One request after the other. */
  predicate OneByOne(calls: seq<Call>) {
    && (forall i :: 0 <= i < |calls| ==> calls[i].duration >= 0)
    && (forall i, j :: 0 <= i < j < |calls| ==> calls[i].now + calls[i].duration <= calls[j].now)
  }

  /** Every call fails, and not because its caller went away. */
  predicate AllFail(calls: seq<Call>) {
    forall i :: 0 <= i < |calls| ==> calls[i].err != None && calls[i].err != Some(Canceled)
  }

  /** The time from the first request to the end of the last. */
  function Span(calls: seq<Call>): int {
    if calls == [] then 0 else calls[|calls| - 1].now + calls[|calls| - 1].duration - calls[0].now
  }

  /** What `calls` failures from time `start` to time `end` leave, `n` of them having reached the vendor. */
  predicate Paid(cfg: GuardConfig, b: Breaker, n: nat, calls: nat, start: int, end: int) {
    match b
    case Closed(f) => n == f == calls && n < Trip(cfg)
    case Open(until) =>
      && n >= Trip(cfg)
      && (n - Trip(cfg)) * OpenTimeout(cfg) <= until - OpenTimeout(cfg) - start
      && until - OpenTimeout(cfg) <= end
    case HalfOpen(_, _) => false
  }

  lemma FailingFirst(cfg: GuardConfig, c: Call)
    requires c.duration >= 0 && !IsSuccessful(c.err)
    ensures Invokes(cfg, Closed(0), c)
    ensures Paid(cfg, Next(cfg, Closed(0), c), 1, 1, c.now, c.now + c.duration)
  {
    assert (1 - 1) * OpenTimeout(cfg) == 0;
  }

  lemma FailingStep(cfg: GuardConfig, b: Breaker, n: nat, calls: nat, start: int, end: int, c: Call)
    requires Paid(cfg, b, n, calls, start, end) && start <= end <= c.now && c.duration >= 0 && !IsSuccessful(c.err)
    ensures Paid(cfg, Next(cfg, b, c), if Invokes(cfg, b, c) then n + 1 else n, calls + 1, start, c.now + c.duration)
  {
    var t := OpenTimeout(cfg);
    if b.Open? && b.until < c.now {
      assert (n + 1 - Trip(cfg)) * t == (n - Trip(cfg)) * t + t;
    } else if b.Closed? && n + 1 >= Trip(cfg) {
      assert (n + 1 - Trip(cfg)) * t == 0;
    }
  }

  /** What a run of failures leaves: still counting, or open with every call beyond the trip count paid for by
      an open window that has passed. */
  lemma {:induction false} FailingRun(cfg: GuardConfig, calls: seq<Call>)
    requires OneByOne(calls) && AllFail(calls) && calls != []
    ensures Paid(cfg, After(cfg, Closed(0), calls), Invoked(cfg, Closed(0), calls), |calls|,
                 calls[0].now, calls[|calls| - 1].now + calls[|calls| - 1].duration)
    ensures calls[0].now <= calls[|calls| - 1].now + calls[|calls| - 1].duration
  {
    var last := |calls| - 1;
    if last == 0 {
      assert calls[..0] == [];
      FailingFirst(cfg, calls[0]);
    } else {
      FailingRun(cfg, calls[..last]);
      assert calls[..last][0] == calls[0] && calls[..last][last - 1] == calls[last - 1];
      FailingStep(cfg, After(cfg, Closed(0), calls[..last]), Invoked(cfg, Closed(0), calls[..last]), last,
                  calls[0].now, calls[last - 1].now + calls[last - 1].duration, calls[last]);
    }
  }

  lemma PaidWindows(cfg: GuardConfig, calls: seq<Call>)
    requires OneByOne(calls) && AllFail(calls) && calls != []
    ensures Span(calls) >= 0
    ensures var n := Invoked(cfg, Closed(0), calls);
            n > Trip(cfg) ==> (n - Trip(cfg)) * OpenTimeout(cfg) <= Span(calls)
  {
    FailingRun(cfg, calls);
    assert |calls| > 1 ==> calls[0].now + calls[0].duration <= calls[|calls| - 1].now;
  }

  lemma {:induction false} VendorTimeBound(cfg: GuardConfig, b: Breaker, calls: seq<Call>)
    requires forall i :: 0 <= i < |calls| ==> 0 <= calls[i].duration <= Allowed(cfg)
    ensures VendorTime(cfg, b, calls) <= Invoked(cfg, b, calls) * Allowed(cfg)
  {
    if calls == [] {
    } else {
      var n := |calls| - 1;
      VendorTimeBound(cfg, b, calls[..n]);
      OneBudgetMore(Invoked(cfg, b, calls[..n]), Allowed(cfg));
    }
  }

  lemma OneBudgetMore(k: nat, budget: nat)
    ensures (k + 1) * budget == k * budget + budget
  {
  }

  /** A request as the guard makes it: when the vendor would answer and what, whether it gives up when its
      context ends, and when and how the caller's own context ends (it may have ended before). */
  datatype Attempt = Attempt(now: int, latency: nat, err: Option<FetchError>, honours: bool, callerEnds: int, callerError: FetchError)

  /** What the guard's budget allows; a negative one is over at once. */
  function Allowed(cfg: GuardConfig): nat {
    if cfg.budget < 0 then 0 else cfg.budget
  }

  predicate CallerFirst(cfg: GuardConfig, a: Attempt) {
    a.callerEnds <= a.now || a.callerEnds < a.now + Allowed(cfg)
  }

  /** The nested context ends with the caller's or after the budget, whichever is first, but not before it
      is made. */
  function Limit(cfg: GuardConfig, a: Attempt): int {
    if a.callerEnds <= a.now then a.now
    else if a.callerEnds < a.now + Allowed(cfg) then a.callerEnds
    else a.now + Allowed(cfg)
  }

  function ContextError(cfg: GuardConfig, a: Attempt): FetchError {
    if CallerFirst(cfg, a) then a.callerError else DeadlineExceeded
  }

  /** What may come of it, if it is let through; at the limit either may win. */
  predicate Attempted(cfg: GuardConfig, a: Attempt, c: Call) {
    && c.now == a.now
    && (if !a.honours || a.now + a.latency < Limit(cfg, a) then c.err == a.err && c.duration == a.latency
        else if a.now + a.latency > Limit(cfg, a) then
          c.err == Some(ContextError(cfg, a)) && c.duration == Limit(cfg, a) - a.now
        else c.duration == a.latency && (c.err == a.err || c.err == Some(ContextError(cfg, a))))
  }

  /** All requests go to a vendor that honours its context. */
  ghost predicate Honoured(cfg: GuardConfig, attempts: seq<Attempt>, calls: seq<Call>) {
    |attempts| == |calls| && forall i :: 0 <= i < |calls| ==> attempts[i].honours && Attempted(cfg, attempts[i], calls[i])
  }

  /** The per-source budget: such a request never takes longer, however long the caller would wait. */
  lemma WithinBudget(cfg: GuardConfig, attempts: seq<Attempt>, calls: seq<Call>)
    requires Honoured(cfg, attempts, calls)
    ensures forall i :: 0 <= i < |calls| ==> 0 <= calls[i].duration <= if cfg.budget < 0 then 0 else cfg.budget
    ensures forall i :: 0 <= i < |calls| && attempts[i].callerEnds >= calls[i].now ==>
              calls[i].now + calls[i].duration <= attempts[i].callerEnds
  {
    forall i | 0 <= i < |calls|
      ensures 0 <= calls[i].duration <= Allowed(cfg)
      ensures attempts[i].callerEnds >= calls[i].now ==> calls[i].now + calls[i].duration <= attempts[i].callerEnds
    {
      assert attempts[i].honours && Attempted(cfg, attempts[i], calls[i]);
    }
  }

  /** A vendor that would take longer than its budget, called by a caller that would wait, is cut off after
      exactly the budget and counted as timed out. */
  lemma SlowVendorTimesOut(cfg: GuardConfig, a: Attempt, c: Call)
    requires Attempted(cfg, a, c) && a.honours && 0 <= cfg.budget < a.latency
    requires a.callerEnds > a.now && a.callerEnds >= a.now + cfg.budget
    ensures c.err == Some(DeadlineExceeded) && c.duration == cfg.budget && Classify(c.err) == Timeout
  {
  }

  /** A caller whose context ends first sees its own error, and only then. */
  lemma CallerEndsFirst(cfg: GuardConfig, a: Attempt, c: Call)
    requires Attempted(cfg, a, c) && a.honours && a.now < a.callerEnds < a.now + cfg.budget
    ensures a.now + a.latency > a.callerEnds ==> c.err == Some(a.callerError) && c.now + c.duration == a.callerEnds
    ensures a.now + a.latency < a.callerEnds ==> c.err == a.err && c.duration == a.latency
  {
  }

  /** Cost bound: a vendor that always fails is called at most as often as it takes to trip, plus once per
      open window that has passed; if it honours its context it costs at most that many budgets. */
  lemma BreakerCostBound(cfg: GuardConfig, calls: seq<Call>, attempts: seq<Attempt>)
    requires OneByOne(calls) && AllFail(calls) && Honoured(cfg, attempts, calls)
    ensures Span(calls) >= 0
    ensures Invoked(cfg, Closed(0), calls) <= Trip(cfg) + Span(calls) / OpenTimeout(cfg)
    ensures VendorTime(cfg, Closed(0), calls) <= (Trip(cfg) + Span(calls) / OpenTimeout(cfg)) * Allowed(cfg)
    ensures Trip(cfg) == if cfg.consecutiveFailuresToTrip == 0 then 5 else cfg.consecutiveFailuresToTrip
    ensures OpenTimeout(cfg) == if cfg.openTimeout <= 0 then 60_000_000_000 else cfg.openTimeout
    ensures cfg.budget >= 0 ==> Allowed(cfg) == cfg.budget
  {
    InvokedBound(cfg, calls);
    WithinBudget(cfg, attempts, calls);
    VendorTimeBound(cfg, Closed(0), calls);
    ScaleBound(Invoked(cfg, Closed(0), calls), Trip(cfg) + Span(calls) / OpenTimeout(cfg), Allowed(cfg));
  }

  lemma ScaleBound(x: int, y: int, c: int)
    requires x <= y && c >= 0
    ensures x * c <= y * c
  {
  }

  lemma InvokedBound(cfg: GuardConfig, calls: seq<Call>)
    requires OneByOne(calls) && AllFail(calls)
    ensures Span(calls) >= 0
    ensures Invoked(cfg, Closed(0), calls) <= Trip(cfg) + Span(calls) / OpenTimeout(cfg)
  {
    if calls == [] {
    } else {
      PaidWindows(cfg, calls);
      var n, t := Invoked(cfg, Closed(0), calls), OpenTimeout(cfg);
      WholeWindows(if n > Trip(cfg) then n - Trip(cfg) else 0, t, Span(calls));
    }
  }

  lemma WholeWindows(k: nat, t: int, span: int)
    requires t > 0 && k * t <= span
    ensures k <= span / t
  {
    var q := span / t;
    assert span < (q + 1) * t;
    CancelFactor(k, q, t);
  }

  lemma NoWholeWindow(k: nat, t: int, span: int)
    requires t > 0 && k * t <= span < t
    ensures k == 0
  {
    CancelFactor(k, 0, t);
  }

  /** Within one open window the breaker lets exactly the first failures through. */
  lemma OneWindowExactly(cfg: GuardConfig, calls: seq<Call>)
    requires OneByOne(calls) && AllFail(calls)
    requires Span(calls) < if cfg.openTimeout <= 0 then 60_000_000_000 else cfg.openTimeout
    ensures var trip := if cfg.consecutiveFailuresToTrip == 0 then 5 else cfg.consecutiveFailuresToTrip;
            Invoked(cfg, Closed(0), calls) == if |calls| < trip then |calls| else trip
  {
    if calls != [] {
      FailingRun(cfg, calls);
      PaidWindows(cfg, calls);
      InvokedAtMost(cfg, Closed(0), calls);
      var n := Invoked(cfg, Closed(0), calls);
      if n > Trip(cfg) {
        NoWholeWindow(n - Trip(cfg), OpenTimeout(cfg), Span(calls));
      }
    }
  }

  lemma {:induction false} InvokedAtMost(cfg: GuardConfig, b: Breaker, calls: seq<Call>)
    ensures Invoked(cfg, b, calls) <= |calls|
  {
    if calls == [] {
    } else {
      InvokedAtMost(cfg, b, calls[..|calls| - 1]);
    }
  }

  // ---- Blame ---------------------------------------------------------------------------

  /** The failures at the end of the run; a success, or a caller that went away, ends the count. */
  function Trailing(calls: seq<Call>): nat {
    if calls == [] || calls[|calls| - 1].err == None || calls[|calls| - 1].err == Some(Canceled) then 0
    else Trailing(calls[..|calls| - 1]) + 1
  }

  ghost predicate NeverTrips(cfg: GuardConfig, calls: seq<Call>) {
    forall k :: 0 <= k <= |calls| ==> Trailing(calls[..k]) < Trip(cfg)
  }

  lemma {:induction false} StaysClosed(cfg: GuardConfig, calls: seq<Call>)
    requires NeverTrips(cfg, calls)
    ensures After(cfg, Closed(0), calls) == Closed(Trailing(calls))
  {
    if calls == [] {
    } else {
      var n := |calls| - 1;
      forall k | 0 <= k <= n ensures Trailing(calls[..n][..k]) < Trip(cfg) {
        assert calls[..n][..k] == calls[..k];
      }
      StaysClosed(cfg, calls[..n]);
      assert calls[..n + 1] == calls;
      assert Trailing(calls[..n + 1]) < Trip(cfg);
    }
  }

  lemma NoTripBefore(cfg: GuardConfig, calls: seq<Call>, n: nat)
    requires n <= |calls| && NeverTrips(cfg, calls[..n])
    ensures forall j :: 0 <= j <= n ==> Trailing(calls[..j]) < Trip(cfg)
  {
    forall j | 0 <= j <= n ensures Trailing(calls[..j]) < Trip(cfg) {
      assert calls[..n][..j] == calls[..j];
    }
  }

  lemma {:induction false} FirstTrip(cfg: GuardConfig, calls: seq<Call>) returns (k: nat)
    requires !NeverTrips(cfg, calls)
    ensures k <= |calls| && After(cfg, Closed(0), calls[..k]).Open?
    decreases |calls|
  {
    var j: nat :| j <= |calls| && Trailing(calls[..j]) >= Trip(cfg);
    var n := |calls| - 1;
    if NeverTrips(cfg, calls[..n]) {
      k := |calls|;
      assert calls[..k] == calls;
      StaysClosed(cfg, calls[..n]);
      NoTripBefore(cfg, calls, n);
    } else {
      k := FirstTrip(cfg, calls[..n]);
      assert calls[..n][..k] == calls[..k];
    }
  }

  /** Blame, exactly: the breaker opens at some point if and only if some stretch of consecutive failures,
      not interrupted by a success or a caller cancellation, reaches the trip count. */
  lemma OpensExactlyOnConsecutiveFailures(cfg: GuardConfig, calls: seq<Call>)
    ensures (exists k :: 0 <= k <= |calls| && After(cfg, Closed(0), calls[..k]).Open?)
            <==> exists k :: 0 <= k <= |calls| &&
                   Trailing(calls[..k]) >= if cfg.consecutiveFailuresToTrip == 0 then 5 else cfg.consecutiveFailuresToTrip
  {
    if NeverTrips(cfg, calls) {
      forall k | 0 <= k <= |calls| ensures After(cfg, Closed(0), calls[..k]).Closed? {
        forall j | 0 <= j <= k ensures Trailing(calls[..k][..j]) < Trip(cfg) {
          assert calls[..k][..j] == calls[..j];
        }
        StaysClosed(cfg, calls[..k]);
      }
    } else {
      var k := FirstTrip(cfg, calls);
    }
  }

  /** Successes and caller cancellations alone never open it, and every call reaches the vendor. */
  lemma {:induction false} BlamelessRunStaysClosed(cfg: GuardConfig, calls: seq<Call>)
    requires forall i :: 0 <= i < |calls| ==> calls[i].err == None || calls[i].err == Some(Canceled)
    ensures After(cfg, Closed(0), calls) == Closed(0) && Invoked(cfg, Closed(0), calls) == |calls|
  {
    if calls == [] {
    } else {
      BlamelessRunStaysClosed(cfg, calls[..|calls| - 1]);
    }
  }

  // ---- Recovery ------------------------------------------------------------------------

  /** How many trial requests a half-open breaker admits. */
  function Trials(cfg: GuardConfig): nat {
    if cfg.halfOpenMaxRequests == 0 then 1 else cfg.halfOpenMaxRequests
  }

  ghost predicate TrialsAfter(until: int, calls: seq<Call>) {
    forall i :: 0 <= i < |calls| ==> calls[i].now > until && (calls[i].err == None || calls[i].err == Some(Canceled))
  }

  /** Recovery, exactly: after the open window as many successful trial requests as configured close the
      breaker, all of them reaching the vendor; fewer leave it half-open. */
  lemma {:induction false} TrialsClose(cfg: GuardConfig, until: int, calls: seq<Call>)
    requires TrialsAfter(until, calls) && 0 < |calls| <= if cfg.halfOpenMaxRequests == 0 then 1 else cfg.halfOpenMaxRequests
    ensures Invoked(cfg, Open(until), calls) == |calls|
    ensures After(cfg, Open(until), calls)
            == if |calls| < Trials(cfg) then HalfOpen(|calls|, |calls|) else Closed(0)
  {
    var n := |calls| - 1;
    if n == 0 {
      assert calls[..0] == [];
    } else {
      TrialsClose(cfg, until, calls[..n]);
    }
  }

  /** And one failed trial opens it again for a whole window. */
  lemma FailedTrialReopens(cfg: GuardConfig, until: int, calls: seq<Call>, c: Call)
    requires TrialsAfter(until, calls) && |calls| < if cfg.halfOpenMaxRequests == 0 then 1 else cfg.halfOpenMaxRequests
    requires c.now > until && c.err != None && c.err != Some(Canceled)
    ensures Invoked(cfg, Open(until), calls + [c]) == |calls| + 1
    ensures After(cfg, Open(until), calls + [c])
            == Open(c.now + c.duration + if cfg.openTimeout <= 0 then 60_000_000_000 else cfg.openTimeout)
  {
    assert (calls + [c])[..|calls|] == calls;
    if calls != [] {
      TrialsClose(cfg, until, calls);
    }
  }

  // ---- A set of guards -----------------------------------------------------------------

  datatype Request = Request(vendor: nat, call: Call)

  function SetAfter(cfg: GuardConfig, bs: seq<Breaker>, reqs: seq<Request>): (r: seq<Breaker>)
    ensures |r| == |bs|
  {
    if reqs == [] then bs
    else
      var before, q := SetAfter(cfg, bs, reqs[..|reqs| - 1]), reqs[|reqs| - 1];
      if q.vendor < |bs| then before[q.vendor := Next(cfg, before[q.vendor], q.call)] else before
  }

  /** The errors that the callers of one vendor see. */
  function ErrorsSeen(cfg: GuardConfig, bs: seq<Breaker>, reqs: seq<Request>, vendor: nat): seq<Option<FetchError>>
    requires vendor < |bs|
  {
    if reqs == [] then []
    else
      var n := |reqs| - 1;
      ErrorsSeen(cfg, bs, reqs[..n], vendor)
      + (if reqs[n].vendor == vendor then [ErrorOf(cfg, SetAfter(cfg, bs, reqs[..n])[vendor], reqs[n].call)] else [])
  }

  function Project(reqs: seq<Request>, vendor: nat): seq<Call> {
    if reqs == [] then []
    else
      var n := |reqs| - 1;
      Project(reqs[..n], vendor) + (if reqs[n].vendor == vendor then [reqs[n].call] else [])
  }

  /** Isolation: in any interleaving of requests to a guarded set, one vendor's guard goes through exactly the
      states, and its callers see exactly the errors, of a run with that vendor's requests alone. */
  lemma {:induction false} BreakersAreIsolated(cfg: GuardConfig, bs: seq<Breaker>, reqs: seq<Request>, vendor: nat)
    requires vendor < |bs|
    ensures SetAfter(cfg, bs, reqs)[vendor] == After(cfg, bs[vendor], Project(reqs, vendor))
    ensures ErrorsSeen(cfg, bs, reqs, vendor) == Errors(cfg, bs[vendor], Project(reqs, vendor))
  {
    if reqs == [] {
    } else {
      var n := |reqs| - 1;
      BreakersAreIsolated(cfg, bs, reqs[..n], vendor);
      var before, all := Project(reqs[..n], vendor), Project(reqs, vendor);
      if reqs[n].vendor == vendor {
        assert all[..|all| - 1] == before;
      } else {
        assert all == before;
        assert ErrorsSeen(cfg, bs, reqs, vendor) == ErrorsSeen(cfg, bs, reqs[..n], vendor);
      }
    }
  }

  // ---- What is recorded ----------------------------------------------------------------

  /** The observation of one call: the outcome its caller sees; no time passes in a refused call. */
  function Observe(name: string, cfg: GuardConfig, b: Breaker, c: Call): Observation {
    Observation(name, Classify(ErrorOf(cfg, b, c)), if Invokes(cfg, b, c) then c.duration else 0)
  }

  function Observed(name: string, cfg: GuardConfig, b: Breaker, calls: seq<Call>): seq<Observation> {
    if calls == [] then []
    else
      var n := |calls| - 1;
      Observed(name, cfg, b, calls[..n]) + [Observe(name, cfg, After(cfg, b, calls[..n]), calls[n])]
  }

  /** Conservation: one observation per call, spread over the four outcomes; those counted as refused are
      exactly the calls that did not reach the vendor; and the recorded time is the vendor's time. */
  lemma {:induction false} ObservationsAddUp(name: string, cfg: GuardConfig, b: Breaker, calls: seq<Call>)
    ensures var log := Observed(name, cfg, b, calls);
            && CountOf(log, name, Success) + CountOf(log, name, Error) + CountOf(log, name, Timeout)
               + CountOf(log, name, BreakerOpen) == |calls|
            && (OwnErrors(calls) ==> CountOf(log, name, BreakerOpen) + Invoked(cfg, b, calls) == |calls|)
            && NanosOf(log, name, Success) + NanosOf(log, name, Error) + NanosOf(log, name, Timeout)
               + NanosOf(log, name, BreakerOpen) == VendorTime(cfg, b, calls)
  {
    OneObservationEach(name, cfg, b, calls);
    OutcomesPartition(Observed(name, cfg, b, calls), name);
    if OwnErrors(calls) {
      RefusedAreTheRest(name, cfg, b, calls);
    }
    TimesAddUp(name, cfg, b, calls);
  }

  /** How many of these callers saw one of these results. */
  function Saw(errs: seq<Option<FetchError>>, results: set<Option<FetchError>>): nat {
    if errs == [] then 0 else Saw(errs[..|errs| - 1], results) + if errs[|errs| - 1] in results then 1 else 0
  }

  /** What is counted as what: each outcome counts exactly the callers that saw its results. */
  lemma {:induction false} OutcomesCountResults(name: string, cfg: GuardConfig, b: Breaker, calls: seq<Call>)
    ensures var log, errs := Observed(name, cfg, b, calls), Errors(cfg, b, calls);
            && CountOf(log, name, Success) == Saw(errs, {None})
            && CountOf(log, name, Timeout) == Saw(errs, {Some(DeadlineExceeded)})
            && CountOf(log, name, BreakerOpen) == Saw(errs, {Some(OpenState), Some(TooManyRequests)})
            && CountOf(log, name, Error) == Saw(errs, {Some(VendorError), Some(Canceled)})
  {
    if calls == [] {
    } else {
      var n := |calls| - 1;
      var b', c, errs := After(cfg, b, calls[..n]), calls[n], Errors(cfg, b, calls[..n]);
      OutcomesCountResults(name, cfg, b, calls[..n]);
      CountsAppended(name, Observed(name, cfg, b, calls[..n]), Observe(name, cfg, b', c));
      SawAppended(errs, ErrorOf(cfg, b', c));
      OutcomeOfResult(name, cfg, b', c);
    }
  }

  lemma OutcomeOfResult(name: string, cfg: GuardConfig, b: Breaker, c: Call)
    ensures var o, err := Observe(name, cfg, b, c), ErrorOf(cfg, b, c);
            && (Matches(o, name, Success) <==> err in {None})
            && (Matches(o, name, Timeout) <==> err in {Some(DeadlineExceeded)})
            && (Matches(o, name, BreakerOpen) <==> err in {Some(OpenState), Some(TooManyRequests)})
            && (Matches(o, name, Error) <==> err in {Some(VendorError), Some(Canceled)})
  {
  }

  lemma SawAppended(errs: seq<Option<FetchError>>, err: Option<FetchError>)
    ensures forall results :: Saw(errs + [err], results) == Saw(errs, results) + if err in results then 1 else 0
  {
    assert (errs + [err])[..|errs|] == errs;
  }

  lemma CountsAppended(name: string, log: seq<Observation>, o: Observation)
    ensures forall outcome :: CountOf(log + [o], name, outcome) == CountOf(log, name, outcome) + if Matches(o, name, outcome) then 1 else 0
  {
    forall outcome {
      CountAppended(log, o, name, outcome);
    }
  }

  lemma {:induction false} OneObservationEach(name: string, cfg: GuardConfig, b: Breaker, calls: seq<Call>)
    ensures NamedCount(Observed(name, cfg, b, calls), name) == |calls|
  {
    if calls == [] {
    } else {
      var n, log := |calls| - 1, Observed(name, cfg, b, calls);
      OneObservationEach(name, cfg, b, calls[..n]);
      assert log[..|log| - 1] == Observed(name, cfg, b, calls[..n]);
    }
  }

  lemma RefusedOutcome(name: string, cfg: GuardConfig, b: Breaker, c: Call)
    requires c.err != Some(OpenState) && c.err != Some(TooManyRequests)
    ensures Matches(Observe(name, cfg, b, c), name, BreakerOpen) <==> !Invokes(cfg, b, c)
  {
  }

  lemma CountAppended(log: seq<Observation>, o: Observation, name: string, outcome: Outcome)
    ensures CountOf(log + [o], name, outcome) == CountOf(log, name, outcome) + if Matches(o, name, outcome) then 1 else 0
  {
    assert (log + [o])[..|log|] == log;
  }

  lemma {:induction false} RefusedAreTheRest(name: string, cfg: GuardConfig, b: Breaker, calls: seq<Call>)
    requires OwnErrors(calls)
    ensures CountOf(Observed(name, cfg, b, calls), name, BreakerOpen) + Invoked(cfg, b, calls) == |calls|
  {
    if calls == [] {
    } else {
      var n := |calls| - 1;
      var before := After(cfg, b, calls[..n]);
      RefusedAreTheRest(name, cfg, b, calls[..n]);
      RefusedOutcome(name, cfg, before, calls[n]);
      CountAppended(Observed(name, cfg, b, calls[..n]), Observe(name, cfg, before, calls[n]), name, BreakerOpen);
    }
  }

  lemma {:induction false} TimesAddUp(name: string, cfg: GuardConfig, b: Breaker, calls: seq<Call>)
    ensures var log := Observed(name, cfg, b, calls);
            NanosOf(log, name, Success) + NanosOf(log, name, Error) + NanosOf(log, name, Timeout)
            + NanosOf(log, name, BreakerOpen) == VendorTime(cfg, b, calls)
  {
    if calls == [] {
    } else {
      var n, log := |calls| - 1, Observed(name, cfg, b, calls);
      TimesAddUp(name, cfg, b, calls[..n]);
      assert log[..|log| - 1] == Observed(name, cfg, b, calls[..n]);
    }
  }

  // ---- The decorator -------------------------------------------------------------------

  class GuardedProvider {
    const name: string
    const cfg: GuardConfig
    const rec: Collector
    var breaker: Breaker

    constructor (name: string, cfg: GuardConfig, rec: Collector)
      ensures this.name == name && this.cfg == cfg && this.rec == rec && breaker == Closed(0)
    {
      this.name, this.cfg, this.rec, breaker := name, cfg, rec, Closed(0);
    }

    /** One call: through the breaker, and one observation whatever happens. */
    method Fetch(c: Call) returns (err: Option<FetchError>)
      requires rec.Valid()
      modifies this, rec
      ensures rec.Valid()
      ensures breaker == Next(cfg, old(breaker), c) && err == ErrorOf(cfg, old(breaker), c)
      ensures rec.log == old(rec.log) + [Observe(name, cfg, old(breaker), c)]
      ensures old(breaker).Closed? ==> err == c.err
      ensures old(breaker).Closed? && (c.err == None || c.err == Some(Canceled)) ==> breaker == Closed(0)
      ensures old(breaker).Closed? && c.err != None && c.err != Some(Canceled) ==>
                var failures := old(breaker).failures + 1;
                if failures >= (if cfg.consecutiveFailuresToTrip == 0 then 5 else cfg.consecutiveFailuresToTrip)
                then breaker == Open(c.now + c.duration + if cfg.openTimeout <= 0 then 60_000_000_000 else cfg.openTimeout)
                else breaker == Closed(failures)
      ensures old(breaker).Open? && c.now <= old(breaker).until ==> err == Some(OpenState) && breaker == old(breaker)
      ensures old(breaker).HalfOpen? ==>
                if old(breaker).requests >= (if cfg.halfOpenMaxRequests == 0 then 1 else cfg.halfOpenMaxRequests)
                then err == Some(TooManyRequests) && breaker == old(breaker) else err == c.err
      ensures var o := rec.log[|rec.log| - 1];
              && o.name == name
              && (err == None ==> o.outcome == Success) && (err == Some(DeadlineExceeded) ==> o.outcome == Timeout)
              && (err == Some(OpenState) || err == Some(TooManyRequests) ==> o.outcome == BreakerOpen)
              && (err == Some(VendorError) || err == Some(Canceled) ==> o.outcome == Error)
    {
      breaker := Current(breaker, c.now);
      err := Refusal(cfg, breaker);
      var elapsed := 0;
      if err == None {
        err := c.err;
        elapsed := c.duration;
        breaker := Settle(cfg, breaker, IsSuccessful(err), c.now + elapsed);
      }
      rec.ObserveProvider(name, Classify(err), elapsed);
    }

    /** A sequence of calls: what the callers see, and one observation each. */
    method FetchAll(calls: seq<Call>) returns (errs: seq<Option<FetchError>>)
      requires rec.Valid()
      modifies this, rec
      ensures rec.Valid()
      ensures breaker == After(cfg, old(breaker), calls) && errs == Errors(cfg, old(breaker), calls)
      ensures rec.log == old(rec.log) + Observed(name, cfg, old(breaker), calls)
    {
      errs := [];
      for i := 0 to |calls|
        invariant rec.Valid()
        invariant breaker == After(cfg, old(breaker), calls[..i]) && errs == Errors(cfg, old(breaker), calls[..i])
        invariant rec.log == old(rec.log) + Observed(name, cfg, old(breaker), calls[..i])
      {
        assert calls[..i + 1][..i] == calls[..i];
        var err := Fetch(calls[i]);
        errs := errs + [err];
      }
      assert calls[..|calls|] == calls;
    }
  }

  /** Every provider of the set gets its own guard, and so its own breaker. */
  method GuardSet(names: seq<string>, cfg: GuardConfig, rec: Collector) returns (guards: seq<GuardedProvider>)
    ensures |guards| == |names|
    ensures forall i :: 0 <= i < |guards| ==>
              fresh(guards[i]) && guards[i].name == names[i] && guards[i].cfg == cfg && guards[i].rec == rec
              && guards[i].breaker == Closed(0)
    ensures forall i, j :: 0 <= i < j < |guards| ==> guards[i] != guards[j]
  {
    guards := [];
    for i := 0 to |names|
      invariant |guards| == i
      invariant forall k :: 0 <= k < i ==>
                  fresh(guards[k]) && guards[k].name == names[k] && guards[k].cfg == cfg && guards[k].rec == rec
                  && guards[k].breaker == Closed(0)
      invariant forall k, l :: 0 <= k < l < i ==> guards[k] != guards[l]
    {
      var g := new GuardedProvider(names[i], cfg, rec);
      guards := guards + [g];
    }
  }

  ghost function Breakers(guards: seq<GuardedProvider>): (bs: seq<Breaker>)
    reads guards
    ensures |bs| == |guards|
  {
    seq(|guards|, i requires 0 <= i < |guards| reads guards => guards[i].breaker)
  }

  /** The errors that the callers of one vendor got. */
  function ErrorsOf(reqs: seq<Request>, errs: seq<Option<FetchError>>, vendor: nat): seq<Option<FetchError>>
    requires |reqs| == |errs|
  {
    if reqs == [] then []
    else
      var n := |reqs| - 1;
      ErrorsOf(reqs[..n], errs[..n], vendor) + (if reqs[n].vendor == vendor then [errs[n]] else [])
  }

  /** Guards that share a configuration and a recorder, but no guard twice. */
  ghost predicate IsSet(guards: seq<GuardedProvider>, cfg: GuardConfig, rec: Collector) {
    && (forall i :: 0 <= i < |guards| ==> guards[i].cfg == cfg && guards[i].rec == rec)
    && (forall i, j :: 0 <= i < j < |guards| ==> guards[i] != guards[j])
  }

  /** Serves requests to the vendors of a set in any interleaving. Each guard ends in the state, and its callers
      get the errors, of a run with that vendor's requests alone. */
  method Serve(guards: seq<GuardedProvider>, cfg: GuardConfig, rec: Collector, reqs: seq<Request>)
    returns (errs: seq<Option<FetchError>>)
    requires IsSet(guards, cfg, rec) && rec.Valid()
    requires forall i :: 0 <= i < |reqs| ==> reqs[i].vendor < |guards|
    modifies guards, rec
    ensures rec.Valid() && |errs| == |reqs|
    ensures forall v :: 0 <= v < |guards| ==>
              && guards[v].breaker == After(cfg, old(guards[v].breaker), Project(reqs, v))
              && ErrorsOf(reqs, errs, v) == Errors(cfg, old(guards[v].breaker), Project(reqs, v))
  {
    errs := [];
    ghost var bs := Breakers(guards);
    for i := 0 to |reqs|
      invariant rec.Valid() && |errs| == i
      invariant forall v :: 0 <= v < |guards| ==> guards[v].breaker == SetAfter(cfg, bs, reqs[..i])[v]
      invariant forall v :: 0 <= v < |guards| ==> ErrorsOf(reqs[..i], errs, v) == ErrorsSeen(cfg, bs, reqs[..i], v)
    {
      assert reqs[..i + 1][..i] == reqs[..i];
      var q := reqs[i];
      var err := guards[q.vendor].Fetch(q.call);
      assert (errs + [err])[..i] == errs;
      errs := errs + [err];
    }
    assert reqs[..|reqs|] == reqs;
    forall v | 0 <= v < |guards| {
      BreakersAreIsolated(cfg, bs, reqs, v);
    }
  }

  /** The same from the start: the set that `GuardSet` builds, every breaker closed. */
  method ServeFresh(names: seq<string>, cfg: GuardConfig, rec: Collector, reqs: seq<Request>)
    returns (guards: seq<GuardedProvider>, errs: seq<Option<FetchError>>)
    requires rec.Valid() && forall i :: 0 <= i < |reqs| ==> reqs[i].vendor < |names|
    modifies rec
    ensures |guards| == |names| && |errs| == |reqs|
    ensures forall v :: 0 <= v < |guards| ==>
              && guards[v].breaker == After(cfg, Closed(0), Project(reqs, v))
              && ErrorsOf(reqs, errs, v) == Errors(cfg, Closed(0), Project(reqs, v))
  {
    guards := GuardSet(names, cfg, rec);
    errs := Serve(guards, cfg, rec, reqs);
  }
}
