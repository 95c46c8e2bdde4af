/** Per-vendor telemetry: counts and total latencies per (vendor, outcome). */
module Metrics {
  datatype Outcome = Success | Error | Timeout | BreakerOpen

  datatype Stat = Stat(count: int, totalNanos: int)

  datatype Observation = Observation(name: string, outcome: Outcome, nanos: int)

  predicate Matches(o: Observation, name: string, outcome: Outcome) {
    o.name == name && o.outcome == outcome
  }

  function CountOf(log: seq<Observation>, name: string, outcome: Outcome): nat {
    if log == [] then 0
    else CountOf(log[..|log| - 1], name, outcome) + if Matches(log[|log| - 1], name, outcome) then 1 else 0
  }

  function NanosOf(log: seq<Observation>, name: string, outcome: Outcome): int {
    if log == [] then 0
    else NanosOf(log[..|log| - 1], name, outcome) + if Matches(log[|log| - 1], name, outcome) then log[|log| - 1].nanos else 0
  }

  function NamedCount(log: seq<Observation>, name: string): nat {
    if log == [] then 0
    else NamedCount(log[..|log| - 1], name) + if log[|log| - 1].name == name then 1 else 0
  }

  /** Conservation: the counts of a vendor over the four outcomes add up to its observations. */
  lemma {:induction false} OutcomesPartition(log: seq<Observation>, name: string)
    ensures CountOf(log, name, Success) + CountOf(log, name, Error) + CountOf(log, name, Timeout) + CountOf(log, name, BreakerOpen)
            == NamedCount(log, name)
  {
    if log == [] {
    } else {
      OutcomesPartition(log[..|log| - 1], name);
    }
  }

  /** Go's integer division: truncation towards zero. */
  function TruncDiv(x: int, d: int): int
    requires d > 0
  {
    if x >= 0 then x / d else -((-x) / d)
  }

  lemma {:induction false} NanosBetween(log: seq<Observation>, name: string, outcome: Outcome, lo: int, hi: int)
    requires forall i :: 0 <= i < |log| && Matches(log[i], name, outcome) ==> lo <= log[i].nanos <= hi
    ensures lo * CountOf(log, name, outcome) <= NanosOf(log, name, outcome) <= hi * CountOf(log, name, outcome)
  {
    if log == [] {
    } else {
      var n := |log| - 1;
      NanosBetween(log[..n], name, outcome, lo, hi);
      if Matches(log[n], name, outcome) {
        OneMoreBetween(CountOf(log[..n], name, outcome), NanosOf(log[..n], name, outcome), log[n].nanos, lo, hi,
                       CountOf(log, name, outcome), NanosOf(log, name, outcome));
      }
    }
  }

  lemma OneMoreBetween(c: nat, sum: int, x: int, lo: int, hi: int, c': nat, sum': int)
    requires lo * c <= sum <= hi * c && lo <= x <= hi && c' == c + 1 && sum' == sum + x
    ensures lo * c' <= sum' <= hi * c'
  {
    assert lo * c' == lo * c + lo && hi * c' == hi * c + hi;
  }

  lemma CancelFactor(p: int, q: int, d: int)
    requires d > 0 && p * d < (q + 1) * d
    ensures p <= q
  {
    assert (p - q - 1) * d < 0;
  }

  lemma FloorBetween(x: int, d: int, lo: int, hi: int)
    requires d > 0 && lo * d <= x <= hi * d
    ensures lo <= x / d
    ensures x / d <= hi
  {
    var q := x / d;
    assert q * d <= x < (q + 1) * d;
    CancelFactor(lo, q, d);
    CancelFactor(q, hi, d);
  }

  lemma QuotientBetween(x: int, d: int, lo: int, hi: int)
    requires d > 0 && lo * d <= x <= hi * d
    ensures lo <= TruncDiv(x, d) <= hi
  {
    if x >= 0 {
      FloorBetween(x, d, lo, hi);
    } else {
      assert (-hi) * d <= -x <= (-lo) * d;
      FloorBetween(-x, d, -hi, -lo);
    }
  }

  lemma NonNegativeTruncated(x: int, d: int)
    requires d > 0 && x >= 0
    ensures var q := TruncDiv(x, d); q >= 0 && q * d <= x < (q + 1) * d
  {
  }

  lemma NegatedBounds(p: int, d: int, x: int)
    requires p * d <= x < (p + 1) * d
    ensures (-p - 1) * d < -x <= -p * d
  {
    assert -p * d == -(p * d) && (-p - 1) * d == -((p + 1) * d);
  }

  lemma NonPositiveTruncated(x: int, d: int)
    requires d > 0 && x <= 0
    ensures var q := TruncDiv(x, d); q <= 0 && (q - 1) * d < x <= q * d
  {
    NonNegativeTruncated(-x, d);
    NegatedBounds(TruncDiv(-x, d), d, -x);
    assert TruncDiv(x, d) == -TruncDiv(-x, d);
  }

  /** The truncated average lies between the least and the greatest recorded latency. */
  lemma AverageBetween(log: seq<Observation>, name: string, outcome: Outcome, lo: int, hi: int)
    requires CountOf(log, name, outcome) > 0
    requires forall i :: 0 <= i < |log| && Matches(log[i], name, outcome) ==> lo <= log[i].nanos <= hi
    ensures lo <= TruncDiv(NanosOf(log, name, outcome), CountOf(log, name, outcome)) <= hi
  {
    NanosBetween(log, name, outcome, lo, hi);
    QuotientBetween(NanosOf(log, name, outcome), CountOf(log, name, outcome), lo, hi);
  }

  /** The in-memory recorder. `log` is every observation so far; the nested map is always its aggregate. */
  class Collector {
    var entries: map<string, map<Outcome, Stat>>
    ghost var log: seq<Observation>

    ghost predicate Valid()
      reads this
    {
      forall name, outcome :: Aggregates(name, outcome)
    }

    ghost predicate Aggregates(name: string, outcome: Outcome)
      reads this
    {
      var n := CountOf(log, name, outcome);
      && (name in entries && outcome in entries[name] <==> n > 0)
      && (n > 0 ==> entries[name][outcome] == Stat(n, NanosOf(log, name, outcome)))
    }

    constructor ()
      ensures Valid() && log == []
    {
      entries := map[];
      log := [];
    }

    method ObserveProvider(name: string, outcome: Outcome, nanos: int)
      requires Valid()
      modifies this
      ensures Valid() && log == old(log) + [Observation(name, outcome, nanos)]
    {
      var byOutcome := if name in entries then entries[name] else map[];
      var s := if outcome in byOutcome then byOutcome[outcome] else Stat(0, 0);
      assert Aggregates(name, outcome);
      entries := entries[name := byOutcome[outcome := Stat(s.count + 1, s.totalNanos + nanos)]];
      log := log + [Observation(name, outcome, nanos)];
      assert log[..|log| - 1] == old(log);
      assert CountOf(old(log), name, outcome) == 0 ==> NanosOf(old(log), name, outcome) == 0 by {
        NanosBetweenZero(old(log), name, outcome);
      }
      forall m, o ensures Aggregates(m, o) {
        assert old(Aggregates(m, o));
      }
    }

    method Count(name: string, outcome: Outcome) returns (n: int)
      requires Valid()
      ensures n == CountOf(log, name, outcome)
    {
      assert Aggregates(name, outcome);
      if name in entries {
        if outcome in entries[name] {
          return entries[name][outcome].count;
        }
      }
      n := 0;
    }

    method AvgLatency(name: string, outcome: Outcome) returns (avg: int)
      requires Valid()
      ensures var n := CountOf(log, name, outcome);
              avg == if n == 0 then 0 else TruncDiv(NanosOf(log, name, outcome), n)
      ensures var n, total := CountOf(log, name, outcome), NanosOf(log, name, outcome);
              && (n == 0 ==> avg == 0)
              && (n > 0 && total >= 0 ==> avg * n <= total < (avg + 1) * n)
              && (n > 0 && total <= 0 ==> (avg - 1) * n < total <= avg * n)
    {
      assert Aggregates(name, outcome);
      if name in entries {
        if outcome in entries[name] && entries[name][outcome].count > 0 {
          var s := entries[name][outcome];
          if s.totalNanos >= 0 {
            NonNegativeTruncated(s.totalNanos, s.count);
          }
          if s.totalNanos <= 0 {
            NonPositiveTruncated(s.totalNanos, s.count);
          }
          return TruncDiv(s.totalNanos, s.count);
        }
      }
      avg := 0;
    }
  }

  lemma {:induction false} NanosBetweenZero(log: seq<Observation>, name: string, outcome: Outcome)
    ensures CountOf(log, name, outcome) == 0 ==> NanosOf(log, name, outcome) == 0
  {
    if log == [] {
    } else {
      NanosBetweenZero(log[..|log| - 1], name, outcome);
    }
  }
}
