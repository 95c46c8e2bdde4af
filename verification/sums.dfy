/** Sums over vendor reports, and sorted lists of names: what makes an aggregate independent of order. */
module Sums {
  import opened Domain

  function Sum(f: RiskData -> real, s: seq<RiskData>): real {
    if s == [] then 0.0 else Sum(f, s[..|s| - 1]) + f(s[|s| - 1])
  }

  function Weighted(d: RiskData): real { d.score * d.weight }
  function Weight(d: RiskData): real { d.weight }
  function Confidence(d: RiskData): real { d.confidence }
  function Score(d: RiskData): real { d.score }

  function Without<T>(s: seq<T>, i: nat): seq<T>
    requires i < |s|
  {
    s[..i] + s[i + 1..]
  }

  lemma WithoutMultiset<T>(s: seq<T>, i: nat)
    requires i < |s|
    ensures multiset(Without(s, i)) == multiset(s) - multiset{s[i]}
  {
    assert s == s[..i] + [s[i]] + s[i + 1..];
  }

  /** Removing the last element of `a` and its match in `b` leaves the same elements. */
  lemma RemoveMatch<T>(a: seq<T>, b: seq<T>) returns (i: nat)
    requires multiset(a) == multiset(b) && a != []
    ensures i < |b| && b[i] == a[|a| - 1]
    ensures multiset(a[..|a| - 1]) == multiset(Without(b, i))
  {
    var n := |a| - 1;
    assert a[n] in multiset(b);
    i :| 0 <= i < |b| && b[i] == a[n];
    WithoutMultiset(a, n);
    assert Without(a, n) == a[..n];
    WithoutMultiset(b, i);
  }

  lemma {:induction false} SumWithout(f: RiskData -> real, s: seq<RiskData>, i: nat)
    requires i < |s|
    ensures Sum(f, s) == Sum(f, Without(s, i)) + f(s[i])
    decreases |s|
  {
    var n := |s| - 1;
    if i == n {
      assert Without(s, i) == s[..n];
    } else {
      SumWithout(f, s[..n], i);
      assert Without(s, i)[..n - 1] == Without(s[..n], i);
      assert Without(s, i)[n - 1] == s[n];
    }
  }

  /** A sum does not depend on the order of its terms. */
  lemma {:induction false} SumPermutation(f: RiskData -> real, a: seq<RiskData>, b: seq<RiskData>)
    requires multiset(a) == multiset(b)
    ensures Sum(f, a) == Sum(f, b)
    decreases |a|
  {
    if a == [] {
      assert |multiset(b)| == 0;
    } else {
      var i := RemoveMatch(a, b);
      SumWithout(f, b, i);
      SumPermutation(f, a[..|a| - 1], Without(b, i));
    }
  }

  // ---- Sorted names --------------------------------------------------------------------

  /** Lexicographic order. */
  predicate Le(a: string, b: string)
    decreases |a|
  {
    a == [] || (b != [] && (a[0] < b[0] || (a[0] == b[0] && Le(a[1..], b[1..]))))
  }

  lemma {:induction false} LeTotal(a: string, b: string)
    ensures Le(a, b) || Le(b, a)
    decreases |a|
  {
    if a != [] && b != [] && a[0] == b[0] {
      LeTotal(a[1..], b[1..]);
    }
  }

  lemma {:induction false} LeAntisymmetric(a: string, b: string)
    requires Le(a, b) && Le(b, a)
    ensures a == b
    decreases |a|
  {
    if a != [] && b != [] {
      LeAntisymmetric(a[1..], b[1..]);
      assert a == [a[0]] + a[1..] && b == [b[0]] + b[1..];
    }
  }

  lemma {:induction false} LeTransitive(a: string, b: string, c: string)
    requires Le(a, b) && Le(b, c)
    ensures Le(a, c)
    decreases |a|
  {
    if a != [] && a[0] == b[0] && b[0] == c[0] {
      LeTransitive(a[1..], b[1..], c[1..]);
    }
  }

  /** At `k` the two first differ, and `a` is smaller. */
  predicate DiffersAt(a: string, b: string, k: int) {
    0 <= k < |a| && k < |b| && a[..k] == b[..k] && a[k] < b[k]
  }

  lemma DiffersInTail(a: string, b: string, k: nat)
    requires a != [] && b != [] && a[0] == b[0]
    ensures DiffersAt(a[1..], b[1..], k) <==> DiffersAt(a, b, k + 1)
  {
    if k < |a| - 1 && k < |b| - 1 {
      assert a[..k + 1] == [a[0]] + a[1..][..k] && b[..k + 1] == [b[0]] + b[1..][..k];
      assert a[..k + 1][1..] == a[1..][..k] && b[..k + 1][1..] == b[1..][..k];
    }
  }

  lemma PrefixInTail(a: string, b: string)
    requires a != [] && b != [] && a[0] == b[0]
    ensures a[1..] <= b[1..] <==> a <= b
  {
    assert a == [a[0]] + a[1..] && b == [b[0]] + b[1..];
    if a <= b {
      assert b[1..][..|a| - 1] == b[..|a|][1..];
    }
  }

  /** The order written out: a prefix comes first, otherwise the first difference decides. */
  lemma {:induction false} LeExactly(a: string, b: string)
    ensures Le(a, b) <==> a <= b || exists k :: DiffersAt(a, b, k)
    decreases |a|
  {
    if a == [] || b == [] {
    } else if a[0] != b[0] {
      DifferentHeads(a, b);
    } else {
      LeExactly(a[1..], b[1..]);
      PrefixInTail(a, b);
      if k :| DiffersAt(a, b, k) {
        DiffersInTail(a, b, k - 1);
      }
      if k: nat :| DiffersAt(a[1..], b[1..], k) {
        DiffersInTail(a, b, k);
      }
    }
  }

  lemma DifferentHeads(a: string, b: string)
    requires a != [] && b != [] && a[0] != b[0]
    ensures !(a <= b) && ((exists k :: DiffersAt(a, b, k)) <==> a[0] < b[0])
  {
    var prefix := if |a| <= |b| then b[..|a|] else b;
    assert prefix[0] == b[0];
    assert a[..0] == b[..0];
    forall k | DiffersAt(a, b, k) ensures k == 0 {
      var x, y := if k > 0 then a[..k] else a, if k > 0 then b[..k] else b;
      assert x[0] == a[0] && y[0] == b[0];
    }
    assert DiffersAt(a, b, 0) <==> a[0] < b[0];
  }

  predicate Sorted(s: seq<string>) {
    forall i, j :: 0 <= i < j < |s| ==> Le(s[i], s[j])
  }

  function Insert(x: string, s: seq<string>): (r: seq<string>)
    requires Sorted(s)
    ensures multiset(r) == multiset(s) + multiset{x}
  {
    if s == [] then [x]
    else if Le(x, s[0]) then [x] + s
    else
      assert s == [s[0]] + s[1..];
      [s[0]] + Insert(x, s[1..])
  }

  predicate LeAll(x: string, s: seq<string>) {
    forall i :: 0 <= i < |s| ==> Le(x, s[i])
  }

  lemma SortedCons(x: string, s: seq<string>)
    requires Sorted(s) && LeAll(x, s)
    ensures Sorted([x] + s)
  {
  }

  lemma LeAllCons(y: string, x: string, s: seq<string>)
    requires Le(y, x) && LeAll(y, s)
    ensures LeAll(y, [x] + s)
  {
  }

  lemma {:induction false} InsertLeAll(y: string, x: string, s: seq<string>)
    requires Sorted(s) && LeAll(y, s) && Le(y, x)
    ensures LeAll(y, Insert(x, s))
    decreases |s|
  {
    if s != [] && !Le(x, s[0]) {
      assert LeAll(y, s[1..]) && Le(y, s[0]);
      InsertLeAll(y, x, s[1..]);
      LeAllCons(y, s[0], Insert(x, s[1..]));
    } else {
      LeAllCons(y, x, s);
    }
  }

  lemma {:induction false} InsertSorted(x: string, s: seq<string>)
    requires Sorted(s)
    ensures Sorted(Insert(x, s))
    decreases |s|
  {
    if s == [] {
    } else {
      if Le(x, s[0]) {
        forall j | 0 <= j < |s| ensures Le(x, s[j]) {
          if j > 0 {
            LeTransitive(x, s[0], s[j]);
          }
        }
        SortedCons(x, s);
      } else {
        LeTotal(x, s[0]);
        InsertSorted(x, s[1..]);
        assert LeAll(s[0], s[1..]);
        InsertLeAll(s[0], x, s[1..]);
        SortedCons(s[0], Insert(x, s[1..]));
      }
    }
  }

  /** The names in increasing order, repetitions kept. */
  function SortStrings(s: seq<string>): (r: seq<string>)
    ensures Sorted(r) && multiset(r) == multiset(s)
  {
    if s == [] then []
    else
      var n := |s| - 1;
      assert s == s[..n] + [s[n]];
      InsertSorted(s[n], SortStrings(s[..n]));
      Insert(s[n], SortStrings(s[..n]))
  }

  lemma TailMultiset(a: seq<string>)
    requires a != []
    ensures a == [a[0]] + a[1..] && multiset(a[1..]) == multiset(a) - multiset{a[0]}
  {
    assert a == [a[0]] + a[1..];
  }

  /** The head of a sorted list is least among its elements. */
  lemma HeadIsLeast(a: seq<string>, x: string)
    requires Sorted(a) && x in multiset(a)
    ensures a != [] && Le(a[0], x)
  {
    var i :| 0 <= i < |a| && a[i] == x;
    LeTotal(x, x);
  }

  /** A sorted list is determined by its elements. */
  lemma {:induction false} SortedUnique(a: seq<string>, b: seq<string>)
    requires Sorted(a) && Sorted(b) && multiset(a) == multiset(b)
    ensures a == b
    decreases |a|
  {
    if a == [] {
      assert |multiset(b)| == 0;
    } else {
      HeadIsLeast(b, a[0]);
      HeadIsLeast(a, b[0]);
      LeAntisymmetric(a[0], b[0]);
      TailMultiset(a);
      TailMultiset(b);
      SortedUnique(a[1..], b[1..]);
    }
  }

  lemma {:induction false} SumMonotone(f: RiskData -> real, g: RiskData -> real, s: seq<RiskData>)
    requires forall i :: 0 <= i < |s| ==> f(s[i]) <= g(s[i])
    ensures Sum(f, s) <= Sum(g, s)
  {
    if s == [] {
    } else {
      SumMonotone(f, g, s[..|s| - 1]);
    }
  }

  lemma {:induction false} SumStrict(f: RiskData -> real, g: RiskData -> real, s: seq<RiskData>)
    requires s != [] && forall i :: 0 <= i < |s| ==> f(s[i]) < g(s[i])
    ensures Sum(f, s) < Sum(g, s)
  {
    var n := |s| - 1;
    if n == 0 {
      assert s[..n] == [];
    } else {
      SumStrict(f, g, s[..n]);
    }
  }

  lemma {:induction false} SumScaled(f: RiskData -> real, g: RiskData -> real, c: real, s: seq<RiskData>, t: seq<RiskData>)
    requires |s| == |t| && forall i :: 0 <= i < |s| ==> g(t[i]) == c * f(s[i])
    ensures Sum(g, t) == c * Sum(f, s)
  {
    if s == [] {
    } else {
      var n := |s| - 1;
      SumScaled(f, g, c, s[..n], t[..n]);
      DistributeOver(c, Sum(f, s[..n]), f(s[n]));
    }
  }

  predicate Sandwiched(f: RiskData -> real, g: RiskData -> real, low: RiskData -> real, high: RiskData -> real,
                       lo: real, hi: real, d: RiskData)
  {
    low(d) <= f(d) <= high(d) && low(d) == lo * g(d) && high(d) == hi * g(d)
  }

  predicate SumsBetween(f: RiskData -> real, g: RiskData -> real, s: seq<RiskData>, lo: real, hi: real) {
    lo * Sum(g, s) <= Sum(f, s) <= hi * Sum(g, s)
  }

  /** A sum whose summands lie between multiples of other summands lies between the multiples of their sum. */
  lemma SumBetween(f: RiskData -> real, g: RiskData -> real, low: RiskData -> real, high: RiskData -> real,
                   s: seq<RiskData>, lo: real, hi: real)
    requires forall i :: 0 <= i < |s| ==> Sandwiched(f, g, low, high, lo, hi, s[i])
    ensures SumsBetween(f, g, s, lo, hi)
  {
    SumMonotone(low, f, s);
    SumMonotone(f, high, s);
    SumScaled(g, low, lo, s, s);
    SumScaled(g, high, hi, s, s);
  }

  lemma {:induction false} SumSame(f: RiskData -> real, g: RiskData -> real, s: seq<RiskData>, t: seq<RiskData>)
    requires |s| == |t| && forall j :: 0 <= j < |s| ==> f(t[j]) == g(s[j])
    ensures Sum(f, t) == Sum(g, s)
  {
    if s == [] {
    } else {
      SumSame(f, g, s[..|s| - 1], t[..|t| - 1]);
    }
  }

  /** All summands are the same except the one at `i`. */
  lemma {:induction false} SumExcept(f: RiskData -> real, g: RiskData -> real, s: seq<RiskData>, t: seq<RiskData>, i: nat)
    requires i < |s| == |t| && forall j :: 0 <= j < |s| && j != i ==> f(t[j]) == g(s[j])
    ensures Sum(f, t) == Sum(g, s) - g(s[i]) + f(t[i])
  {
    var n := |s| - 1;
    if i == n {
      SumSame(f, g, s[..n], t[..n]);
    } else {
      SumExcept(f, g, s[..n], t[..n], i);
    }
  }

  lemma DistributeOver(c: real, x: real, y: real)
    ensures c * (x + y) == c * x + c * y
  {
  }

  /** A report that may be missing. */
  function Bag(r: Option<RiskData>): multiset<RiskData> {
    match r
    case None => multiset{}
    case Some(d) => multiset{d}
  }

  function Sources(s: seq<RiskData>): (r: seq<string>)
    ensures |r| == |s|
  {
    seq(|s|, i requires 0 <= i < |s| => s[i].source)
  }

  lemma {:induction false} SourcesPermutation(a: seq<RiskData>, b: seq<RiskData>)
    requires multiset(a) == multiset(b)
    ensures multiset(Sources(a)) == multiset(Sources(b))
    decreases |a|
  {
    if a == [] {
      assert |multiset(b)| == 0;
      assert b == [];
    } else {
      var n := |a| - 1;
      var i := RemoveMatch(a, b);
      SourcesPermutation(a[..n], Without(b, i));
      assert Sources(a) == Sources(a[..n]) + [a[n].source];
      assert Sources(Without(b, i)) == Without(Sources(b), i);
      WithoutMultiset(Sources(b), i);
      assert multiset(Sources(b)) == multiset(Without(Sources(b), i)) + multiset{b[i].source};
    }
  }
}
