/** Finite sequences without repetition, the pigeonhole principle for them, and sums of lengths. */
module Sequences {

  predicate Distinct<T(==)>(s: seq<T>) { forall i, j :: 0 <= i < j < |s| ==> s[i] != s[j] }

  ghost function Elements<T>(s: seq<T>): set<T> { set x | x in s }

  ghost function Below(n: nat): (b: set<nat>)
    ensures forall v: nat :: v in b <==> v < n
  {
    if n == 0 then {} else Below(n - 1) + {n - 1}
  }

  lemma {:induction false} DistinctSize<T>(s: seq<T>)
    requires Distinct(s)
    ensures |Elements(s)| == |s|
  {
    if s != [] {
      var t, x := s[..|s| - 1], s[|s| - 1];
      DistinctSize(t);
      assert Elements(s) == Elements(t) + {x};
    }
  }

  lemma {:induction false} BelowSize(n: nat)
    ensures |Below(n)| == n
  {
    if n != 0 { BelowSize(n - 1); }
  }

  lemma SubsetOfSameSize<T>(a: set<T>, b: set<T>)
    requires a <= b && |b| <= |a|
    ensures a == b
  {
    assert b == a + (b - a);
    assert |b| == |a| + |b - a|;
    assert b - a == {};
  }

  /** Pigeonhole: `n` different numbers below `n` are all of them. */
  lemma Pigeonhole(s: seq<nat>, n: nat)
    requires Distinct(s) && |s| == n && forall i :: 0 <= i < n ==> s[i] < n
    ensures forall v: nat :: v < n ==> v in s
  {
    DistinctSize(s);
    BelowSize(n);
    SubsetOfSameSize(Elements(s), Below(n));
    forall v: nat | v < n ensures v in s { assert v in Below(n); }
  }

  predicate Permutation(s: seq<nat>, n: nat) {
    |s| == n && Distinct(s) && (forall i :: 0 <= i < n ==> s[i] < n) && forall v: nat :: v < n ==> v in s
  }

  // ---- rearrangements ----

  lemma {:induction false} DistinctOnce<T>(s: seq<T>, x: T)
    requires Distinct(s)
    ensures multiset(s)[x] <= 1
  {
    if s != [] {
      var t := s[..|s| - 1];
      DistinctOnce(t, x);
      assert s == t + [s[|s| - 1]];
    }
  }

  lemma DistinctRearranged<T>(a: seq<T>, b: seq<T>)
    requires multiset(a) == multiset(b) && Distinct(b)
    ensures Distinct(a)
  {
    forall j, k | 0 <= j < k < |a| ensures a[j] != a[k] {
      DistinctOnce(b, a[k]);
      assert a == a[..k] + a[k..];
      assert a[j] in a[..k] && a[k] in a[k..];
    }
  }

  lemma SameMembers<T>(a: seq<T>, b: seq<T>)
    requires multiset(a) == multiset(b)
    ensures forall x :: x in a <==> x in b
  {
    forall x ensures x in a <==> x in b {
      assert x in a <==> 0 < multiset(a)[x];
      assert x in b <==> 0 < multiset(b)[x];
    }
  }

  lemma DistinctJoin<T>(a: seq<T>, b: seq<T>)
    requires Distinct(a) && Distinct(b) && forall x :: x in a ==> x !in b
    ensures Distinct(a + b)
  {
    forall i, j | 0 <= i < j < |a + b| ensures (a + b)[i] != (a + b)[j] {
      if i < |a| <= j { assert a[i] in a && b[j - |a|] in b; }
    }
  }

  lemma SameElements<T>(a: seq<T>, b: seq<T>)
    requires Distinct(a) && Distinct(b) && forall x :: x in a <==> x in b
    ensures multiset(a) == multiset(b)
  {
    forall x ensures multiset(a)[x] == multiset(b)[x] {
      DistinctOnce(a, x);
      DistinctOnce(b, x);
      assert x in a <==> 0 < multiset(a)[x];
      assert x in b <==> 0 < multiset(b)[x];
    }
  }

  lemma Extend<T>(s: seq<T>, a: nat, b: nat)
    requires a <= b <= |s|
    ensures s[..b] == s[..a] + s[a..b]
  {
  }

  /** The values at some positions. */
  function Pick<T>(values: seq<T>, at: seq<nat>): (r: seq<T>)
    requires forall k :: 0 <= k < |at| ==> at[k] < |values|
    ensures |r| == |at| && forall k :: 0 <= k < |at| ==> r[k] == values[at[k]]
  {
    seq(|at|, k requires 0 <= k < |at| => values[at[k]])
  }

  function Without<T>(s: seq<T>, j: nat): seq<T>
    requires j < |s|
  {
    s[..j] + s[j + 1..]
  }

  lemma TakeOut<T>(s: seq<T>, j: nat)
    requires j < |s|
    ensures multiset(s) == multiset(Without(s, j)) + multiset{s[j]}
    ensures multiset(Without(s, j)) == multiset(s) - multiset{s[j]}
  {
    assert s == s[..j] + [s[j]] + s[j + 1..];
  }

  lemma PickTakeOut<T>(values: seq<T>, at: seq<nat>, j: nat)
    requires j < |at| && forall k :: 0 <= k < |at| ==> at[k] < |values|
    ensures forall k :: 0 <= k < |at| - 1 ==> Without(at, j)[k] < |values|
    ensures multiset(Pick(values, at)) == multiset(Pick(values, Without(at, j))) + multiset{values[at[j]]}
  {
    TakeOut(Pick(values, at), j);
    assert Pick(values, Without(at, j)) == Without(Pick(values, at), j);
  }

  lemma FindFirst<T>(a: seq<T>, b: seq<T>) returns (j: nat)
    requires multiset(a) == multiset(b) && a != []
    ensures j < |b| && b[j] == a[0] && multiset(Without(a, 0)) == multiset(Without(b, j))
  {
    assert a[0] in multiset(b);
    j :| 0 <= j < |b| && b[j] == a[0];
    TakeOut(a, 0);
    TakeOut(b, j);
  }

  lemma {:induction false} PickRearranged<T>(values: seq<T>, a: seq<nat>, b: seq<nat>)
    requires multiset(a) == multiset(b)
    requires (forall k :: 0 <= k < |a| ==> a[k] < |values|) && forall k :: 0 <= k < |b| ==> b[k] < |values|
    ensures multiset(Pick(values, a)) == multiset(Pick(values, b))
    decreases |a|
  {
    if a == [] {
      assert |multiset(b)| == 0;
    } else {
      var j := FindFirst(a, b);
      PickTakeOut(values, a, 0);
      PickTakeOut(values, b, j);
      PickRearranged(values, Without(a, 0), Without(b, j));
    }
  }

  lemma PickAll<T>(values: seq<T>, order: seq<nat>)
    requires Permutation(order, |values|)
    ensures multiset(Pick(values, order)) == multiset(values)
  {
    var all: seq<nat> := seq(|values|, k => k);
    forall x: nat ensures x in order <==> x in all { if x < |values| { assert all[x] == x; } }
    SameElements(order, all);
    PickRearranged(values, order, all);
    assert Pick(values, all) == values;
  }

  // ---- queues of queues ----

  ghost function SumLen<T>(s: seq<seq<T>>): nat { if s == [] then 0 else SumLen(s[..|s| - 1]) + |s[|s| - 1]| }

  lemma {:induction false} SumLenUpdate<T>(s: seq<seq<T>>, c: nat, t: seq<T>)
    requires c < |s|
    ensures SumLen(s[c := t]) == SumLen(s) - |s[c]| + |t|
  {
    var n := |s| - 1;
    if c == n {
      assert s[c := t][..n] == s[..n];
    } else {
      assert s[c := t][..n] == s[..n][c := t];
      SumLenUpdate(s[..n], c, t);
    }
  }

  lemma {:induction false} SumLenLe<T, U>(s: seq<seq<T>>, t: seq<seq<U>>)
    requires |s| == |t| && forall c :: 0 <= c < |s| ==> |s[c]| <= |t[c]|
    ensures SumLen(s) <= SumLen(t)
  {
    if s != [] { SumLenLe(s[..|s| - 1], t[..|t| - 1]); }
  }
}
