/** Reductions around a ring. With an associative and commutative operator the order does not matter. */
module RingFold {
  import opened Sequences

  ghost predicate Associates<T>(f: (T, T) -> T, a: T, b: T, c: T) { f(f(a, b), c) == f(a, f(b, c)) }

  ghost predicate Commutes<T>(f: (T, T) -> T, a: T, b: T) { f(a, b) == f(b, a) }

  ghost predicate Reorderable<T(!new)>(f: (T, T) -> T) {
    (forall a, b, c :: Associates(f, a, b, c)) && (forall a, b :: Commutes(f, a, b))
  }

  function Wrap(n: nat, x: nat): nat
    requires x < 2 * n
  {
    if x < n then x else x - n
  }

  /** `k` values starting behind place `c` and going round, each reduced with what came before. */
  function Around<T>(f: (T, T) -> T, xs: seq<T>, c: nat, k: nat): T
    requires c < |xs| && 1 <= k <= |xs|
  {
    var own := xs[Wrap(|xs|, c + k)];
    if k == 1 then own else f(own, Around(f, xs, c, k - 1))
  }

  /** All values from the first to the last. */
  function Plain<T>(f: (T, T) -> T, xs: seq<T>): T
    requires xs != []
  {
    if |xs| == 1 then xs[0] else f(Plain(f, xs[..|xs| - 1]), xs[|xs| - 1])
  }

  /** Any value can be reduced last. */
  lemma {:induction false} PlainTakeOut<T(!new)>(f: (T, T) -> T, xs: seq<T>, j: nat)
    requires Reorderable(f) && j < |xs| && 2 <= |xs|
    ensures Plain(f, xs) == f(Plain(f, Without(xs, j)), xs[j])
    decreases |xs|
  {
    var n := |xs| - 1;
    var before, y := xs[..n], xs[n];
    if j == n {
      assert Without(xs, j) == before;
    } else if n == 1 {
      assert Without(xs, j) == [y];
      assert Commutes(f, xs[0], y);
    } else {
      PlainTakeOut(f, before, j);
      var rest := Plain(f, Without(before, j));
      assert Without(xs, j) == Without(before, j) + [y] && Without(xs, j)[..n - 1] == Without(before, j);
      assert Associates(f, rest, xs[j], y) && Associates(f, rest, y, xs[j]) && Commutes(f, xs[j], y);
    }
  }

  lemma {:induction false} PlainRearranged<T(!new)>(f: (T, T) -> T, xs: seq<T>, ys: seq<T>)
    requires Reorderable(f) && multiset(xs) == multiset(ys) && xs != [] && ys != []
    ensures Plain(f, xs) == Plain(f, ys)
    decreases |xs|
  {
    assert |multiset(xs)| == |xs| && |multiset(ys)| == |ys|;
    var j := FindFirst(xs, ys);
    if |xs| != 1 {
      PlainTakeOut(f, xs, 0);
      PlainTakeOut(f, ys, j);
      PlainRearranged(f, Without(xs, 0), Without(ys, j));
    }
  }

  /** The values in the order in which `Around` meets them. */
  function Rotated<T>(xs: seq<T>, c: nat): (r: seq<T>)
    requires c < |xs|
    ensures |r| == |xs| && forall i :: 0 <= i < |r| ==> r[i] == xs[Wrap(|xs|, c + 1 + i)]
  {
    xs[c + 1..] + xs[..c + 1]
  }

  lemma {:induction false} AroundIsRotated<T(!new)>(f: (T, T) -> T, xs: seq<T>, c: nat, k: nat)
    requires Reorderable(f) && c < |xs| && 1 <= k <= |xs|
    ensures Around(f, xs, c, k) == Plain(f, Rotated(xs, c)[..k])
    decreases k
  {
    if k != 1 {
      AroundIsRotated(f, xs, c, k - 1);
      assert Rotated(xs, c)[..k][..k - 1] == Rotated(xs, c)[..k - 1];
      assert Commutes(f, Around(f, xs, c, k - 1), xs[Wrap(|xs|, c + k)]);
    }
  }

  /** Once round, from anywhere, is the plain reduction. */
  lemma AroundIsPlain<T(!new)>(f: (T, T) -> T, xs: seq<T>, c: nat)
    requires Reorderable(f) && c < |xs|
    ensures Around(f, xs, c, |xs|) == Plain(f, xs)
  {
    AroundIsRotated(f, xs, c, |xs|);
    assert Rotated(xs, c)[..|xs|] == Rotated(xs, c);
    assert xs == xs[..c + 1] + xs[c + 1..];
    PlainRearranged(f, Rotated(xs, c), xs);
  }

  /** And so it is over the values in any other order, as by user rank. */
  lemma AroundIsPlainByRank<T(!new)>(f: (T, T) -> T, xs: seq<T>, c: nat, byRank: seq<T>, ranks: seq<nat>)
    requires Reorderable(f) && c < |xs| == |byRank| && Permutation(ranks, |byRank|) && xs == Pick(byRank, ranks)
    ensures Around(f, xs, c, |xs|) == Plain(f, byRank)
  {
    AroundIsPlain(f, xs, c);
    PickAll(byRank, ranks);
    PlainRearranged(f, xs, byRank);
  }
}
