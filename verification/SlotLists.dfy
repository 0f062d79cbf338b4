/**
 Slots that are linked into several singly linked lists through one `next` array. Every slot is in
 exactly one list, once; the lemmas move a prefix of one list to the front or the end of another.
 */
module SlotLists {

  const NONE: int := -1

  function Head(l: seq<nat>): int { if l == [] then NONE else l[0] }

  function Last(l: seq<nat>): int { if l == [] then NONE else l[|l| - 1] }

  /** Consecutive slots. */
  ghost function Range(first: nat, n: nat): (l: seq<nat>)
    ensures |l| == n && forall i :: 0 <= i < n ==> l[i] == first + i
  {
    seq(n, i requires 0 <= i < n => first + i)
  }

  // ---- who has which slot ----

  /** Slot `x` is number `pos[x]` of list `owner[x]`. */
  ghost predicate Held<P>(ls: map<P, seq<nat>>, owner: seq<P>, pos: seq<nat>, x: nat)
    requires x < |owner| == |pos|
  {
    owner[x] in ls && pos[x] < |ls[owner[x]]| && ls[owner[x]][pos[x]] == x
  }

  ghost predicate Owned<P>(ls: map<P, seq<nat>>, owner: seq<P>, pos: seq<nat>, p: P, i: nat)
    requires p in ls && i < |ls[p]| && |owner| == |pos|
  {
    ls[p][i] < |owner| && owner[ls[p][i]] == p && pos[ls[p][i]] == i
  }

  /** Every slot is in exactly one list, once. */
  ghost predicate Partition<P>(ls: map<P, seq<nat>>, owner: seq<P>, pos: seq<nat>) {
    && |owner| == |pos|
    && (forall x :: 0 <= x < |owner| ==> Held(ls, owner, pos, x))
    && forall p, i :: p in ls && 0 <= i < |ls[p]| ==> Owned(ls, owner, pos, p, i)
  }

  /** The lists after the first `n` slots of `a` went to the front or the end of `b`. */
  function Moved<P>(ls: map<P, seq<nat>>, a: P, b: P, n: nat, front: bool): map<P, seq<nat>>
    requires a in ls && b in ls && n <= |ls[a]|
  {
    ls[a := ls[a][n..]][b := if front then ls[a][..n] + ls[b] else ls[b] + ls[a][..n]]
  }

  lemma MoveKeepsPartition<P>(ls: map<P, seq<nat>>, owner: seq<P>, pos: seq<nat>, a: P, b: P, n: nat, front: bool)
    returns (owner': seq<P>, pos': seq<nat>)
    requires Partition(ls, owner, pos) && a in ls && b in ls && a != b && n <= |ls[a]|
    ensures Partition(Moved(ls, a, b, n, front), owner', pos') && |owner'| == |owner|
  {
    var ls' := Moved(ls, a, b, n, front);
    owner' := seq(|owner|, x requires 0 <= x < |owner| => if owner[x] == a && pos[x] < n then b else owner[x]);
    pos' := seq(|owner|, x requires 0 <= x < |owner| => NewPos(ls, owner[x], pos[x], a, b, n, front));
    forall x | 0 <= x < |owner| ensures Held(ls', owner', pos', x) { assert Held(ls, owner, pos, x); }
    forall p, i | p in ls' && 0 <= i < |ls'[p]| ensures Owned(ls', owner', pos', p, i) {
      if p == a {
        assert Owned(ls, owner, pos, a, n + i);
      } else if p != b {
        assert Owned(ls, owner, pos, p, i);
      } else if front && i < n {
        assert Owned(ls, owner, pos, a, i);
      } else if front {
        assert Owned(ls, owner, pos, b, i - n);
      } else if i < |ls[b]| {
        assert Owned(ls, owner, pos, b, i);
      } else {
        assert Owned(ls, owner, pos, a, i - |ls[b]|);
      }
    }
  }

  ghost function NewPos<P>(ls: map<P, seq<nat>>, p: P, i: nat, a: P, b: P, n: nat, front: bool): nat
    requires b in ls
  {
    if p == a then (if i < n then (if front then i else |ls[b]| + i) else i - n)
    else if p == b && front then n + i
    else i
  }

  // ---- links ----

  ghost predicate LinkAt(next: seq<int>, l: seq<nat>, tail: int, i: nat)
    requires i < |l|
  {
    l[i] < |next| && next[l[i]] == (if i + 1 < |l| then l[i + 1] else tail)
  }

  /** The slots of `l` are linked in order; the last one leads to `tail`. */
  ghost predicate Linked(next: seq<int>, l: seq<nat>, tail: int) {
    forall i :: 0 <= i < |l| ==> LinkAt(next, l, tail, i)
  }

  /** Relinking the last slot changes the tail. */
  lemma RelinkLast<P>(ls: map<P, seq<nat>>, owner: seq<P>, pos: seq<nat>, next: seq<int>, p: P, v: int, tail: int)
    requires Partition(ls, owner, pos) && p in ls && ls[p] != [] && Linked(next, ls[p], tail) && |owner| == |next|
    ensures Last(ls[p]) < |next| && Linked(next[Last(ls[p]) := v], ls[p], v)
  {
    var n := |ls[p]| - 1;
    assert Owned(ls, owner, pos, p, n);
    var next' := next[Last(ls[p]) := v];
    forall i | 0 <= i < |ls[p]| ensures LinkAt(next', ls[p], v, i) {
      assert Owned(ls, owner, pos, p, i) && LinkAt(next, ls[p], tail, i);
    }
  }

  lemma LinkedSuffix(next: seq<int>, l: seq<nat>, n: nat, tail: int)
    requires Linked(next, l, tail) && n <= |l|
    ensures Linked(next, l[n..], tail)
  {
    forall i | 0 <= i < |l| - n ensures LinkAt(next, l[n..], tail, i) { assert LinkAt(next, l, tail, n + i); }
  }

  lemma LinkedConcat(next: seq<int>, a: seq<nat>, b: seq<nat>, tail: int)
    requires Linked(next, a, if b == [] then tail else b[0]) && Linked(next, b, tail)
    ensures Linked(next, a + b, tail)
  {
    var link := if b == [] then tail else b[0];
    forall i | 0 <= i < |a + b| ensures LinkAt(next, a + b, tail, i) {
      if i < |a| { assert LinkAt(next, a, link, i); } else { assert LinkAt(next, b, tail, i - |a|); }
    }
  }
}
