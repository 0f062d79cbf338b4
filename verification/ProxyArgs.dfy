/**
 The progress thread's structure of operations in progress. Elements come from a pool; those that
 share an append pointer form a chain of which only the first is active, and the active ones form a
 list. A finished element makes way for the next one of its chain and returns to the pool.
 */
module ProxyArgs {
  import opened Sequences
  import opened SlotLists

  const MAX_SUBS: nat := 64

  /**
   An element in use: the append pointer it belongs to, its id, the operations aggregated in it, and whether it has
   started.
   */
  datatype Args = Args(key: nat, opCount: nat, subs: seq<nat>, running: bool)

  /**
   A posted operation: the append pointer of its connection, whether the connection is shared, its id, and its own
   number.
   */
  datatype Op = Op(key: nat, shared: bool, opCount: nat, id: nat)

  datatype Where = Pool | Chain(k: nat)

  type Lists = map<Where, seq<nat>>

  /** Elements are numbered; -1 stands for no element. */
  datatype Store = Store(next: seq<int>, nextPeer: seq<int>, args: seq<Args>, appendPtr: seq<int>, active: int,
      pool: int)

  // ---- what is where ----

  /**
   The elements of the pool and of every chain, and the append pointers whose chains are in the active list, in its
   order.
   */
  datatype Shape = Shape(ls: Lists, owner: seq<Where>, pos: seq<nat>, keys: seq<nat>, place: seq<int>)

  ghost predicate Sized(st: Store, sh: Shape) {
    && |st.next| == |st.nextPeer| == |st.args| == |sh.owner| && |sh.place| == |st.appendPtr|
    && forall w :: w in sh.ls <==> w.Pool? || w.k < |st.appendPtr|
  }

  /** The first element of the i-th active chain, or none. */
  ghost function HeadAt(ls: Lists, keys: seq<nat>, i: nat): int {
    if i < |keys| && Chain(keys[i]) in ls then Head(ls[Chain(keys[i])]) else NONE
  }

  /**
   One chain: linked through `nextPeer`, ending at the append pointer, of one key; only the first element has a
   successor in the active list.
   */
  ghost predicate ChainOk(st: Store, sh: Shape, k: nat)
    requires Sized(st, sh) && k < |st.appendPtr|
  {
    var l := sh.ls[Chain(k)];
    && Linked(st.nextPeer, l, NONE) && st.appendPtr[k] == Last(l)
    && (l != [] ==> 0 <= sh.place[k] < |sh.keys| && sh.keys[sh.place[k]] == k)
    && forall i :: 0 <= i < |l| ==> ElementOk(st, l, k, i)
  }

  ghost predicate ElementOk(st: Store, l: seq<nat>, k: nat, i: nat)
    requires i < |l|
  {
    l[i] < |st.args| == |st.next| && st.args[l[i]].key == k && (0 < i ==> st.next[l[i]] == NONE)
  }

  /** One place of the active list. */
  ghost predicate ActiveOk(st: Store, sh: Shape, i: nat)
    requires Sized(st, sh) && i < |sh.keys|
  {
    var k := sh.keys[i];
    k < |st.appendPtr| && sh.place[k] == i && sh.ls[Chain(k)] != [] && sh.ls[Chain(k)][0] < |st.next|
    && st.next[sh.ls[Chain(k)][0]] == HeadAt(sh.ls, sh.keys, i + 1)
  }

  ghost predicate Sound(st: Store, sh: Shape) {
    && Sized(st, sh) && Partition(sh.ls, sh.owner, sh.pos)
    && st.pool == Head(sh.ls[Pool]) && Linked(st.next, sh.ls[Pool], NONE)
    && (forall k :: 0 <= k < |st.appendPtr| ==> ChainOk(st, sh, k))
    && st.active == HeadAt(sh.ls, sh.keys, 0)
    && forall i :: 0 <= i < |sh.keys| ==> ActiveOk(st, sh, i)
  }

  /** The operations in progress under one append pointer, in order. */
  ghost function Contents(args: seq<Args>, l: seq<nat>): (q: seq<Args>)
    requires forall i :: 0 <= i < |l| ==> l[i] < |args|
    ensures |q| == |l| && forall i :: 0 <= i < |l| ==> q[i] == args[l[i]]
  {
    seq(|l|, i requires 0 <= i < |l| => args[l[i]])
  }

  lemma Inside(st: Store, sh: Shape, w: Where)
    requires Sound(st, sh) && w in sh.ls
    ensures forall i :: 0 <= i < |sh.ls[w]| ==> sh.ls[w][i] < |st.args|
  {
    forall i | 0 <= i < |sh.ls[w]| ensures sh.ls[w][i] < |st.args| { assert Owned(sh.ls, sh.owner, sh.pos, w, i); }
  }

  ghost function Queue(st: Store, sh: Shape, k: nat): seq<Args>
    requires Sound(st, sh) && k < |st.appendPtr|
  {
    Inside(st, sh, Chain(k));
    Contents(st.args, sh.ls[Chain(k)])
  }

  // ---- adding an element ----

  predicate IsElement(st: Store, x: int) { 0 <= x < |st.next| && |st.next| == |st.nextPeer| == |st.args| }

  /** The first pool element, filled with an operation. */
  function Allocated(st: Store, op: Op): Store
    requires IsElement(st, st.pool)
  {
    var x := st.pool;
    st.(pool := st.next[x], next := st.next[x := NONE], nextPeer := st.nextPeer[x := NONE],
        args := st.args[x := Args(op.key, op.opCount, [op.id], false)])
  }

  /** A new element behind `prev`, the last one of its chain. */
  function Chained(st: Store, op: Op): Store
    requires op.key < |st.appendPtr| && IsElement(st, st.pool) && IsElement(st, st.appendPtr[op.key])
  {
    var x, st1 := st.pool, Allocated(st, op);
    st1.(nextPeer := st1.nextPeer[st.appendPtr[op.key] := x], appendPtr := st1.appendPtr[op.key := x])
  }

  /** A new element at the end of the active list, whose last element is `last`. */
  function Activated(st: Store, op: Op, last: int): Store
    requires op.key < |st.appendPtr| && IsElement(st, st.pool) && (st.active != NONE ==> IsElement(st, last))
  {
    var x, st1 := st.pool, Allocated(st, op);
    var st2 := if st.active == NONE then st1.(active := x) else st1.(next := st1.next[last := x]);
    st2.(appendPtr := st2.appendPtr[op.key := x])
  }

  /** The pool without its first element. */
  lemma PoolPops(st: Store, sh: Shape, next': seq<int>)
    requires Sound(st, sh) && sh.ls[Pool] != [] && |next'| == |st.next|
    requires forall y :: 0 <= y < |st.next| && sh.owner[y] == Pool && y != sh.ls[Pool][0] ==> next'[y] == st.next[y]
    ensures IsElement(st, st.pool) && sh.owner[st.pool] == Pool && st.next[st.pool] == Head(sh.ls[Pool][1..])
    ensures Linked(next', sh.ls[Pool][1..], NONE)
  {
    var l := sh.ls[Pool];
    assert Owned(sh.ls, sh.owner, sh.pos, Pool, 0) && LinkAt(st.next, l, NONE, 0);
    LinkedSuffix(st.next, l, 1, NONE);
    var rest := l[1..];
    forall i | 0 <= i < |rest| ensures LinkAt(next', rest, NONE, i) {
      assert Owned(sh.ls, sh.owner, sh.pos, Pool, i + 1) && LinkAt(st.next, rest, NONE, i);
    }
  }

  /** A chain whose elements were not touched. */
  lemma ChainStays(st: Store, sh: Shape, st': Store, sh': Shape, k: nat)
    requires Sound(st, sh) && Sized(st', sh') && k < |st.appendPtr| == |st'.appendPtr| && |st'.next| == |st.next|
    requires sh'.ls[Chain(k)] == sh.ls[Chain(k)] && st'.appendPtr[k] == st.appendPtr[k]
    requires sh.ls[Chain(k)] != [] ==> 0 <= sh'.place[k] < |sh'.keys| && sh'.keys[sh'.place[k]] == k
    requires forall y :: 0 <= y < |st.next| && sh.owner[y] == Chain(k) ==>
      st'.nextPeer[y] == st.nextPeer[y] && st'.args[y].key == st.args[y].key
    requires forall i :: 0 < i < |sh.ls[Chain(k)]| && sh.ls[Chain(k)][i] < |st.next| ==>
      st'.next[sh.ls[Chain(k)][i]] == st.next[sh.ls[Chain(k)][i]]
    ensures ChainOk(st', sh', k)
  {
    var l := sh.ls[Chain(k)];
    assert ChainOk(st, sh, k);
    forall i | 0 <= i < |l| ensures LinkAt(st'.nextPeer, l, NONE, i) && ElementOk(st', l, k, i) {
      assert Owned(sh.ls, sh.owner, sh.pos, Chain(k), i) && LinkAt(st.nextPeer, l, NONE, i) && ElementOk(st, l, k, i);
    }
  }

  /** The chain of a new element. */
  lemma ChainGrows(st: Store, sh: Shape, st': Store, sh': Shape, k: nat, x: nat)
    requires Sound(st, sh) && Sized(st', sh') && k < |st.appendPtr| == |st'.appendPtr| && |st'.next| == |st.next|
    requires x < |st.next| && sh.owner[x] == Pool && sh'.ls[Chain(k)] == sh.ls[Chain(k)] + [x] && st'.appendPtr[k] == x
    requires 0 <= sh'.place[k] < |sh'.keys| && sh'.keys[sh'.place[k]] == k
    requires st'.nextPeer[x] == NONE && st'.args[x].key == k && (sh.ls[Chain(k)] != [] ==> st'.next[x] == NONE)
    requires forall y :: 0 <= y < |st.next| && sh.owner[y] == Chain(k) ==>
      st'.args[y].key == st.args[y].key && st'.nextPeer[y] == if y == Last(sh.ls[Chain(k)]) then x else st.nextPeer[y]
    requires forall i :: 0 < i < |sh.ls[Chain(k)]| && sh.ls[Chain(k)][i] < |st.next| ==>
      st'.next[sh.ls[Chain(k)][i]] == st.next[sh.ls[Chain(k)][i]]
    ensures ChainOk(st', sh', k)
  {
    var l, l' := sh.ls[Chain(k)], sh.ls[Chain(k)] + [x];
    assert ChainOk(st, sh, k);
    forall i | 0 <= i < |l'| ensures LinkAt(st'.nextPeer, l', NONE, i) && ElementOk(st', l', k, i) {
      if i < |l| {
        assert Owned(sh.ls, sh.owner, sh.pos, Chain(k), i) && LinkAt(st.nextPeer, l, NONE, i) && ElementOk(st, l, k, i);
        assert Owned(sh.ls, sh.owner, sh.pos, Chain(k), |l| - 1);
      }
    }
  }

  lemma AppendPtrIsLast(st: Store, sh: Shape, k: nat)
    requires Sound(st, sh) && k < |st.appendPtr|
    ensures st.appendPtr[k] == NONE <==> sh.ls[Chain(k)] == []
    ensures st.appendPtr[k] != NONE ==>
      IsElement(st, st.appendPtr[k]) && sh.owner[st.appendPtr[k]] == Chain(k)
      && st.appendPtr[k] == Last(sh.ls[Chain(k)])
  {
    assert ChainOk(st, sh, k);
    var l := sh.ls[Chain(k)];
    assert l == [] || Owned(sh.ls, sh.owner, sh.pos, Chain(k), |l| - 1);
  }

  /** A chain's first element, and no other, is an active list element. */
  lemma HeadOwned(st: Store, sh: Shape, i: nat)
    requires Sound(st, sh) && i < |sh.keys|
    ensures ActiveOk(st, sh, i) && HeadAt(sh.ls, sh.keys, i) == sh.ls[Chain(sh.keys[i])][0]
    ensures IsElement(st, HeadAt(sh.ls, sh.keys, i))
    ensures sh.owner[HeadAt(sh.ls, sh.keys, i)] == Chain(sh.keys[i]) && sh.pos[HeadAt(sh.ls, sh.keys, i)] == 0
  {
    assert ActiveOk(st, sh, i) && Owned(sh.ls, sh.owner, sh.pos, Chain(sh.keys[i]), 0);
  }

  lemma ChainedKeeps(st: Store, sh: Shape, op: Op) returns (sh': Shape)
    requires Sound(st, sh) && op.key < |st.appendPtr| && st.pool != NONE && st.appendPtr[op.key] != NONE
    ensures IsElement(st, st.pool) && IsElement(st, st.appendPtr[op.key]) && Sound(Chained(st, op), sh')
    ensures sh'.keys == sh.keys
    ensures sh'.ls == Moved(sh.ls, Pool, Chain(op.key), 1, false)
  {
    var k := op.key;
    PoolPops(st, sh, st.next);
    AppendPtrIsLast(st, sh, k);
    var x, st' := st.pool, Chained(st, op);
    var owner', pos' := MoveKeepsPartition(sh.ls, sh.owner, sh.pos, Pool, Chain(k), 1, false);
    sh' := Shape(Moved(sh.ls, Pool, Chain(k), 1, false), owner', pos', sh.keys, sh.place);
    assert sh'.ls[Chain(k)] == sh.ls[Chain(k)] + [x];
    PoolPops(st, sh, st'.next);
    forall j | 0 <= j < |st.appendPtr| ensures ChainOk(st', sh', j) {
      assert ChainOk(st, sh, j);
      Distinct(st, sh, Chain(j), x);
      if j == k { ChainGrows(st, sh, st', sh', k, x); } else { ChainStays(st, sh, st', sh', j); }
    }
    forall i | 0 <= i < |sh.keys| ensures ActiveOk(st', sh', i) { HeadOwned(st, sh, i); }
    HeadsKept(st, sh, st', sh');
  }

  /** A pool element is in no chain. */
  lemma Distinct(st: Store, sh: Shape, w: Where, x: nat)
    requires Sound(st, sh) && w in sh.ls && x < |sh.owner| && sh.owner[x] != w
    ensures forall i :: 0 <= i < |sh.ls[w]| ==> sh.ls[w][i] != x
  {
    forall i | 0 <= i < |sh.ls[w]| ensures sh.ls[w][i] != x { assert Owned(sh.ls, sh.owner, sh.pos, w, i); }
  }

  lemma HeadsKept(st: Store, sh: Shape, st': Store, sh': Shape)
    requires Sound(st, sh) && Sized(st', sh') && sh'.keys == sh.keys && |st'.appendPtr| == |st.appendPtr|
    requires forall k :: 0 <= k < |st.appendPtr| && sh.ls[Chain(k)] != [] ==>
      sh'.ls[Chain(k)] != [] && sh'.ls[Chain(k)][0] == sh.ls[Chain(k)][0]
    ensures forall i :: HeadAt(sh'.ls, sh'.keys, i) == HeadAt(sh.ls, sh.keys, i)
  {
    forall i: nat ensures HeadAt(sh'.ls, sh'.keys, i) == HeadAt(sh.ls, sh.keys, i) {
      if i < |sh.keys| { HeadOwned(st, sh, i); }
    }
  }

  /** A key enters the end of the active list. */
  lemma ActivatedKeeps(st: Store, sh: Shape, op: Op, last: int) returns (sh': Shape)
    requires Sound(st, sh) && op.key < |st.appendPtr| && st.pool != NONE && st.appendPtr[op.key] == NONE
    requires sh.keys != [] ==> last == HeadAt(sh.ls, sh.keys, |sh.keys| - 1)
    ensures IsElement(st, st.pool) && (st.active != NONE ==> IsElement(st, last))
    ensures Sound(Activated(st, op, last), sh') && sh'.keys == sh.keys + [op.key]
    ensures sh'.ls == Moved(sh.ls, Pool, Chain(op.key), 1, false)
  {
    var k, n := op.key, |sh.keys|;
    PoolPops(st, sh, st.next);
    AppendPtrIsLast(st, sh, k);
    if n != 0 { HeadOwned(st, sh, 0); HeadOwned(st, sh, n - 1); }
    var x, st' := st.pool, Activated(st, op, last);
    var owner', pos' := MoveKeepsPartition(sh.ls, sh.owner, sh.pos, Pool, Chain(k), 1, false);
    sh' := Shape(Moved(sh.ls, Pool, Chain(k), 1, false), owner', pos', sh.keys + [k], sh.place[k := n]);
    assert sh'.ls[Chain(k)] == [x];
    PoolPops(st, sh, st'.next);
    forall j | 0 <= j < |st.appendPtr| ensures ChainOk(st', sh', j) {
      assert ChainOk(st, sh, j);
      Distinct(st, sh, Chain(j), x);
      OnlyHeads(st, sh, j, if n == 0 then NONE else last);
      if j == k { ChainGrows(st, sh, st', sh', k, x); } else { ChainStays(st, sh, st', sh', j); }
    }
    ActivatedList(st, sh, st', sh', k, x, last);
  }

  /** An active list element is not a later element of a chain. */
  lemma OnlyHeads(st: Store, sh: Shape, k: nat, y: int)
    requires Sound(st, sh) && k < |st.appendPtr| && (y == NONE || (0 <= y < |sh.pos| && sh.pos[y] == 0))
    ensures forall i :: 0 < i < |sh.ls[Chain(k)]| ==> sh.ls[Chain(k)][i] != y
  {
    forall i | 0 < i < |sh.ls[Chain(k)]|
      ensures sh.ls[Chain(k)][i] != y
    {
      assert Owned(sh.ls, sh.owner, sh.pos, Chain(k), i);
    }
  }

  lemma ActivatedList(st: Store, sh: Shape, st': Store, sh': Shape, k: nat, x: nat, last: int)
    requires Sound(st, sh) && Sized(st', sh') && k < |st.appendPtr| == |st'.appendPtr| && |st'.next| == |st.next|
    requires sh.ls[Chain(k)] == []
    requires sh'.keys == sh.keys + [k] && sh'.place == sh.place[k := |sh.keys|] && x < |st.next| && sh.owner[x] == Pool
    requires sh'.ls == sh.ls[Pool := sh'.ls[Pool]][Chain(k) := [x]]
    requires if sh.keys == [] then st'.active == x && st'.next == st.next[x := NONE] else
      && IsElement(st, last) && last == HeadAt(sh.ls, sh.keys, |sh.keys| - 1) && st'.active == st.active
      && st'.next == st.next[x := NONE][last := x]
    ensures st'.active == HeadAt(sh'.ls, sh'.keys, 0) && forall i :: 0 <= i < |sh'.keys| ==> ActiveOk(st', sh', i)
  {
    var n := |sh.keys|;
    forall i | 0 <= i < n
      ensures sh'.keys[i] == sh.keys[i] != k && HeadAt(sh'.ls, sh'.keys, i) == HeadAt(sh.ls, sh.keys, i)
    {
      HeadOwned(st, sh, i);
    }
    assert HeadAt(sh'.ls, sh'.keys, n) == x && HeadAt(sh'.ls, sh'.keys, n + 1) == NONE;
    if n != 0 { HeadOwned(st, sh, n - 1); }
    forall i | 0 <= i < n + 1 ensures ActiveOk(st', sh', i) {
      if i < n { HeadOwned(st, sh, i); }
    }
  }

  // ---- removing an element ----

  /** `next` of the active list with what follows `prev` replaced. */
  function Bypass(next: seq<int>, prev: int, to: int): seq<int> {
    if 0 <= prev < |next| then next[prev := to] else next
  }

  predicate Removable(st: Store, x: int, prev: int) {
    && IsElement(st, x) && (prev == NONE || IsElement(st, prev)) && st.args[x].key < |st.appendPtr|
    && (st.nextPeer[x] == NONE || IsElement(st, st.nextPeer[x]))
  }

  /** removeOp: element `x` of the active list, whose predecessor there is `prev`, makes way for its next peer. */
  function Removed(st: Store, x: int, prev: int): Store
    requires Removable(st, x, prev)
  {
    var y, after := st.nextPeer[x], st.next[x];
    if y != NONE then
      var next := Bypass(st.next, prev, y)[y := after];
      st.(next := next[x := st.pool], active := if prev == NONE then y else st.active, pool := x)
    else
      var next := Bypass(st.next, prev, after);
      st.(next := next[x := st.pool], active := if prev == NONE then after else st.active, pool := x,
          appendPtr := st.appendPtr[st.args[x].key := NONE])
  }

  ghost function Before(sh: Shape, i: nat): int { if i == 0 then NONE else HeadAt(sh.ls, sh.keys, i - 1) }

  lemma CanRemove(st: Store, sh: Shape, i: nat)
    requires Sound(st, sh) && i < |sh.keys|
    ensures var k, x := sh.keys[i], HeadAt(sh.ls, sh.keys, i);
      && k < |st.appendPtr| && Removable(st, x, Before(sh, i)) && st.args[x].key == k && sh.ls[Chain(k)] != []
        && x == sh.ls[Chain(k)][0]
      && st.nextPeer[x] == Head(sh.ls[Chain(k)][1..]) && st.next[x] == HeadAt(sh.ls, sh.keys, i + 1)
  {
    HeadOwned(st, sh, i);
    var k := sh.keys[i];
    var l := sh.ls[Chain(k)];
    assert ChainOk(st, sh, k) && ElementOk(st, l, k, 0) && LinkAt(st.nextPeer, l, NONE, 0);
    if i != 0 { HeadOwned(st, sh, i - 1); }
    assert |l| == 1 || Owned(sh.ls, sh.owner, sh.pos, Chain(k), 1);
  }

  /** The element goes to the front of the pool. */
  lemma PoolGrows(st: Store, sh: Shape, next': seq<int>, x: nat)
    requires Sound(st, sh) && x < |st.next| == |next'| && sh.owner[x] != Pool && next'[x] == st.pool
    requires forall y :: 0 <= y < |st.next| && sh.owner[y] == Pool ==> next'[y] == st.next[y]
    ensures Linked(next', [x] + sh.ls[Pool], NONE)
  {
    var l := sh.ls[Pool];
    forall i | 0 <= i < |l|
      ensures LinkAt(next', l, NONE, i)
    {
      assert Owned(sh.ls, sh.owner, sh.pos, Pool, i) && LinkAt(st.next, l, NONE, i);
    }
    var one := [x];
    assert LinkAt(next', one, if l == [] then NONE else l[0], 0);
    LinkedConcat(next', one, l, NONE);
  }

  /** The chain of the removed element, which is not empty after that. */
  lemma ChainShrinks(st: Store, sh: Shape, st': Store, sh': Shape, k: nat)
    requires Sound(st, sh) && Sized(st', sh') && k < |st.appendPtr| && st'.appendPtr == st.appendPtr
    requires |st'.next| == |st.next| && 1 < |sh.ls[Chain(k)]|
    requires sh'.ls[Chain(k)] == sh.ls[Chain(k)][1..] && sh'.keys == sh.keys && sh'.place == sh.place
    requires st'.nextPeer == st.nextPeer && st'.args == st.args
    requires forall i :: 1 < i < |sh.ls[Chain(k)]| && sh.ls[Chain(k)][i] < |st.next| ==>
      st'.next[sh.ls[Chain(k)][i]] == st.next[sh.ls[Chain(k)][i]]
    ensures ChainOk(st', sh', k)
  {
    var l := sh.ls[Chain(k)];
    var l' := l[1..];
    assert ChainOk(st, sh, k);
    LinkedSuffix(st.nextPeer, l, 1, NONE);
    forall i | 0 <= i < |l'| ensures ElementOk(st', l', k, i) { assert ElementOk(st, l, k, i + 1); }
  }

  /** The next peer takes the place of the removed element. */
  lemma ReplacedKeeps(st: Store, sh: Shape, i: nat) returns (sh': Shape)
    requires Sound(st, sh) && i < |sh.keys| && sh.keys[i] < |st.appendPtr| && 1 < |sh.ls[Chain(sh.keys[i])]|
    ensures var k, x := sh.keys[i], HeadAt(sh.ls, sh.keys, i);
      && Removable(st, x, Before(sh, i)) && Sound(Removed(st, x, Before(sh, i)), sh')
      && sh'.ls == Moved(sh.ls, Chain(k), Pool, 1, true) && sh'.keys == sh.keys
  {
    CanRemove(st, sh, i);
    var k, x, prev := sh.keys[i], HeadAt(sh.ls, sh.keys, i), Before(sh, i);
    var l, st' := sh.ls[Chain(k)], Removed(st, x, prev);
    var y := l[1];
    assert Owned(sh.ls, sh.owner, sh.pos, Chain(k), 0) && Owned(sh.ls, sh.owner, sh.pos, Chain(k), 1);
    if i != 0 { HeadOwned(st, sh, i - 1); }
    var owner', pos' := MoveKeepsPartition(sh.ls, sh.owner, sh.pos, Chain(k), Pool, 1, true);
    sh' := Shape(Moved(sh.ls, Chain(k), Pool, 1, true), owner', pos', sh.keys, sh.place);
    assert l[..1] == [x];
    PoolGrows(st, sh, st'.next, x);
    forall j | 0 <= j < |st.appendPtr| ensures ChainOk(st', sh', j) {
      assert ChainOk(st, sh, j);
      OnlyHeads(st, sh, j, x);
      OnlyHeads(st, sh, j, prev);
      if j == k {
        forall m | 1 < m < |l| ensures l[m] != y { assert Owned(sh.ls, sh.owner, sh.pos, Chain(k), m); }
        ChainShrinks(st, sh, st', sh', k);
      } else {
        Distinct(st, sh, Chain(j), y);
        ChainStays(st, sh, st', sh', j);
      }
    }
    ReplacedList(st, sh, st', sh', i, y);
  }

  lemma ReplacedList(st: Store, sh: Shape, st': Store, sh': Shape, i: nat, y: nat)
    requires Sound(st, sh) && Sized(st', sh') && i < |sh.keys| && |st'.appendPtr| == |st.appendPtr|
    requires |st'.next| == |st.next| && y < |st.next|
    requires sh'.keys == sh.keys && sh'.place == sh.place && sh.keys[i] < |st.appendPtr|
    requires 1 < |sh.ls[Chain(sh.keys[i])]|
    requires sh'.ls == sh.ls[Pool := sh'.ls[Pool]][Chain(sh.keys[i]) := sh.ls[Chain(sh.keys[i])][1..]]
    requires y == sh.ls[Chain(sh.keys[i])][1]
    requires sh.owner[y] == Chain(sh.keys[i]) && sh.pos[y] == 1
    requires var x := HeadAt(sh.ls, sh.keys, i);
      && IsElement(st, x) && (i != 0 ==> IsElement(st, Before(sh, i)))
      && st'.next == Bypass(st.next, Before(sh, i), y)[y := st.next[x]][x := st.pool]
      && st'.active == if i == 0 then y else st.active
    ensures st'.active == HeadAt(sh'.ls, sh'.keys, 0) && forall j :: 0 <= j < |sh.keys| ==> ActiveOk(st', sh', j)
  {
    forall j | 0 <= j < |sh.keys|
      ensures HeadAt(sh'.ls, sh'.keys, j) == (if j == i then y else HeadAt(sh.ls, sh.keys, j))
    {
      OtherKey(st, sh, i, j);
    }
    HeadOwned(st, sh, i);
    if i != 0 { HeadOwned(st, sh, i - 1); }
    forall j | 0 <= j < |sh.keys| ensures ActiveOk(st', sh', j) {
      OtherKey(st, sh, i, j);
      if i != 0 { OtherKey(st, sh, i - 1, j); }
    }
  }

  lemma OtherKey(st: Store, sh: Shape, i: nat, j: nat)
    requires Sound(st, sh) && i < |sh.keys| && j < |sh.keys|
    ensures ActiveOk(st, sh, i) && ActiveOk(st, sh, j) && HeadAt(sh.ls, sh.keys, j) == sh.ls[Chain(sh.keys[j])][0]
    ensures IsElement(st, HeadAt(sh.ls, sh.keys, j))
    ensures i != j ==> sh.keys[i] != sh.keys[j] && HeadAt(sh.ls, sh.keys, i) != HeadAt(sh.ls, sh.keys, j)
    ensures sh.pos[HeadAt(sh.ls, sh.keys, j)] == 0
  {
    HeadOwned(st, sh, i);
    HeadOwned(st, sh, j);
  }

  /** The chain is used up: its key leaves the active list. */
  lemma RetiredKeeps(st: Store, sh: Shape, i: nat) returns (sh': Shape)
    requires Sound(st, sh) && i < |sh.keys| && sh.keys[i] < |st.appendPtr| && |sh.ls[Chain(sh.keys[i])]| == 1
    ensures var k, x := sh.keys[i], HeadAt(sh.ls, sh.keys, i);
      && Removable(st, x, Before(sh, i)) && Sound(Removed(st, x, Before(sh, i)), sh')
      && sh'.ls == Moved(sh.ls, Chain(k), Pool, 1, true) && sh'.keys == Without(sh.keys, i)
  {
    CanRemove(st, sh, i);
    var k, x, prev := sh.keys[i], HeadAt(sh.ls, sh.keys, i), Before(sh, i);
    var l, st' := sh.ls[Chain(k)], Removed(st, x, prev);
    assert Owned(sh.ls, sh.owner, sh.pos, Chain(k), 0);
    if i != 0 { HeadOwned(st, sh, i - 1); }
    var owner', pos' := MoveKeepsPartition(sh.ls, sh.owner, sh.pos, Chain(k), Pool, 1, true);
    var place' := seq(|sh.place|, j requires 0 <= j < |sh.place| =>
      if i < sh.place[j] then sh.place[j] - 1 else sh.place[j]);
    sh' := Shape(Moved(sh.ls, Chain(k), Pool, 1, true), owner', pos', Without(sh.keys, i), place');
    assert l[..1] == [x] && l[1..] == [];
    PoolGrows(st, sh, st'.next, x);
    forall j | 0 <= j < |st.appendPtr| ensures ChainOk(st', sh', j) {
      assert ChainOk(st, sh, j);
      OnlyHeads(st, sh, j, x);
      OnlyHeads(st, sh, j, prev);
      if j != k { ChainStays(st, sh, st', sh', j); }
    }
    RetiredList(st, sh, st', sh', i);
  }

  ghost predicate RetiredNext(st: Store, sh: Shape, st': Store, i: nat)
    requires i < |sh.keys|
  {
    var x := HeadAt(sh.ls, sh.keys, i);
    && IsElement(st, x) && (i != 0 ==> IsElement(st, Before(sh, i)))
    && st'.next == Bypass(st.next, Before(sh, i), st.next[x])[x := st.pool]
    && st'.active == if i == 0 then st.next[x] else st.active
  }

  lemma RetiredList(st: Store, sh: Shape, st': Store, sh': Shape, i: nat)
    requires Sound(st, sh) && Sized(st', sh') && i < |sh.keys| && |st'.appendPtr| == |st.appendPtr|
    requires |st'.next| == |st.next|
    requires sh.keys[i] < |st.appendPtr| && sh'.ls == sh.ls[Pool := sh'.ls[Pool]][Chain(sh.keys[i]) := []]
    requires sh'.keys == Without(sh.keys, i)
    requires forall j :: 0 <= j < |sh.place| ==>
      sh'.place[j] == if i < sh.place[j] then sh.place[j] - 1 else sh.place[j]
    requires RetiredNext(st, sh, st', i)
    ensures st'.active == HeadAt(sh'.ls, sh'.keys, 0) && forall j :: 0 <= j < |sh'.keys| ==> ActiveOk(st', sh', j)
  {
    RetiredHeads(st, sh, sh', i);
    HeadOwned(st, sh, i);
    forall j | 0 <= j < |sh'.keys| ensures ActiveOk(st', sh', j) { RetiredAt(st, sh, st', sh', i, j); }
    assert HeadAt(sh'.ls, sh'.keys, 0) == HeadAt(sh.ls, sh.keys, Old(0, i));
  }

  lemma RetiredAt(st: Store, sh: Shape, st': Store, sh': Shape, i: nat, j: nat)
    requires Sound(st, sh) && Sized(st', sh') && i < |sh.keys| && |st'.appendPtr| == |st.appendPtr|
    requires |st'.next| == |st.next|
    requires sh.keys[i] < |st.appendPtr| && sh'.ls == sh.ls[Pool := sh'.ls[Pool]][Chain(sh.keys[i]) := []]
    requires sh'.keys == Without(sh.keys, i)
    requires forall j :: 0 <= j < |sh.place| ==>
      sh'.place[j] == if i < sh.place[j] then sh.place[j] - 1 else sh.place[j]
    requires RetiredNext(st, sh, st', i)
    requires j < |sh'.keys|
    ensures ActiveOk(st', sh', j)
  {
    RetiredHeads(st, sh, sh', i);
    OtherKey(st, sh, i, Old(j, i));
    if i != 0 { OtherKey(st, sh, i - 1, Old(j, i)); }
    assert HeadAt(sh'.ls, sh'.keys, j) == HeadAt(sh.ls, sh.keys, Old(j, i))
      && HeadAt(sh'.ls, sh'.keys, j + 1) == HeadAt(sh.ls, sh.keys, Old(j + 1, i));
  }

  /** Where the key now at place `j` was before place `i` was taken out. */
  ghost function Old(j: nat, i: nat): nat { if j < i then j else j + 1 }

  lemma RetiredHeads(st: Store, sh: Shape, sh': Shape, i: nat)
    requires Sound(st, sh) && i < |sh.keys| && sh.keys[i] < |st.appendPtr|
    requires sh'.keys == Without(sh.keys, i) && Pool in sh'.ls
    requires sh'.ls == sh.ls[Pool := sh'.ls[Pool]][Chain(sh.keys[i]) := []]
    ensures forall j :: 0 <= j <= |sh'.keys| ==> HeadAt(sh'.ls, sh'.keys, j) == HeadAt(sh.ls, sh.keys, Old(j, i))
  {
    forall j | 0 <= j <= |sh'.keys| ensures HeadAt(sh'.ls, sh'.keys, j) == HeadAt(sh.ls, sh.keys, Old(j, i)) {
      if j < |sh'.keys| { OtherKey(st, sh, i, Old(j, i)); }
    }
  }

  /** Either way: what the progress thread goes on with. */
  lemma RemovedKeeps(st: Store, sh: Shape, i: nat) returns (sh': Shape, i': nat)
    requires Sound(st, sh) && i < |sh.keys| && sh.keys[i] < |st.appendPtr|
    ensures var k, x := sh.keys[i], HeadAt(sh.ls, sh.keys, i);
      && Removable(st, x, Before(sh, i)) && Sound(Removed(st, x, Before(sh, i)), sh')
      && sh.ls[Chain(k)] != [] && sh'.ls == Moved(sh.ls, Chain(k), Pool, 1, true)
      && i' <= |sh'.keys| && HeadAt(sh'.ls, sh'.keys, i') == st.next[x] && sh'.keys[i'..] == sh.keys[i + 1..]
      && Before(sh', i') == if st.nextPeer[x] == NONE then Before(sh, i) else st.nextPeer[x]
  {
    CanRemove(st, sh, i);
    if |sh.ls[Chain(sh.keys[i])]| == 1 {
      sh' := RetiredKeeps(st, sh, i);
      i' := i;
      RetiredHeads(st, sh, sh', i);
      assert HeadAt(sh'.ls, sh'.keys, i) == HeadAt(sh.ls, sh.keys, Old(i, i));
      assert i != 0 ==> HeadAt(sh'.ls, sh'.keys, i - 1) == HeadAt(sh.ls, sh.keys, Old(i - 1, i));
    } else {
      sh' := ReplacedKeeps(st, sh, i);
      i' := i + 1;
      if i + 1 < |sh.keys| { OtherKey(st, sh, i, i + 1); }
    }
  }

  // ---- a larger pool ----

  const POOL_SIZE: nat := 2048

  /** Fresh elements, chained into a new pool. */
  ghost predicate GrownBy(st: Store, st': Store, n: nat) {
    var m := |st.next|;
    && |st.nextPeer| == |st.args| == m && |st'.next| == |st'.nextPeer| == |st'.args| == m + n && st'.pool == m
    && st'.next[..m] == st.next && st'.nextPeer[..m] == st.nextPeer && st'.args[..m] == st.args
    && st'.appendPtr == st.appendPtr && st'.active == st.active
    && forall x :: m <= x < m + n ==> st'.next[x] == if x + 1 < m + n then x + 1 else NONE
  }

  lemma GrownPartition(ls: Lists, owner: seq<Where>, pos: seq<nat>, n: nat) returns (owner': seq<Where>, pos': seq<nat>)
    requires Partition(ls, owner, pos) && Pool in ls && ls[Pool] == []
    ensures owner' == owner + seq(n, _ => Pool) && Partition(ls[Pool := Range(|owner|, n)], owner', pos')
  {
    var m := |owner|;
    owner', pos' := owner + seq(n, _ => Pool), pos + Range(0, n);
    var ls' := ls[Pool := Range(m, n)];
    forall x | 0 <= x < m + n ensures Held(ls', owner', pos', x) {
      if x < m { assert Held(ls, owner, pos, x); }
    }
    forall w, i | w in ls' && 0 <= i < |ls'[w]| ensures Owned(ls', owner', pos', w, i) {
      if w != Pool { assert Owned(ls, owner, pos, w, i); }
    }
  }

  lemma GrownKeeps(st: Store, sh: Shape, st': Store, n: nat) returns (sh': Shape)
    requires Sound(st, sh) && st.pool == NONE && 0 < n && GrownBy(st, st', n)
    ensures Sound(st', sh') && sh'.keys == sh.keys && sh'.ls == sh.ls[Pool := Range(|st.next|, n)] && sh.ls[Pool] == []
  {
    var m := |st.next|;
    var owner', pos' := GrownPartition(sh.ls, sh.owner, sh.pos, n);
    sh' := sh.(ls := sh.ls[Pool := Range(m, n)], owner := owner', pos := pos');
    assert forall x :: 0 <= x < m ==>
      st'.next[x] == st'.next[..m][x] && st'.nextPeer[x] == st'.nextPeer[..m][x] && st'.args[x] == st'.args[..m][x];
    var l := sh'.ls[Pool];
    forall i | 0 <= i < n ensures LinkAt(st'.next, l, NONE, i) { assert l[i] == m + i; }
    forall k | 0 <= k < |st.appendPtr| ensures ChainOk(st', sh', k) { ChainStaysGrown(st, sh, st', sh', k); }
    forall i | 0 <= i < |sh.keys| ensures ActiveOk(st', sh', i) { HeadOwned(st, sh, i); }
    HeadsKept(st, sh, st', sh');
  }

  lemma ChainStaysGrown(st: Store, sh: Shape, st': Store, sh': Shape, k: nat)
    requires Sound(st, sh) && Sized(st', sh') && k < |st.appendPtr| && st'.appendPtr == st.appendPtr
    requires |st.next| <= |st'.next|
    requires sh'.ls[Chain(k)] == sh.ls[Chain(k)] && sh'.keys == sh.keys && sh'.place == sh.place
    requires forall x :: 0 <= x < |st.next| ==>
      st'.next[x] == st.next[x] && st'.nextPeer[x] == st.nextPeer[x] && st'.args[x] == st.args[x]
    ensures ChainOk(st', sh', k)
  {
    var l := sh.ls[Chain(k)];
    assert ChainOk(st, sh, k);
    forall i | 0 <= i < |l| ensures LinkAt(st'.nextPeer, l, NONE, i) && ElementOk(st', l, k, i) {
      assert LinkAt(st.nextPeer, l, NONE, i) && ElementOk(st, l, k, i);
    }
  }

  // ---- what is in progress ----

  /** Queues of append pointers that a step does not concern. */
  ghost predicate SameQueue(st: Store, sh: Shape, st': Store, sh': Shape, k: nat)
    requires Sound(st, sh) && Sound(st', sh') && k < |st.appendPtr| == |st'.appendPtr|
  {
    Queue(st', sh', k) == Queue(st, sh, k)
  }

  lemma QueueKept(st: Store, sh: Shape, st': Store, sh': Shape, k: nat)
    requires Sound(st, sh) && Sound(st', sh') && k < |st.appendPtr| == |st'.appendPtr| && |st.args| <= |st'.args|
    requires sh'.ls[Chain(k)] == sh.ls[Chain(k)]
    requires forall x :: 0 <= x < |st.args| && sh.owner[x] == Chain(k) ==> st'.args[x] == st.args[x]
    ensures SameQueue(st, sh, st', sh', k)
  {
    var l := sh.ls[Chain(k)];
    Inside(st, sh, Chain(k));
    forall i | 0 <= i < |l|
      ensures st'.args[l[i]] == st.args[l[i]]
    {
      assert Owned(sh.ls, sh.owner, sh.pos, Chain(k), i);
    }
  }

  /** A new element ends its queue. */
  lemma QueueGrows(st: Store, sh: Shape, st': Store, sh': Shape, op: Op, x: nat)
    requires Sound(st, sh) && Sound(st', sh') && op.key < |st.appendPtr| == |st'.appendPtr|
    requires x < |st.args| == |st'.args| && sh.owner[x] == Pool
    requires sh'.ls[Chain(op.key)] == sh.ls[Chain(op.key)] + [x]
    requires (forall k :: 0 <= k < |st.appendPtr| && k != op.key ==> sh'.ls[Chain(k)] == sh.ls[Chain(k)])
    requires st'.args == st.args[x := Args(op.key, op.opCount, [op.id], false)]
    ensures Queue(st', sh', op.key) == Queue(st, sh, op.key) + [Args(op.key, op.opCount, [op.id], false)]
    ensures forall k :: 0 <= k < |st.appendPtr| && k != op.key ==> SameQueue(st, sh, st', sh', k)
  {
    var l := sh.ls[Chain(op.key)];
    Inside(st, sh, Chain(op.key));
    forall i | 0 <= i < |l|
      ensures st'.args[l[i]] == st.args[l[i]]
    {
      assert Owned(sh.ls, sh.owner, sh.pos, Chain(op.key), i);
    }
    forall k | 0 <= k < |st.appendPtr| && k != op.key
      ensures SameQueue(st, sh, st', sh', k)
    {
      QueueKept(st, sh, st', sh', k);
    }
  }

  /** A removed element was the first of its queue. */
  lemma QueueShrinks(st: Store, sh: Shape, st': Store, sh': Shape, key: nat)
    requires Sound(st, sh) && Sound(st', sh') && key < |st.appendPtr| == |st'.appendPtr| && st'.args == st.args
    requires sh.ls[Chain(key)] != []
    requires sh'.ls[Chain(key)] == sh.ls[Chain(key)][1..]
    requires (forall k :: 0 <= k < |st.appendPtr| && k != key ==> sh'.ls[Chain(k)] == sh.ls[Chain(k)])
    ensures Queue(st, sh, key) != [] && Queue(st', sh', key) == Queue(st, sh, key)[1..]
    ensures forall k :: 0 <= k < |st.appendPtr| && k != key ==> SameQueue(st, sh, st', sh', k)
  {
    forall k | 0 <= k < |st.appendPtr| && k != key
      ensures SameQueue(st, sh, st', sh', k)
    {
      QueueKept(st, sh, st', sh', k);
    }
  }

  /** Another operation in the last element of a queue, or a change of an element's state: nothing is relinked. */
  lemma FilledKeeps(st: Store, sh: Shape, x: nat, a: Args)
    requires Sound(st, sh) && x < |st.args| && a.key == st.args[x].key
    ensures Sound(st.(args := st.args[x := a]), sh)
    ensures forall k :: 0 <= k < |st.appendPtr| && sh.owner[x] != Chain(k) ==>
      SameQueue(st, sh, st.(args := st.args[x := a]), sh, k)
  {
    var st' := st.(args := st.args[x := a]);
    forall k | 0 <= k < |st.appendPtr| ensures ChainOk(st', sh, k) {
      assert ChainOk(st, sh, k);
      var l := sh.ls[Chain(k)];
      forall i | 0 <= i < |l| ensures ElementOk(st', l, k, i) { assert ElementOk(st, l, k, i); }
    }
    forall i | 0 <= i < |sh.keys| ensures ActiveOk(st', sh, i) { assert ActiveOk(st, sh, i); }
    forall k | 0 <= k < |st.appendPtr| && sh.owner[x] != Chain(k)
      ensures SameQueue(st, sh, st', sh, k)
    {
      QueueKept(st, sh, st', sh, k);
    }
  }

  /** The queue of the element that changed. */
  lemma FilledQueue(st: Store, sh: Shape, k: nat, i: nat, a: Args)
    requires Sound(st, sh) && k < |st.appendPtr| && i < |sh.ls[Chain(k)]| && sh.ls[Chain(k)][i] < |st.args|
    requires a.key == k
    requires Sound(st.(args := st.args[sh.ls[Chain(k)][i] := a]), sh)
    ensures Queue(st.(args := st.args[sh.ls[Chain(k)][i] := a]), sh, k) == Queue(st, sh, k)[i := a]
  {
    var l := sh.ls[Chain(k)];
    Inside(st, sh, Chain(k));
    forall j | 0 <= j < |l| && j != i ensures l[j] != l[i] {
      assert Owned(sh.ls, sh.owner, sh.pos, Chain(k), i) && Owned(sh.ls, sh.owner, sh.pos, Chain(k), j);
    }
  }

  // ---- the progress thread's state ----

  datatype Status = Success | InternalError

  ghost function NoElements(nKeys: nat): Lists {
    if nKeys == 0 then map[Pool := []] else NoElements(nKeys - 1)[Chain(nKeys - 1) := []]
  }

  lemma {:induction false} NoElementsAt(nKeys: nat, w: Where)
    ensures w in NoElements(nKeys) <==> w.Pool? || w.k < nKeys
    ensures w in NoElements(nKeys) ==> NoElements(nKeys)[w] == []
  {
    if nKeys != 0 { NoElementsAt(nKeys - 1, w); }
  }

  class Progress {
    var next: seq<int>
    var nextPeer: seq<int>
    var args: seq<Args>
    var appendPtr: seq<int>
    var active: int
    var pool: int
    ghost var sh: Shape

    ghost function View(): Store
      reads this
    {
      Store(next, nextPeer, args, appendPtr, active, pool)
    }

    ghost predicate Valid()
      reads this
    {
      Sound(View(), sh)
    }

    /** What is in progress under append pointer `k`. */
    ghost function InProgress(k: nat): seq<Args>
      reads this
      requires Valid() && k < |appendPtr|
    {
      Queue(View(), sh, k)
    }

    /** No elements at all, and `nKeys` append pointers. */
    constructor (nKeys: nat)
      ensures Valid() && |appendPtr| == nKeys && forall k :: 0 <= k < nKeys ==> InProgress(k) == []
    {
      next, nextPeer, args, appendPtr := [], [], [], seq(nKeys, _ => NONE);
      active, pool := NONE, NONE;
      sh := Shape(NoElements(nKeys), [], [], [], seq(nKeys, _ => NONE));
      new;
      forall w ensures (w in sh.ls <==> w.Pool? || w.k < nKeys)
      && (w in sh.ls ==> sh.ls[w] == []) { NoElementsAt(nKeys, w); }
    }

    /** allocateArgs, first half: an empty pool gets new elements. */
    method Reserve()
      requires Valid()
      modifies this
      ensures Valid() && pool != NONE && appendPtr == old(appendPtr) && active == old(active) && sh.keys == old(sh.keys)
      ensures forall k :: 0 <= k < |appendPtr| ==> InProgress(k) == old(InProgress(k))
    {
      if pool == NONE {
        ghost var st, sh0 := View(), sh;
        var m := |next|;
        var i := 0;
        while i < POOL_SIZE
          invariant 0 <= i <= POOL_SIZE && |next| == |nextPeer| == |args| == m + i
          invariant next[..m] == st.next && nextPeer[..m] == st.nextPeer && args[..m] == st.args
          invariant forall x :: m <= x < m + i ==> next[x] == if x + 1 < m + POOL_SIZE then x + 1 else NONE
          invariant appendPtr == st.appendPtr && active == st.active && sh == sh0 && pool == st.pool
        {
          next := next + [if i + 1 < POOL_SIZE then m + i + 1 else NONE];
          nextPeer, args := nextPeer + [NONE], args + [Args(0, 0, [], false)];
          i := i + 1;
        }
        pool := m;
        sh := GrownKeeps(st, sh0, View(), POOL_SIZE);
        forall k | 0 <= k < |appendPtr|
          ensures InProgress(k) == old(InProgress(k))
        {
          QueueKept(st, sh0, View(), sh, k);
        }
      }
    }

    /** The last element of the active list. */
    method LastActive() returns (last: int)
      requires Valid() && active != NONE
      ensures sh.keys != [] && last == HeadAt(sh.ls, sh.keys, |sh.keys| - 1)
    {
      last := active;
      ghost var i := 0;
      HeadOwned(View(), sh, 0);
      while next[last] != NONE
        invariant i < |sh.keys| && last == HeadAt(sh.ls, sh.keys, i) && IsElement(View(), last)
        invariant next[last] == HeadAt(sh.ls, sh.keys, i + 1)
        decreases |sh.keys| - i
      {
        i := i + 1;
        HeadOwned(View(), sh, i);
        last := next[last];
      }
      if i + 1 < |sh.keys| { HeadOwned(View(), sh, i + 1); }
    }

    /** A new element behind the last one of its chain. */
    method AppendPeer(op: Op)
      requires Valid() && op.key < |appendPtr| && appendPtr[op.key] != NONE
      modifies this
      ensures Valid() && |appendPtr| == old(|appendPtr|)
      ensures InProgress(op.key) == old(InProgress(op.key)) + [Args(op.key, op.opCount, [op.id], false)]
      ensures forall k :: 0 <= k < |appendPtr| && k != op.key ==> InProgress(k) == old(InProgress(k))
    {
      var prev := appendPtr[op.key];
      Reserve();
      ghost var st, sh0 := View(), sh;
      ghost var sh1 := ChainedKeeps(st, sh0, op);
      PoolPops(st, sh0, next);
      var elem := Allocate(op);
      nextPeer := nextPeer[prev := elem];
      appendPtr := appendPtr[op.key := elem];
      sh := sh1;
      assert View() == Chained(st, op);
      assert sh0.ls[Pool][..1] == [elem];
      QueueGrows(st, sh0, View(), sh, op, elem);
      forall k | 0 <= k < |appendPtr| && k != op.key
        ensures InProgress(k) == old(InProgress(k))
      {
        assert SameQueue(st, sh0, View(), sh, k);
      }
    }

    /** The pool's first element, filled with an operation. */
    method Allocate(op: Op) returns (elem: nat)
      requires IsElement(View(), pool)
      modifies this`pool, this`next, this`nextPeer, this`args
      ensures elem == old(pool) && View() == Allocated(old(View()), op)
    {
      elem := pool;
      pool := next[elem];
      next, nextPeer := next[elem := NONE], nextPeer[elem := NONE];
      args := args[elem := Args(op.key, op.opCount, [op.id], false)];
    }

    /** A new element at the end of the active list. */
    method AppendActive(op: Op)
      requires Valid() && op.key < |appendPtr| && appendPtr[op.key] == NONE
      modifies this
      ensures Valid() && |appendPtr| == old(|appendPtr|)
      ensures InProgress(op.key) == old(InProgress(op.key)) + [Args(op.key, op.opCount, [op.id], false)]
      ensures forall k :: 0 <= k < |appendPtr| && k != op.key ==> InProgress(k) == old(InProgress(k))
    {
      Reserve();
      var last := NONE;
      if active != NONE { last := LastActive(); }
      ghost var st, sh0 := View(), sh;
      KeysWhenActive(st, sh0);
      ghost var sh1 := ActivatedKeeps(st, sh0, op, last);
      PoolPops(st, sh0, next);
      var elem := Allocate(op);
      if active == NONE {
        active := elem;
      } else {
        next := next[last := elem];
      }
      appendPtr := appendPtr[op.key := elem];
      sh := sh1;
      assert View() == Activated(st, op, last);
      assert sh0.ls[Pool][..1] == [elem];
      QueueGrows(st, sh0, View(), sh, op, elem);
      forall k | 0 <= k < |appendPtr| && k != op.key
        ensures InProgress(k) == old(InProgress(k))
      {
        assert SameQueue(st, sh0, View(), sh, k);
      }
    }

    /** An operation joins the last element of its queue. */
    method AppendSub(op: Op) returns (status: Status)
      requires Valid() && op.key < |appendPtr| && InProgress(op.key) != []
      modifies this
      ensures Valid() && |appendPtr| == old(|appendPtr|)
      ensures forall k :: 0 <= k < |appendPtr| && k != op.key ==> InProgress(k) == old(InProgress(k))
      ensures var q := old(InProgress(op.key));
        var a := q[|q| - 1];
        && InProgress(op.key) == (if MAX_SUBS <= |a.subs| then q else q[|q| - 1 := a.(subs := a.subs + [op.id])])
        && status == if MAX_SUBS <= |a.subs| || a.running then InternalError else Success
    {
      ghost var st, l := View(), sh.ls[Chain(op.key)];
      AppendPtrIsLast(st, sh, op.key);
      assert ChainOk(st, sh, op.key) && ElementOk(st, l, op.key, |l| - 1);
      var x := appendPtr[op.key];
      if MAX_SUBS <= |args[x].subs| { return InternalError; }
      FilledKeeps(st, sh, x, args[x].(subs := args[x].subs + [op.id]));
      FilledQueue(st, sh, op.key, |l| - 1, args[x].(subs := args[x].subs + [op.id]));
      args := args[x := args[x].(subs := args[x].subs + [op.id])];
      assert View() == st.(args := args);
      forall k | 0 <= k < |appendPtr| && k != op.key
        ensures InProgress(k) == old(InProgress(k))
      {
        assert SameQueue(st, sh, View(), sh, k);
      }
      status := if args[x].running then InternalError else Success;
    }

    /** ProxyAppend. */
    method ProxyAppend(op: Op) returns (status: Status)
      requires Valid() && op.key < |appendPtr|
      modifies this
      ensures Valid() && |appendPtr| == old(|appendPtr|)
      ensures forall k :: 0 <= k < |appendPtr| && k != op.key ==> InProgress(k) == old(InProgress(k))
      ensures var q := old(InProgress(op.key));
        if Joins(q, op) then
          var a := q[|q| - 1];
          && InProgress(op.key) == (if MAX_SUBS <= |a.subs| then q else q[|q| - 1 := a.(subs := a.subs + [op.id])])
          && status == if MAX_SUBS <= |a.subs| || a.running then InternalError else Success
        else
          status == Success && InProgress(op.key) == q + [Args(op.key, op.opCount, [op.id], false)]
    {
      status := Success;
      AppendPtrIsLast(View(), sh, op.key);
      Inside(View(), sh, Chain(op.key));
      var x := appendPtr[op.key];
      if x != NONE {
        if op.shared && args[x].opCount == op.opCount {
          status := AppendSub(op);
        } else {
          AppendPeer(op);
        }
      } else {
        AppendActive(op);
      }
    }

    /** removeOp: element number `i` of the active list has finished; go on behind its place. */
    method RemoveOp(op: int, prevOp: int, ghost i: nat) returns (op': int, prevOp': int, ghost i': nat)
      requires Valid() && i < |sh.keys| && op == HeadAt(sh.ls, sh.keys, i) && prevOp == Before(sh, i)
      requires sh.keys[i] < |appendPtr|
      modifies this
      ensures Valid() && |appendPtr| == old(|appendPtr|) && old(InProgress(sh.keys[i])) != []
      ensures InProgress(old(sh.keys[i])) == old(InProgress(sh.keys[i]))[1..]
      ensures forall k :: 0 <= k < |appendPtr| && k != old(sh.keys[i]) ==> InProgress(k) == old(InProgress(k))
      ensures i' <= |sh.keys| && op' == HeadAt(sh.ls, sh.keys, i') && prevOp' == Before(sh, i')
      ensures sh.keys[i'..] == old(sh.keys[i + 1..])
    {
      ghost var st, sh0, k := View(), sh, sh.keys[i];
      CanRemove(st, sh0, i);
      ghost var sh1;
      sh1, i' := RemovedKeeps(st, sh0, i);
      var after, y := next[op], nextPeer[op];
      op', prevOp' := after, prevOp;
      if y != NONE {
        if prevOp != NONE { next := next[prevOp := y]; } else { active := y; }
        next := next[y := after];
        prevOp' := y;
      } else {
        appendPtr := appendPtr[args[op].key := NONE];
        if prevOp != NONE { next := next[prevOp := after]; } else { active := after; }
      }
      next := next[op := pool];
      pool := op;
      sh := sh1;
      assert View() == Removed(st, op, prevOp);
      QueueShrinks(st, sh0, View(), sh, k);
      forall j | 0 <= j < |appendPtr| && j != k
        ensures InProgress(j) == old(InProgress(j))
      {
        assert SameQueue(st, sh0, View(), sh, j);
      }
    }

    /** The element at `op` was given a chance to progress and did not finish. */
    method Started(op: int, ghost i: nat)
      requires Valid() && i < |sh.keys| && op == HeadAt(sh.ls, sh.keys, i) && sh.keys[i] < |appendPtr|
      modifies this`args
      ensures Valid() && IsElement(View(), op) && next[op] == HeadAt(sh.ls, sh.keys, i + 1)
      ensures InProgress(sh.keys[i]) == Marked(old(InProgress(sh.keys[i])))
      ensures forall k :: 0 <= k < |appendPtr| && k != sh.keys[i] ==> InProgress(k) == old(InProgress(k))
    {
      ghost var st, k := View(), sh.keys[i];
      CanRemove(st, sh, i);
      FilledKeeps(st, sh, op, args[op].(running := true));
      FilledQueue(st, sh, k, 0, args[op].(running := true));
      args := args[op := args[op].(running := true)];
      assert View() == st.(args := args);
      HeadOwned(st, sh, i);
      forall j | 0 <= j < |appendPtr| && j != k
        ensures InProgress(j) == old(InProgress(j))
      {
        assert SameQueue(st, sh, View(), sh, j);
      }
    }

    /** One element's chance to progress; how it fares is not known here. */
    method Visit(op: int, prevOp: int, ghost i: nat) returns (op': int, prevOp': int, ghost i': nat)
      requires Valid() && i < |sh.keys| && op == HeadAt(sh.ls, sh.keys, i) && prevOp == Before(sh, i)
      requires sh.keys[i] < |appendPtr|
      modifies this
      ensures Valid() && |appendPtr| == old(|appendPtr|) && old(InProgress(sh.keys[i])) != []
      ensures Passed(old(InProgress(sh.keys[i])), InProgress(old(sh.keys[i])))
      ensures forall k :: 0 <= k < |appendPtr| && k != old(sh.keys[i]) ==> InProgress(k) == old(InProgress(k))
      ensures i' <= |sh.keys| && op' == HeadAt(sh.ls, sh.keys, i') && prevOp' == Before(sh, i')
      ensures sh.keys[i'..] == old(sh.keys[i + 1..])
    {
      var finished := *;
      if finished {
        op', prevOp', i' := RemoveOp(op, prevOp, i);
      } else {
        Started(op, i);
        prevOp', op' := op, next[op];
        i' := i + 1;
      }
    }

    /** progressOps: the first element of every queue gets one chance to progress; it is running afterwards, or gone. */
    method ProgressOps()
      requires Valid()
      modifies this
      ensures Valid() && |appendPtr| == old(|appendPtr|)
      ensures forall k :: 0 <= k < |appendPtr| ==> Passed(old(InProgress(k)), InProgress(k))
    {
      forall k | 0 <= k < |appendPtr| && k !in sh.keys ensures InProgress(k) == [] { assert ChainOk(View(), sh, k); }
      var prevOp, op := NONE, active;
      ghost var i: nat := 0;
      while op != NONE
        invariant Valid() && |appendPtr| == old(|appendPtr|)
        invariant i <= |sh.keys| && op == HeadAt(sh.ls, sh.keys, i) && prevOp == Before(sh, i)
        invariant forall k :: 0 <= k < |appendPtr| && k !in sh.keys[i..] ==> Passed(old(InProgress(k)), InProgress(k))
        invariant forall k :: 0 <= k < |appendPtr| && k in sh.keys[i..] ==> InProgress(k) == old(InProgress(k))
        decreases |sh.keys| - i
      {
        HeadOwned(View(), sh, i);
        KeyOnce(View(), sh, i);
        assert sh.keys[i..] == [sh.keys[i]] + sh.keys[i + 1..];
        op, prevOp, i := Visit(op, prevOp, i);
      }
      if i < |sh.keys| { HeadOwned(View(), sh, i); }
    }
  }

  /** The first element of a queue is in progress. */
  ghost function Marked(q: seq<Args>): seq<Args> { if q == [] then [] else q[0 := q[0].(running := true)] }

  /** What a pass does to a queue: its first element is running, or has finished and the next one is first. */
  ghost predicate Passed(q: seq<Args>, q': seq<Args>) { q' == Marked(q) || (q != [] && q' == q[1..]) }

  lemma KeyOnce(st: Store, sh: Shape, i: nat)
    requires Sound(st, sh) && i < |sh.keys|
    ensures sh.keys[i] !in sh.keys[i + 1..]
  {
    forall j | i < j < |sh.keys| ensures sh.keys[j] != sh.keys[i] { OtherKey(st, sh, i, j); }
  }

  /** The operation belongs to the element appended last. */
  predicate Joins(q: seq<Args>, op: Op) { q != [] && op.shared && q[|q| - 1].opCount == op.opCount }

  lemma KeysWhenActive(st: Store, sh: Shape)
    requires Sound(st, sh)
    ensures st.active == NONE <==> sh.keys == []
  {
    if sh.keys != [] { HeadOwned(st, sh, 0); }
  }
}
