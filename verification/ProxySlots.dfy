/**
 The pool of proxy operations shared by the ranks of a node and one progress thread, as a state
 machine over its atomic steps. A rank takes free slots, fills them into a chain and posts it; the
 progress thread takes the posted chain, consumes it and gives the slots back, racing with the rank
 that may take the free list at any moment.
 */
module ProxySlots {
  import opened Arith
  import opened SlotLists

  /**
   Where a slot can be: a rank's shared free list, its private free list, the chain it is filling, the chain posted
   for the progress thread, the chain that thread works on, and what it has to give back to a rank.
   */
  datatype Place = Shared(r: nat) | Private(r: nat) | Pending(r: nat) | Posted | Rest | Freed(r: nat)

  type Lists = map<Place, seq<nat>>

  /** Ranks, operations per rank, and how many groups one drain takes. */
  datatype Config = Config(ranks: nat, ops: nat, batch: nat)

  predicate ConfigOk(cfg: Config) { 0 < cfg.ranks && 0 < cfg.ops }

  /** A rank is between calls, or has read its shared free list and is about to swap it out. */
  datatype RankPc = Ready | Loaded(f: int)

  datatype Rank = Rank(freeOp: int, nextOps: int, nextOpsEnd: int, count: nat, pc: RankPc)

  /** The progress thread: between calls, draining, giving back to rank `i`, with the freed list linked to the head it
      read, after losing the race, or after the internal error that ends it. */
  datatype ProgressPc =
    | Idle
    | Draining(lastOpCount: nat, lastPeer: int, count: nat)
    | Returning(i: nat)
    | LinkedTo(i: nat, oldFree: int)
    | Lost(i: nat)
    | InternalError

  datatype State = State(next: seq<int>, opCount: seq<nat>, poolNext: int, poolEnd: int, freeOps: seq<int>,
      ranks: seq<Rank>,
                         nextOps: int, freeOp: seq<int>, freeOpEnd: seq<int>, pc: ProgressPc)

  datatype Action = Read(r: nat) | Swap(r: nat) | Append(r: nat, opCount: nat) | Overflow(r: nat) | Start(r: nat)
    | Grab | Resume | Drain | Link | Give | Store

  /** The home of a slot. */
  function Home(cfg: Config, x: nat): nat
    requires ConfigOk(cfg)
  {
    DivNonneg(x, cfg.ops);
    x / cfg.ops
  }

  // ---- steps ----

  /** ncclProxyPost. */
  function Posting(s: State, first: int, last: int): State {
    var next := if s.poolNext == NONE || !(0 <= s.poolEnd < |s.next|) then s.next else s.next[s.poolEnd := first];
    s.(next := next, poolNext := if s.poolNext == NONE then first else s.poolNext, poolEnd := last)
  }

  /** Where a full chain is cut: the last operation, before the chain's end, whose id differs from the end's. */
  function Scan(next: seq<int>, opCount: seq<nat>, op: int, end: int, c: nat, ops: nat, lastOp: int, toSend: nat,
      fuel: nat): (int, nat)
    decreases fuel
  {
    if fuel == 0 || op == end || !(0 <= op < |next| && op < |opCount|) then (lastOp, toSend)
    else if opCount[op] != c then Scan(next, opCount, next[op], end, c, ops + 1, op, ops + 1, fuel - 1)
    else Scan(next, opCount, next[op], end, c, ops + 1, lastOp, toSend, fuel - 1)
  }

  function CutOf(s: State, r: nat): (int, nat)
    requires r < |s.ranks|
  {
    var k := s.ranks[r];
    if 0 <= k.nextOpsEnd < |s.opCount| then Scan(s.next, s.opCount, k.nextOps, k.nextOpsEnd, s.opCount[k.nextOpsEnd], 0,
        NONE, 0, k.count)
    else (NONE, 0)
  }

  /** A new group of operations begins. */
  predicate Boundary(cfg: Config, s: State, x: nat)
    requires ConfigOk(cfg) && s.pc.Draining? && x < |s.opCount|
  {
    (s.pc.lastOpCount != 0 && s.opCount[x] != s.pc.lastOpCount)
    || (s.pc.lastPeer != NONE && Home(cfg, x) != s.pc.lastPeer)
  }

  predicate Sized(cfg: Config, s: State) {
    && |s.next| == |s.opCount| == cfg.ranks * cfg.ops
    && |s.freeOps| == |s.ranks| == |s.freeOp| == |s.freeOpEnd| == cfg.ranks
  }

  predicate IsSlot(s: State, x: int) { 0 <= x < |s.next| }

  predicate Enabled(cfg: Config, s: State, a: Action)
    requires ConfigOk(cfg) && Sized(cfg, s)
  {
    match a
    case Read(r) => r < cfg.ranks && s.ranks[r].pc == Ready && s.ranks[r].freeOp == NONE && s.freeOps[r] != NONE
    case Swap(r) => r < cfg.ranks && s.ranks[r].pc.Loaded?
    case Append(r, _) => r < cfg.ranks && s.ranks[r].pc == Ready && IsSlot(s, s.ranks[r].freeOp)
      && s.ranks[r].count < cfg.ops
    case Overflow(r) => r < cfg.ranks && s.ranks[r].pc == Ready && s.ranks[r].count == cfg.ops
      && IsSlot(s, CutOf(s, r).0) && CutOf(s, r).1 <= s.ranks[r].count
    case Start(r) => r < cfg.ranks && s.ranks[r].pc == Ready && s.ranks[r].nextOps != NONE
    case Grab => s.pc == Idle && s.nextOps == NONE
    case Resume => s.pc == Idle && s.nextOps != NONE
    case Drain => s.pc.Draining? && (s.nextOps == NONE || IsSlot(s, s.nextOps))
    case Link => s.pc.Returning? && (s.pc.i < cfg.ranks && s.freeOp[s.pc.i] != NONE ==> IsSlot(s, s.freeOpEnd[s.pc.i]))
    case Give => s.pc.LinkedTo? && s.pc.i < cfg.ranks && IsSlot(s, s.freeOpEnd[s.pc.i])
    case Store => s.pc.Lost? && s.pc.i < cfg.ranks
  }

  function Apply(cfg: Config, s: State, a: Action): State
    requires ConfigOk(cfg) && Sized(cfg, s) && Enabled(cfg, s, a)
  {
    match a
    case Read(r) => s.(ranks := s.ranks[r := s.ranks[r].(pc := Loaded(s.freeOps[r]))])
    case Swap(r) => ApplySwap(s, r)
    case Append(r, c) => ApplyAppend(s, r, c)
    case Overflow(r) => ApplyOverflow(s, r)
    case Start(r) =>
      var emptied := s.ranks[r].(nextOps := NONE, nextOpsEnd := NONE, count := 0);
      Posting(s, s.ranks[r].nextOps, s.ranks[r].nextOpsEnd).(ranks := s.ranks[r := emptied])
    case Grab => s.(nextOps := s.poolNext, poolNext := NONE, poolEnd := NONE, pc := Draining(0, NONE, 0))
    case Resume => s.(pc := Draining(0, NONE, 0))
    case Drain => ApplyDrain(cfg, s)
    case Link => ApplyLink(cfg, s)
    case Give => ApplyGive(s)
    case Store => Given(s, s.pc.i)
  }

  function ApplySwap(s: State, r: nat): State
    requires r < |s.ranks| == |s.freeOps| && s.ranks[r].pc.Loaded?
  {
    var k := s.ranks[r];
    if s.freeOps[r] == k.pc.f then s.(freeOps := s.freeOps[r := NONE],
        ranks := s.ranks[r := k.(freeOp := k.pc.f, pc := Ready)])
    else s.(ranks := s.ranks[r := k.(pc := Loaded(s.freeOps[r]))])
  }

  function ApplyAppend(s: State, r: nat, c: nat): State
    requires r < |s.ranks| && IsSlot(s, s.ranks[r].freeOp) && |s.next| == |s.opCount|
  {
    var k := s.ranks[r];
    var x := k.freeOp;
    var next := s.next[x := NONE];
    if k.nextOps == NONE then
      s.(next := next, opCount := s.opCount[x := c], ranks := s.ranks[r := k.(freeOp := s.next[x], nextOps := x,
          nextOpsEnd := x, count := k.count + 1)])
    else
      var linked := if 0 <= k.nextOpsEnd < |next| then next[k.nextOpsEnd := x] else next;
      s.(next := linked, opCount := s.opCount[x := c], ranks := s.ranks[r := k.(freeOp := s.next[x], nextOpsEnd := x,
          count := k.count + 1)])
  }

  function ApplyOverflow(s: State, r: nat): State
    requires r < |s.ranks| && IsSlot(s, CutOf(s, r).0) && CutOf(s, r).1 <= s.ranks[r].count
  {
    var k := s.ranks[r];
    var (lastOp, toSend) := CutOf(s, r);
    var cut := s.(next := s.next[lastOp := NONE], ranks := s.ranks[r := k.(nextOps := s.next[lastOp],
        count := k.count - toSend)]);
    Posting(cut, k.nextOps, lastOp)
  }

  function ApplyDrain(cfg: Config, s: State): State
    requires ConfigOk(cfg) && Sized(cfg, s) && s.pc.Draining? && (s.nextOps == NONE || IsSlot(s, s.nextOps))
  {
    if s.nextOps == NONE then s.(pc := Returning(0)) else
    var x := s.nextOps;
    var count := s.pc.count + if Boundary(cfg, s, x) then 1 else 0;
    if count == cfg.batch + 1 then s.(pc := Returning(0)) else
    SlotHome(cfg, x);
    var peer := Home(cfg, x);
    s.(next := if s.freeOp[peer] == NONE then s.next else s.next[x := s.freeOp[peer]],
       nextOps := s.next[x],
       freeOp := s.freeOp[peer := x],
       freeOpEnd := if s.freeOp[peer] == NONE then s.freeOpEnd[peer := x] else s.freeOpEnd,
       pc := Draining(s.opCount[x], peer, count))
  }

  lemma SlotHome(cfg: Config, x: nat)
    requires ConfigOk(cfg) && x < cfg.ranks * cfg.ops
    ensures Home(cfg, x) < cfg.ranks
  {
    DivBelow(x, cfg.ops, cfg.ranks);
  }

  function ApplyLink(cfg: Config, s: State): State
    requires Sized(cfg, s) && s.pc.Returning?
    requires (s.pc.i < cfg.ranks && s.freeOp[s.pc.i] != NONE ==> IsSlot(s, s.freeOpEnd[s.pc.i]))
  {
    var i := s.pc.i;
    if cfg.ranks <= i then s.(pc := Idle)
    else if s.freeOp[i] == NONE then s.(pc := Returning(i + 1))
    else s.(next := s.next[s.freeOpEnd[i] := s.freeOps[i]], pc := LinkedTo(i, s.freeOps[i]))
  }

  /** The freed list of rank `i` has become its shared free list. */
  function Given(s: State, i: nat): State
    requires i < |s.freeOps| == |s.freeOp|
  {
    s.(freeOps := s.freeOps[i := s.freeOp[i]], freeOp := s.freeOp[i := NONE], pc := Returning(i + 1))
  }

  function ApplyGive(s: State): State
    requires s.pc.LinkedTo? && s.pc.i < |s.freeOps| == |s.freeOp| == |s.freeOpEnd| && IsSlot(s, s.freeOpEnd[s.pc.i])
  {
    var i, seen := s.pc.i, s.pc.oldFree;
    if seen == NONE || s.freeOps[i] == seen then Given(s, i)
    else if s.freeOps[i] != NONE then s.(pc := InternalError)
    else s.(next := s.next[s.freeOpEnd[i] := NONE], pc := Lost(i))
  }

  // ---- invariant ----

  predicate IsPlace(cfg: Config, p: Place) { p.Posted? || p.Rest? || p.r < cfg.ranks }

  ghost predicate Domain(cfg: Config, ls: Lists) { forall p :: p in ls <==> IsPlace(cfg, p) }

  /**
   Where the last slot of a list leads; the progress thread leaves the end of a freed list dangling until it gives it
   back.
   */
  ghost function TailOf(next: seq<int>, p: Place, l: seq<nat>): int {
    if p.Freed? && l != [] && l[|l| - 1] < |next| then next[l[|l| - 1]] else NONE
  }

  ghost predicate LinksOk(next: seq<int>, ls: Lists) {
    forall p :: p in ls ==> Linked(next, ls[p], TailOf(next, p, ls[p]))
  }

  ghost predicate RankOk(s: State, ls: Lists, r: nat)
    requires r < |s.ranks| == |s.freeOps| == |s.freeOp| == |s.freeOpEnd|
    requires Shared(r) in ls && Private(r) in ls && Pending(r) in ls && Freed(r) in ls
  {
    var k := s.ranks[r];
    && s.freeOps[r] == Head(ls[Shared(r)])
    && k.freeOp == Head(ls[Private(r)])
    && k.nextOps == Head(ls[Pending(r)]) && k.nextOpsEnd == Last(ls[Pending(r)]) && k.count == |ls[Pending(r)]|
    && (k.pc.Loaded? ==> ls[Private(r)] == [] && ls[Shared(r)] != [])
    && s.freeOp[r] == Head(ls[Freed(r)]) && (ls[Freed(r)] != [] ==> s.freeOpEnd[r] == Last(ls[Freed(r)]))
  }

  ghost predicate HeadsOk(cfg: Config, s: State, ls: Lists)
    requires Sized(cfg, s) && Domain(cfg, ls)
  {
    && s.poolNext == Head(ls[Posted]) && s.poolEnd == Last(ls[Posted])
    && s.nextOps == Head(ls[Rest])
    && (forall r :: 0 <= r < cfg.ranks ==> RankOk(s, ls, r))
    && forall r :: 0 <= r < cfg.ranks ==> s.ranks[r].count <= cfg.ops
  }

  /** A slot that a rank has, or will get back, is one of its own. */
  ghost predicate AtHome(cfg: Config, ls: Lists, p: Place, i: nat)
    requires ConfigOk(cfg) && p in ls && i < |ls[p]|
  {
    p.Posted? || p.Rest? || Home(cfg, ls[p][i]) == p.r
  }

  ghost predicate HomesOk(cfg: Config, ls: Lists)
    requires ConfigOk(cfg)
  {
    forall p, i :: p in ls && 0 <= i < |ls[p]| ==> AtHome(cfg, ls, p, i)
  }

  /** What the progress thread knows about the race it is in. */
  ghost predicate PcOk(cfg: Config, s: State, ls: Lists)
    requires Sized(cfg, s) && Domain(cfg, ls)
  {
    match s.pc
    case Idle => forall r :: 0 <= r < cfg.ranks ==> ls[Freed(r)] == []
    case Draining(_, _, _) => true
    case Returning(i) => forall r :: 0 <= r < i && r < cfg.ranks ==> ls[Freed(r)] == []
    case LinkedTo(i, f) =>
      && i < cfg.ranks && ls[Freed(i)] != [] && (forall r :: 0 <= r < i ==> ls[Freed(r)] == [])
      && TailOf(s.next, Freed(i), ls[Freed(i)]) == f
      && (ls[Shared(i)] == [] || Head(ls[Shared(i)]) == f)
    case Lost(i) =>
      && i < cfg.ranks && ls[Freed(i)] != [] && (forall r :: 0 <= r < i ==> ls[Freed(r)] == [])
      && TailOf(s.next, Freed(i), ls[Freed(i)]) == NONE
      && ls[Shared(i)] == []
    case InternalError => false
  }

  /** Every slot is in one list, the lists are linked as the heads say, and slots stay with their ranks. */
  ghost predicate Inv(cfg: Config, s: State, ls: Lists, owner: seq<Place>, pos: seq<nat>) {
    && ConfigOk(cfg) && Sized(cfg, s) && |owner| == |s.next| && Domain(cfg, ls)
    && Partition(ls, owner, pos) && LinksOk(s.next, ls) && HeadsOk(cfg, s, ls) && HomesOk(cfg, ls) && PcOk(cfg, s, ls)
  }

  // ---- lists not involved in a step ----

  /** Relinking slots of lists `a` and `b` leaves the others alone. */
  lemma OthersLinked(ls: Lists, owner: seq<Place>, pos: seq<nat>, next: seq<int>, next': seq<int>, a: Place, b: Place)
    requires Partition(ls, owner, pos) && LinksOk(next, ls) && |owner| == |next| == |next'|
    requires forall x :: 0 <= x < |next| && owner[x] != a && owner[x] != b ==> next'[x] == next[x]
    ensures forall p :: p in ls && p != a && p != b ==> Linked(next', ls[p], TailOf(next', p, ls[p]))
  {
    forall p | p in ls && p != a && p != b ensures Linked(next', ls[p], TailOf(next', p, ls[p])) {
      var l, tail := ls[p], TailOf(next, p, ls[p]);
      assert Linked(next, l, tail);
      forall i | 0 <= i < |l|
        ensures LinkAt(next', l, tail, i)
      {
        assert Owned(ls, owner, pos, p, i) && LinkAt(next, l, tail, i);
      }
      if l != [] { assert LinkAt(next', l, tail, |l| - 1); }
    }
  }

  /** Links after a move, from those of the two lists involved. */
  lemma MovedLinks(ls: Lists, owner: seq<Place>, pos: seq<nat>, next: seq<int>, next': seq<int>, a: Place, b: Place,
      n: nat, front: bool)
    requires Partition(ls, owner, pos) && LinksOk(next, ls) && |owner| == |next| == |next'|
    requires forall x :: 0 <= x < |next| && owner[x] != a && owner[x] != b ==> next'[x] == next[x]
    requires a in ls && b in ls && a != b && n <= |ls[a]|
    requires var ls' := Moved(ls, a, b, n, front);
      Linked(next', ls'[a], TailOf(next', a, ls'[a])) && Linked(next', ls'[b], TailOf(next', b, ls'[b]))
    ensures LinksOk(next', Moved(ls, a, b, n, front))
  {
    OthersLinked(ls, owner, pos, next, next', a, b);
  }

  lemma MovedHomes(cfg: Config, ls: Lists, a: Place, b: Place, n: nat, front: bool)
    requires ConfigOk(cfg) && HomesOk(cfg, ls) && a in ls && b in ls && a != b && n <= |ls[a]|
    requires forall i :: 0 <= i < n ==> b.Posted? || b.Rest? || Home(cfg, ls[a][i]) == b.r
    ensures HomesOk(cfg, Moved(ls, a, b, n, front))
  {
    var ls' := Moved(ls, a, b, n, front);
    forall p, i | p in ls' && 0 <= i < |ls'[p]| ensures AtHome(cfg, ls', p, i) {
      if p == a {
        assert AtHome(cfg, ls, a, n + i);
      } else if p != b {
        assert AtHome(cfg, ls, p, i);
      } else if front {
        if n <= i { assert AtHome(cfg, ls, b, i - n); }
      } else {
        if i < |ls[b]| { assert AtHome(cfg, ls, b, i); }
      }
    }
  }

  // ---- the rank's steps ----

  lemma ReadKeeps(cfg: Config, s: State, ls: Lists, owner: seq<Place>, pos: seq<nat>, r: nat)
    requires Inv(cfg, s, ls, owner, pos) && Enabled(cfg, s, Read(r))
    ensures Inv(cfg, Apply(cfg, s, Read(r)), ls, owner, pos)
  {
    var s' := Apply(cfg, s, Read(r));
    forall q | 0 <= q < cfg.ranks ensures RankOk(s', ls, q) { assert RankOk(s, ls, q); }
  }

  /** Everything but heads and the progress thread's knowledge follows from the move itself. */
  lemma MoveKeeps(cfg: Config, s: State, s': State, ls: Lists, owner: seq<Place>, pos: seq<nat>, a: Place, b: Place,
      n: nat, front: bool)
    returns (owner': seq<Place>, pos': seq<nat>)
    requires Inv(cfg, s, ls, owner, pos) && Sized(cfg, s') && a in ls && b in ls && a != b && n <= |ls[a]|
    requires b.Posted? || b.Rest? || forall i :: 0 <= i < n ==> Home(cfg, ls[a][i]) == b.r
    requires LinksOk(s'.next, Moved(ls, a, b, n, front))
    requires HeadsOk(cfg, s', Moved(ls, a, b, n, front)) && PcOk(cfg, s', Moved(ls, a, b, n, front))
    ensures Inv(cfg, s', Moved(ls, a, b, n, front), owner', pos')
  {
    owner', pos' := MoveKeepsPartition(ls, owner, pos, a, b, n, front);
    MovedHomes(cfg, ls, a, b, n, front);
  }

  /** A rank keeps its slots: the places of rank `r` hold slots whose home is `r`. */
  lemma SameHome(cfg: Config, ls: Lists, a: Place, n: nat)
    requires ConfigOk(cfg) && HomesOk(cfg, ls) && a in ls && n <= |ls[a]| && !a.Posted? && !a.Rest?
    ensures forall i :: 0 <= i < n ==> Home(cfg, ls[a][i]) == a.r
  {
    forall i | 0 <= i < n ensures Home(cfg, ls[a][i]) == a.r { assert AtHome(cfg, ls, a, i); }
  }

  /** A whole list moves onto an empty one: links stay as they are. */
  lemma WholeLinks(ls: Lists, owner: seq<Place>, pos: seq<nat>, next: seq<int>, a: Place, b: Place)
    requires Partition(ls, owner, pos) && LinksOk(next, ls) && |owner| == |next| && a in ls && b in ls && a != b
    requires ls[b] == [] && !a.Freed? && !b.Freed?
    ensures LinksOk(next, Moved(ls, a, b, |ls[a]|, true))
  {
    var ls' := Moved(ls, a, b, |ls[a]|, true);
    assert ls'[a] == [] && ls'[b] == ls[a];
    assert Linked(next, ls[a], NONE);
    MovedLinks(ls, owner, pos, next, next, a, b, |ls[a]|, true);
  }

  lemma SwapHeads(cfg: Config, s: State, ls: Lists, owner: seq<Place>, pos: seq<nat>, r: nat)
    requires Inv(cfg, s, ls, owner, pos) && Enabled(cfg, s, Swap(r)) && s.freeOps[r] == s.ranks[r].pc.f
    ensures ls[Private(r)] == []
    ensures var ls' := Moved(ls, Shared(r), Private(r), |ls[Shared(r)]|, true);
      HeadsOk(cfg, Apply(cfg, s, Swap(r)), ls') && PcOk(cfg, Apply(cfg, s, Swap(r)), ls')
  {
    var s' := Apply(cfg, s, Swap(r));
    assert RankOk(s, ls, r);
    var ls' := Moved(ls, Shared(r), Private(r), |ls[Shared(r)]|, true);
    assert ls'[Shared(r)] == [] && ls'[Private(r)] == ls[Shared(r)];
    forall q | 0 <= q < cfg.ranks ensures RankOk(s', ls', q) { assert RankOk(s, ls, q); }
  }

  lemma SwapKeeps(cfg: Config, s: State, ls: Lists, owner: seq<Place>, pos: seq<nat>, r: nat)
    returns (ls': Lists, owner': seq<Place>, pos': seq<nat>)
    requires Inv(cfg, s, ls, owner, pos) && Enabled(cfg, s, Swap(r))
    ensures Inv(cfg, Apply(cfg, s, Swap(r)), ls', owner', pos')
    ensures ls' == ls || (ls[Private(r)] == [] && ls' == Moved(ls, Shared(r), Private(r), |ls[Shared(r)]|, true))
  {
    var s' := Apply(cfg, s, Swap(r));
    if s.freeOps[r] == s.ranks[r].pc.f {
      var a, b, n := Shared(r), Private(r), |ls[Shared(r)]|;
      SwapHeads(cfg, s, ls, owner, pos, r);
      WholeLinks(ls, owner, pos, s.next, a, b);
      SameHome(cfg, ls, a, n);
      ls' := Moved(ls, a, b, n, true);
      owner', pos' := MoveKeeps(cfg, s, s', ls, owner, pos, a, b, n, true);
    } else {
      ls', owner', pos' := ls, owner, pos;
      forall q | 0 <= q < cfg.ranks ensures RankOk(s', ls, q) { assert RankOk(s, ls, q); }
    }
  }

  /** The first slot of a private list goes to the end of the chain being filled. */
  lemma AppendLinks(cfg: Config, s: State, ls: Lists, owner: seq<Place>, pos: seq<nat>, r: nat, c: nat)
    requires Inv(cfg, s, ls, owner, pos) && Enabled(cfg, s, Append(r, c))
    ensures ls[Private(r)] != []
    ensures LinksOk(Apply(cfg, s, Append(r, c)).next, Moved(ls, Private(r), Pending(r), 1, false))
    ensures s.next[s.ranks[r].freeOp] == Head(ls[Private(r)][1..])
  {
    assert RankOk(s, ls, r);
    HeadToEnd(ls, owner, pos, s.next, Private(r), Pending(r));
    assert LinkAt(s.next, ls[Private(r)], NONE, 0);
  }

  /** The links of that move, on the lists alone. */
  function Relinked(next: seq<int>, x: nat, end: int): seq<int>
    requires x < |next|
  {
    if end == NONE then next[x := NONE] else if 0 <= end < |next| then next[x := NONE][end := x] else next[x := NONE]
  }

  lemma HeadToEnd(ls: Lists, owner: seq<Place>, pos: seq<nat>, next: seq<int>, a: Place, b: Place)
    requires Partition(ls, owner, pos) && LinksOk(next, ls) && |owner| == |next| && a in ls && b in ls && a != b
    requires !a.Freed? && !b.Freed? && ls[a] != []
    ensures ls[a][0] < |next| && LinksOk(Relinked(next, ls[a][0], Last(ls[b])), Moved(ls, a, b, 1, false))
  {
    assert Owned(ls, owner, pos, a, 0);
    var x := ls[a][0];
    var next' := Relinked(next, x, Last(ls[b]));
    assert Linked(next, ls[a], NONE) && Linked(next, ls[b], NONE);
    assert ls[b] == [] || Owned(ls, owner, pos, b, |ls[b]| - 1);
    LinkedSuffix(next, ls[a], 1, NONE);
    var rest := ls[a][1..];
    forall i | 0 <= i < |rest| ensures LinkAt(next', rest, NONE, i) {
      assert LinkAt(next, rest, NONE, i) && Owned(ls, owner, pos, a, i + 1);
    }
    EndGrows(ls, owner, pos, next, b, x);
    assert Moved(ls, a, b, 1, false)[b] == ls[b] + [x];
    MovedLinks(ls, owner, pos, next, next', a, b, 1, false);
  }

  lemma EndGrows(ls: Lists, owner: seq<Place>, pos: seq<nat>, next: seq<int>, b: Place, x: nat)
    requires Partition(ls, owner, pos) && b in ls && Linked(next, ls[b], NONE) && |owner| == |next|
    requires x < |next| && owner[x] != b
    ensures Linked(Relinked(next, x, Last(ls[b])), ls[b] + [x], NONE)
  {
    var l, l', next' := ls[b], ls[b] + [x], Relinked(next, x, Last(ls[b]));
    assert l == [] || Owned(ls, owner, pos, b, |l| - 1);
    forall i | 0 <= i < |l'| ensures LinkAt(next', l', NONE, i) {
      if i < |l| { assert Owned(ls, owner, pos, b, i) && LinkAt(next, l, NONE, i); }
    }
  }

  lemma AppendHeads(cfg: Config, s: State, ls: Lists, owner: seq<Place>, pos: seq<nat>, r: nat, c: nat)
    requires Inv(cfg, s, ls, owner, pos) && Enabled(cfg, s, Append(r, c)) && ls[Private(r)] != []
    requires s.next[s.ranks[r].freeOp] == Head(ls[Private(r)][1..])
    ensures HeadsOk(cfg, Apply(cfg, s, Append(r, c)), Moved(ls, Private(r), Pending(r), 1, false))
  {
    var s', ls' := Apply(cfg, s, Append(r, c)), Moved(ls, Private(r), Pending(r), 1, false);
    assert ls'[Pending(r)] == ls[Pending(r)] + [ls[Private(r)][0]];
    forall q | 0 <= q < cfg.ranks ensures RankOk(s', ls', q) { assert RankOk(s, ls, q); }
  }

  /** The slots of lists that do not change keep their links, in particular the end of a freed list. */
  lemma PcKept(cfg: Config, s: State, s': State, ls: Lists, owner: seq<Place>, pos: seq<nat>, a: Place, b: Place,
      n: nat)
    requires Inv(cfg, s, ls, owner, pos) && Sized(cfg, s') && s'.pc == s.pc && a in ls && b in ls && a != b
    requires n <= |ls[a]|
    requires !a.Freed? && !b.Freed? && !a.Shared? && !b.Shared?
    requires forall x :: 0 <= x < |s.next| && owner[x] != a && owner[x] != b ==> s'.next[x] == s.next[x]
    ensures PcOk(cfg, s', Moved(ls, a, b, n, false))
  {
    if s.pc.LinkedTo? || s.pc.Lost? { assert Owned(ls, owner, pos, Freed(s.pc.i), |ls[Freed(s.pc.i)]| - 1); }
  }

  lemma AppendKeeps(cfg: Config, s: State, ls: Lists, owner: seq<Place>, pos: seq<nat>, r: nat, c: nat)
    returns (owner': seq<Place>, pos': seq<nat>)
    requires Inv(cfg, s, ls, owner, pos) && Enabled(cfg, s, Append(r, c))
    ensures ls[Private(r)] != []
    ensures Inv(cfg, Apply(cfg, s, Append(r, c)), Moved(ls, Private(r), Pending(r), 1, false), owner', pos')
  {
    var s', a, b := Apply(cfg, s, Append(r, c)), Private(r), Pending(r);
    AppendLinks(cfg, s, ls, owner, pos, r, c);
    AppendHeads(cfg, s, ls, owner, pos, r, c);
    AppendFrame(cfg, s, ls, owner, pos, r, c);
    PcKept(cfg, s, s', ls, owner, pos, a, b, 1);
    SameHome(cfg, ls, a, 1);
    owner', pos' := MoveKeeps(cfg, s, s', ls, owner, pos, a, b, 1, false);
  }

  lemma AppendFrame(cfg: Config, s: State, ls: Lists, owner: seq<Place>, pos: seq<nat>, r: nat, c: nat)
    requires Inv(cfg, s, ls, owner, pos) && Enabled(cfg, s, Append(r, c)) && ls[Private(r)] != []
    ensures var s' := Apply(cfg, s, Append(r, c));
      && Sized(cfg, s') && s'.pc == s.pc
      && forall x :: 0 <= x < |s.next| && owner[x] != Private(r) && owner[x] != Pending(r) ==> s'.next[x] == s.next[x]
  {
    assert RankOk(s, ls, r);
    assert Owned(ls, owner, pos, Private(r), 0);
    assert ls[Pending(r)] == [] || Owned(ls, owner, pos, Pending(r), |ls[Pending(r)]| - 1);
  }

  // ---- posting ----

  /** The first `n` slots of list `a`, cut off, are linked behind list `b`. */
  function Spliced(next: seq<int>, first: int, last: nat, end: int): seq<int>
    requires last < |next|
  {
    if end == NONE || !(0 <= end < |next|) then next[last := NONE] else next[last := NONE][end := first]
  }

  lemma PrefixToEnd(ls: Lists, owner: seq<Place>, pos: seq<nat>, next: seq<int>, a: Place, b: Place, n: nat)
    requires Partition(ls, owner, pos) && LinksOk(next, ls) && |owner| == |next| && a in ls && b in ls && a != b
    requires !a.Freed? && !b.Freed? && 0 < n <= |ls[a]|
    ensures ls[a][n - 1] < |next|
    ensures LinksOk(Spliced(next, ls[a][0], ls[a][n - 1], Last(ls[b])), Moved(ls, a, b, n, false))
    ensures next[ls[a][n - 1]] == Head(ls[a][n..])
  {
    var la, lb := ls[a], ls[b];
    assert Owned(ls, owner, pos, a, n - 1) && Linked(next, la, NONE) && Linked(next, lb, NONE);
    assert LinkAt(next, la, NONE, n - 1);
    assert lb == [] || Owned(ls, owner, pos, b, |lb| - 1);
    var next' := Spliced(next, la[0], la[n - 1], Last(lb));
    LinkedSuffix(next, la, n, NONE);
    var rest, first := la[n..], la[..n];
    forall i | 0 <= i < |rest| ensures LinkAt(next', rest, NONE, i) {
      assert LinkAt(next, rest, NONE, i) && Owned(ls, owner, pos, a, n + i);
    }
    forall i | 0 <= i < n ensures LinkAt(next', first, NONE, i) {
      assert LinkAt(next, la, NONE, i) && Owned(ls, owner, pos, a, i);
    }
    forall i | 0 <= i < |lb| ensures LinkAt(next', lb, la[0], i) {
      assert LinkAt(next, lb, NONE, i) && Owned(ls, owner, pos, b, i);
    }
    LinkedConcat(next', lb, first, NONE);
    MovedLinks(ls, owner, pos, next, next', a, b, n, false);
  }

  /** How many slots of `l` before number `k` there are up to the last one whose id is not `c`. */
  function CutLen(opCount: seq<nat>, l: seq<nat>, k: nat, c: nat): (n: nat)
    requires k <= |l| && forall i :: 0 <= i < k ==> l[i] < |opCount|
    ensures n <= k
  {
    if k == 0 then 0 else if opCount[l[k - 1]] != c then k else CutLen(opCount, l, k - 1, c)
  }

  lemma {:induction false} ScanIs(next: seq<int>, opCount: seq<nat>, l: seq<nat>, k: nat, c: nat, lastOp: int,
      toSend: nat, fuel: nat)
    requires |next| == |opCount| && Linked(next, l, NONE) && k < |l| && (forall i :: 0 <= i < |l| ==> l[i] < |next|)
    requires forall i :: 0 <= i < |l| - 1 ==> l[i] != l[|l| - 1]
    requires |l| - 1 - k <= fuel && toSend == CutLen(opCount, l, k, c)
    requires lastOp == if toSend == 0 then NONE else l[toSend - 1]
    ensures var n := CutLen(opCount, l, |l| - 1, c);
      Scan(next, opCount, l[k], l[|l| - 1], c, k, lastOp, toSend, fuel) == (if n == 0 then NONE else l[n - 1], n)
    decreases |l| - k
  {
    if k < |l| - 1 {
      assert LinkAt(next, l, NONE, k);
      if opCount[l[k]] != c {
        ScanIs(next, opCount, l, k + 1, c, l[k], k + 1, fuel - 1);
      } else {
        ScanIs(next, opCount, l, k + 1, c, lastOp, toSend, fuel - 1);
      }
    }
  }

  /** The cut of a rank's chain. */
  lemma CutIs(cfg: Config, s: State, ls: Lists, owner: seq<Place>, pos: seq<nat>, r: nat) returns (n: nat)
    requires Inv(cfg, s, ls, owner, pos) && r < cfg.ranks && ls[Pending(r)] != []
    ensures var l := ls[Pending(r)];
      && (forall i :: 0 <= i < |l| ==> l[i] < |s.opCount|)
      && n == CutLen(s.opCount, l, |l| - 1, s.opCount[l[|l| - 1]])
      && CutOf(s, r) == (if n == 0 then NONE else l[n - 1], n)
  {
    var l := ls[Pending(r)];
    assert RankOk(s, ls, r) && Linked(s.next, l, NONE);
    assert Owned(ls, owner, pos, Pending(r), |l| - 1);
    forall i | 0 <= i < |l|
      ensures l[i] < |s.opCount| && (i < |l| - 1 ==> l[i] != l[|l| - 1])
    {
      assert Owned(ls, owner, pos, Pending(r), i);
    }
    n := CutLen(s.opCount, l, |l| - 1, s.opCount[l[|l| - 1]]);
    ScanIs(s.next, s.opCount, l, 0, s.opCount[l[|l| - 1]], NONE, 0, s.ranks[r].count);
  }

  /** Posting `n` slots of a rank's chain: what the two posting steps do to links and heads. */
  ghost predicate PostsTo(s: State, s': State, ls: Lists, r: nat, n: nat)
    requires r < |s.ranks| && Pending(r) in ls && Posted in ls && 0 < n <= |ls[Pending(r)]|
    requires ls[Pending(r)][n - 1] < |s.next|
  {
    var l := ls[Pending(r)];
    s' == s.(next := Spliced(s.next, l[0], l[n - 1], Last(ls[Posted])),
             poolNext := if s.poolNext == NONE then l[0] else s.poolNext, poolEnd := l[n - 1],
             ranks := s.ranks[r := s.ranks[r].(nextOps := Head(l[n..]), nextOpsEnd := Last(l[n..]), count := |l| - n)])
  }

  lemma PostKeeps(cfg: Config, s: State, s': State, ls: Lists, owner: seq<Place>, pos: seq<nat>, r: nat, n: nat)
    returns (owner': seq<Place>, pos': seq<nat>)
    requires Inv(cfg, s, ls, owner, pos) && r < cfg.ranks && 0 < n <= |ls[Pending(r)]|
    requires ls[Pending(r)][n - 1] < |s.next|
    requires PostsTo(s, s', ls, r, n)
    ensures Inv(cfg, s', Moved(ls, Pending(r), Posted, n, false), owner', pos')
  {
    var a, b := Pending(r), Posted;
    PrefixToEnd(ls, owner, pos, s.next, a, b, n);
    PostFrame(cfg, s, s', ls, owner, pos, r, n);
    PcKept(cfg, s, s', ls, owner, pos, a, b, n);
    PostHeads(cfg, s, s', ls, owner, pos, r, n);
    owner', pos' := MoveKeeps(cfg, s, s', ls, owner, pos, a, b, n, false);
  }

  lemma PostFrame(cfg: Config, s: State, s': State, ls: Lists, owner: seq<Place>, pos: seq<nat>, r: nat, n: nat)
    requires Inv(cfg, s, ls, owner, pos) && r < cfg.ranks && 0 < n <= |ls[Pending(r)]|
    requires ls[Pending(r)][n - 1] < |s.next|
    requires PostsTo(s, s', ls, r, n)
    ensures Sized(cfg, s') && s'.pc == s.pc
    ensures forall x :: 0 <= x < |s.next| && owner[x] != Pending(r) && owner[x] != Posted ==> s'.next[x] == s.next[x]
  {
    assert Owned(ls, owner, pos, Pending(r), n - 1);
    assert ls[Posted] == [] || Owned(ls, owner, pos, Posted, |ls[Posted]| - 1);
  }

  lemma PostHeads(cfg: Config, s: State, s': State, ls: Lists, owner: seq<Place>, pos: seq<nat>, r: nat, n: nat)
    requires Inv(cfg, s, ls, owner, pos) && r < cfg.ranks && 0 < n <= |ls[Pending(r)]|
    requires ls[Pending(r)][n - 1] < |s.next|
    requires PostsTo(s, s', ls, r, n) && Sized(cfg, s')
    ensures HeadsOk(cfg, s', Moved(ls, Pending(r), Posted, n, false))
  {
    var ls' := Moved(ls, Pending(r), Posted, n, false);
    assert ls'[Posted] == ls[Posted] + ls[Pending(r)][..n];
    assert RankOk(s, ls, r);
    forall q | 0 <= q < cfg.ranks ensures RankOk(s', ls', q) { assert RankOk(s, ls, q); }
  }

  lemma StartKeeps(cfg: Config, s: State, ls: Lists, owner: seq<Place>, pos: seq<nat>, r: nat)
    returns (owner': seq<Place>, pos': seq<nat>)
    requires Inv(cfg, s, ls, owner, pos) && Enabled(cfg, s, Start(r))
    ensures Inv(cfg, Apply(cfg, s, Start(r)), Moved(ls, Pending(r), Posted, |ls[Pending(r)]|, false), owner', pos')
  {
    var l, n := ls[Pending(r)], |ls[Pending(r)]|;
    assert RankOk(s, ls, r) && Linked(s.next, l, NONE);
    assert Owned(ls, owner, pos, Pending(r), n - 1) && LinkAt(s.next, l, NONE, n - 1);
    assert s.next[l[n - 1] := NONE] == s.next;
    owner', pos' := PostKeeps(cfg, s, Apply(cfg, s, Start(r)), ls, owner, pos, r, n);
  }

  lemma OverflowKeeps(cfg: Config, s: State, ls: Lists, owner: seq<Place>, pos: seq<nat>, r: nat)
    returns (n: nat, owner': seq<Place>, pos': seq<nat>)
    requires Inv(cfg, s, ls, owner, pos) && Enabled(cfg, s, Overflow(r))
    ensures var l := ls[Pending(r)];
      && l != [] && (forall i :: 0 <= i < |l| ==> l[i] < |s.opCount|)
      && 0 < n == CutLen(s.opCount, l, |l| - 1, s.opCount[l[|l| - 1]])
      && Inv(cfg, Apply(cfg, s, Overflow(r)), Moved(ls, Pending(r), Posted, n, false), owner', pos')
  {
    assert RankOk(s, ls, r);
    n := CutIs(cfg, s, ls, owner, pos, r);
    OverflowPosts(cfg, s, ls, owner, pos, r, n);
    owner', pos' := PostKeeps(cfg, s, Apply(cfg, s, Overflow(r)), ls, owner, pos, r, n);
  }

  /** What an early post does, in terms of the lists. */
  lemma OverflowPosts(cfg: Config, s: State, ls: Lists, owner: seq<Place>, pos: seq<nat>, r: nat, n: nat)
    requires Inv(cfg, s, ls, owner, pos) && Enabled(cfg, s, Overflow(r)) && n < |ls[Pending(r)]|
    requires CutOf(s, r) == (if n == 0 then NONE else ls[Pending(r)][n - 1], n)
    ensures 0 < n && ls[Pending(r)][n - 1] < |s.next| && PostsTo(s, Apply(cfg, s, Overflow(r)), ls, r, n)
  {
    var l := ls[Pending(r)];
    assert RankOk(s, ls, r) && Linked(s.next, l, NONE) && LinkAt(s.next, l, NONE, n - 1);
    assert s.next[l[n - 1]] == l[n] == Head(l[n..]) && Last(l[n..]) == Last(l);
    assert s.poolEnd == Last(ls[Posted]) && s.poolNext == Head(ls[Posted]);
  }

  // ---- the progress thread's steps ----

  lemma GrabKeeps(cfg: Config, s: State, ls: Lists, owner: seq<Place>, pos: seq<nat>)
    returns (owner': seq<Place>, pos': seq<nat>)
    requires Inv(cfg, s, ls, owner, pos) && Enabled(cfg, s, Grab)
    ensures ls[Rest] == [] && Inv(cfg, Apply(cfg, s, Grab), Moved(ls, Posted, Rest, |ls[Posted]|, true), owner', pos')
  {
    var s', ls' := Apply(cfg, s, Grab), Moved(ls, Posted, Rest, |ls[Posted]|, true);
    assert ls'[Posted] == [] && ls'[Rest] == ls[Posted];
    WholeLinks(ls, owner, pos, s.next, Posted, Rest);
    forall q | 0 <= q < cfg.ranks ensures RankOk(s', ls', q) { assert RankOk(s, ls, q); }
    owner', pos' := MoveKeeps(cfg, s, s', ls, owner, pos, Posted, Rest, |ls[Posted]|, true);
  }

  /** Steps of the progress thread that touch no list. */
  lemma PcOnlyKeeps(cfg: Config, s: State, s': State, ls: Lists, owner: seq<Place>, pos: seq<nat>)
    requires Inv(cfg, s, ls, owner, pos) && s' == s.(pc := s'.pc) && PcOk(cfg, s', ls)
    ensures Inv(cfg, s', ls, owner, pos)
  {
    forall q | 0 <= q < cfg.ranks ensures RankOk(s', ls, q) { assert RankOk(s, ls, q); }
  }

  /** The drain goes on with the next slot. */
  predicate Takes(cfg: Config, s: State)
    requires ConfigOk(cfg) && Sized(cfg, s) && s.pc.Draining?
  {
    IsSlot(s, s.nextOps) && s.pc.count + (if Boundary(cfg, s, s.nextOps) then 1 else 0) != cfg.batch + 1
  }

  /** The first slot of the chain goes to the front of its rank's freed list. */
  lemma HeadToFreed(ls: Lists, owner: seq<Place>, pos: seq<nat>, next: seq<int>, q: nat)
    requires Partition(ls, owner, pos) && LinksOk(next, ls) && |owner| == |next| && Rest in ls && Freed(q) in ls
    requires ls[Rest] != []
    ensures ls[Rest][0] < |next| && next[ls[Rest][0]] == Head(ls[Rest][1..])
    ensures LinksOk(if ls[Freed(q)] == [] then next else next[ls[Rest][0] := ls[Freed(q)][0]],
        Moved(ls, Rest, Freed(q), 1, true))
  {
    var a, b := Rest, Freed(q);
    var la, lb := ls[a], ls[b];
    assert Owned(ls, owner, pos, a, 0) && Linked(next, la, NONE) && LinkAt(next, la, NONE, 0);
    var x := la[0];
    var next' := if lb == [] then next else next[x := lb[0]];
    LinkedSuffix(next, la, 1, NONE);
    var rest := la[1..];
    forall i | 0 <= i < |rest| ensures LinkAt(next', rest, NONE, i) {
      assert LinkAt(next, rest, NONE, i) && Owned(ls, owner, pos, a, i + 1);
    }
    FrontGrows(ls, owner, pos, next, b, x);
    assert la[..1] == [x];
    MovedLinks(ls, owner, pos, next, next', a, b, 1, true);
  }

  lemma FrontGrows(ls: Lists, owner: seq<Place>, pos: seq<nat>, next: seq<int>, b: Place, x: nat)
    requires Partition(ls, owner, pos) && LinksOk(next, ls) && |owner| == |next| && b in ls && b.Freed? && x < |next|
    requires owner[x] != b
    ensures var next' := if ls[b] == [] then next else next[x := ls[b][0]];
      Linked(next', [x] + ls[b], TailOf(next', b, [x] + ls[b]))
  {
    var l := ls[b];
    var next' := if l == [] then next else next[x := l[0]];
    var tail := TailOf(next, b, l);
    assert Linked(next, l, tail);
    assert l == [] || (Owned(ls, owner, pos, b, |l| - 1) && LinkAt(next, l, tail, |l| - 1));
    var l', tail' := [x] + l, TailOf(next', b, [x] + l);
    forall i | 0 <= i < |l'| ensures LinkAt(next', l', tail', i) {
      if 0 < i { assert LinkAt(next, l, tail, i - 1) && Owned(ls, owner, pos, b, i - 1); }
    }
  }

  lemma DrainKeeps(cfg: Config, s: State, ls: Lists, owner: seq<Place>, pos: seq<nat>)
    returns (ls': Lists, owner': seq<Place>, pos': seq<nat>)
    requires Inv(cfg, s, ls, owner, pos) && Enabled(cfg, s, Drain)
    ensures Inv(cfg, Apply(cfg, s, Drain), ls', owner', pos')
    ensures if Takes(cfg, s) then ls[Rest] != [] && Home(cfg, ls[Rest][0]) < cfg.ranks
      && ls' == Moved(ls, Rest, Freed(Home(cfg, ls[Rest][0])), 1, true)
      else ls' == ls
  {
    var s' := Apply(cfg, s, Drain);
    if Takes(cfg, s) {
      assert Owned(ls, owner, pos, Rest, 0);
      SlotHome(cfg, s.nextOps);
      var q := Home(cfg, s.nextOps);
      assert RankOk(s, ls, q);
      HeadToFreed(ls, owner, pos, s.next, q);
      DrainHeads(cfg, s, ls, owner, pos, q);
      ls' := Moved(ls, Rest, Freed(q), 1, true);
      owner', pos' := MoveKeeps(cfg, s, s', ls, owner, pos, Rest, Freed(q), 1, true);
    } else {
      ls', owner', pos' := ls, owner, pos;
      PcOnlyKeeps(cfg, s, s', ls, owner, pos);
    }
  }

  lemma DrainHeads(cfg: Config, s: State, ls: Lists, owner: seq<Place>, pos: seq<nat>, q: nat)
    requires Inv(cfg, s, ls, owner, pos) && Enabled(cfg, s, Drain) && Takes(cfg, s) && q < cfg.ranks
    requires ls[Rest] != [] && q == Home(cfg, s.nextOps) && s.next[s.nextOps] == Head(ls[Rest][1..])
    ensures HeadsOk(cfg, Apply(cfg, s, Drain), Moved(ls, Rest, Freed(q), 1, true))
  {
    var s', ls' := Apply(cfg, s, Drain), Moved(ls, Rest, Freed(q), 1, true);
    assert ls'[Freed(q)] == [ls[Rest][0]] + ls[Freed(q)];
    forall r | 0 <= r < cfg.ranks ensures RankOk(s', ls', r) { assert RankOk(s, ls, r); }
  }

  lemma LinkKeeps(cfg: Config, s: State, ls: Lists, owner: seq<Place>, pos: seq<nat>)
    requires Inv(cfg, s, ls, owner, pos) && Enabled(cfg, s, Link)
    ensures Inv(cfg, Apply(cfg, s, Link), ls, owner, pos)
  {
    var s', i := Apply(cfg, s, Link), s.pc.i;
    if i < cfg.ranks {
      assert RankOk(s, ls, i);
      if s.freeOp[i] != NONE {
        FreedRelinked(cfg, s, ls, owner, pos, i, s.freeOps[i]);
        forall q | 0 <= q < cfg.ranks ensures RankOk(s', ls, q) { assert RankOk(s, ls, q); }
      } else {
        PcOnlyKeeps(cfg, s, s', ls, owner, pos);
      }
    } else {
      PcOnlyKeeps(cfg, s, s', ls, owner, pos);
    }
  }

  /** The end of a freed list may be set to anything. */
  lemma FreedRelinked(cfg: Config, s: State, ls: Lists, owner: seq<Place>, pos: seq<nat>, i: nat, v: int)
    requires Inv(cfg, s, ls, owner, pos) && i < cfg.ranks && ls[Freed(i)] != []
    ensures RankOk(s, ls, i) && IsSlot(s, s.freeOpEnd[i]) && LinksOk(s.next[s.freeOpEnd[i] := v], ls)
    ensures TailOf(s.next[s.freeOpEnd[i] := v], Freed(i), ls[Freed(i)]) == v
  {
    var p, next := Freed(i), s.next;
    var l, tail := ls[p], TailOf(next, p, ls[p]);
    assert RankOk(s, ls, i) && Linked(next, l, tail) && Owned(ls, owner, pos, p, |l| - 1);
    RelinkLast(ls, owner, pos, next, p, v, tail);
    var next' := next[s.freeOpEnd[i] := v];
    OthersLinked(ls, owner, pos, next, next', p, p);
  }

  /**
   The freed list goes to the front of the shared one, or the progress thread has lost the race and starts over on an
   empty one.
   */
  lemma GiveKeeps(cfg: Config, s: State, ls: Lists, owner: seq<Place>, pos: seq<nat>)
    returns (ls': Lists, owner': seq<Place>, pos': seq<nat>)
    requires Inv(cfg, s, ls, owner, pos) && Enabled(cfg, s, Give)
    ensures Inv(cfg, Apply(cfg, s, Give), ls', owner', pos')
    ensures ls' == ls || ls' == Moved(ls, Freed(s.pc.i), Shared(s.pc.i), |ls[Freed(s.pc.i)]|, true)
  {
    var s', i := Apply(cfg, s, Give), s.pc.i;
    assert RankOk(s, ls, i);
    if s.pc.oldFree == NONE || s.freeOps[i] == s.pc.oldFree {
      ls', owner', pos' := GivenKeeps(cfg, s, ls, owner, pos, i);
    } else {
      ls', owner', pos' := ls, owner, pos;
      FreedRelinked(cfg, s, ls, owner, pos, i, NONE);
      forall q | 0 <= q < cfg.ranks ensures RankOk(s', ls, q) { assert RankOk(s, ls, q); }
    }
  }

  lemma GivenKeeps(cfg: Config, s: State, ls: Lists, owner: seq<Place>, pos: seq<nat>, i: nat)
    returns (ls': Lists, owner': seq<Place>, pos': seq<nat>)
    requires Inv(cfg, s, ls, owner, pos) && i < cfg.ranks && ls[Freed(i)] != []
    requires (forall r :: 0 <= r < i ==> ls[Freed(r)] == [])
    requires TailOf(s.next, Freed(i), ls[Freed(i)]) == Head(ls[Shared(i)])
    ensures ls' == Moved(ls, Freed(i), Shared(i), |ls[Freed(i)]|, true) && Inv(cfg, Given(s, i), ls', owner', pos')
  {
    var a, b, n := Freed(i), Shared(i), |ls[Freed(i)]|;
    ls' := Moved(ls, a, b, n, true);
    assert ls[a][..n] == ls[a];
    assert ls'[a] == [] && ls'[b] == ls[a] + ls[b];
    assert Linked(s.next, ls[a], TailOf(s.next, a, ls[a])) && Linked(s.next, ls[b], NONE);
    LinkedConcat(s.next, ls[a], ls[b], NONE);
    MovedLinks(ls, owner, pos, s.next, s.next, a, b, n, true);
    SameHome(cfg, ls, a, n);
    GivenHeads(cfg, s, ls, owner, pos, i);
    owner', pos' := MoveKeeps(cfg, s, Given(s, i), ls, owner, pos, a, b, n, true);
  }

  lemma GivenHeads(cfg: Config, s: State, ls: Lists, owner: seq<Place>, pos: seq<nat>, i: nat)
    requires Inv(cfg, s, ls, owner, pos) && i < cfg.ranks && ls[Freed(i)] != []
    requires (forall r :: 0 <= r < i ==> ls[Freed(r)] == [])
    ensures var ls' := Moved(ls, Freed(i), Shared(i), |ls[Freed(i)]|, true);
      HeadsOk(cfg, Given(s, i), ls') && PcOk(cfg, Given(s, i), ls')
  {
    var s', ls' := Given(s, i), Moved(ls, Freed(i), Shared(i), |ls[Freed(i)]|, true);
    assert ls'[Freed(i)] == [] && Head(ls'[Shared(i)]) == Head(ls[Freed(i)]);
    forall q | 0 <= q < cfg.ranks ensures RankOk(s', ls', q) { assert RankOk(s, ls, q); }
  }

  lemma StoreKeeps(cfg: Config, s: State, ls: Lists, owner: seq<Place>, pos: seq<nat>)
    returns (ls': Lists, owner': seq<Place>, pos': seq<nat>)
    requires Inv(cfg, s, ls, owner, pos) && Enabled(cfg, s, Store)
    ensures Inv(cfg, Apply(cfg, s, Store), ls', owner', pos')
    ensures ls' == Moved(ls, Freed(s.pc.i), Shared(s.pc.i), |ls[Freed(s.pc.i)]|, true)
  {
    ls', owner', pos' := GivenKeeps(cfg, s, ls, owner, pos, s.pc.i);
  }

  // ---- all runs ----

  /** What a step does to the lists. */
  ghost predicate ListStep(cfg: Config, s: State, a: Action, ls: Lists, ls': Lists)
    requires ConfigOk(cfg) && Sized(cfg, s) && Enabled(cfg, s, a) && Domain(cfg, ls)
  {
    match a
    case Read(r) => ls' == ls
    case Swap(r) => ls' == ls
      || (ls[Private(r)] == [] && ls' == Moved(ls, Shared(r), Private(r), |ls[Shared(r)]|, true))
    case Append(r, c) => ls[Private(r)] != [] && s.ranks[r].freeOp == ls[Private(r)][0]
      && ls' == Moved(ls, Private(r), Pending(r), 1, false)
    case Overflow(r) =>
      var l := ls[Pending(r)];
      && l != [] && (forall i :: 0 <= i < |l| ==> l[i] < |s.opCount|)
      && var n := CutLen(s.opCount, l, |l| - 1, s.opCount[l[|l| - 1]]);
      0 < n && ls' == Moved(ls, Pending(r), Posted, n, false)
    case Start(r) => ls' == Moved(ls, Pending(r), Posted, |ls[Pending(r)]|, false)
    case Grab => ls[Rest] == [] && ls' == Moved(ls, Posted, Rest, |ls[Posted]|, true)
    case Resume => ls' == ls
    case Drain =>
      if Takes(cfg, s) then ls[Rest] != [] && s.nextOps == ls[Rest][0] && Home(cfg, ls[Rest][0]) < cfg.ranks
        && ls' == Moved(ls, Rest, Freed(Home(cfg, ls[Rest][0])), 1, true)
      else (ls[Rest] == [] || s.nextOps == ls[Rest][0]) && ls' == ls
    case Link => ls' == ls
    case Give => ls' == ls || ls' == Moved(ls, Freed(s.pc.i), Shared(s.pc.i), |ls[Freed(s.pc.i)]|, true)
    case Store => ls' == Moved(ls, Freed(s.pc.i), Shared(s.pc.i), |ls[Freed(s.pc.i)]|, true)
  }

  lemma RankStepKeeps(cfg: Config, s: State, a: Action, ls: Lists, owner: seq<Place>, pos: seq<nat>)
    returns (ls': Lists, owner': seq<Place>, pos': seq<nat>)
    requires Inv(cfg, s, ls, owner, pos) && Enabled(cfg, s, a) && !IsProgress(a)
    ensures Inv(cfg, Apply(cfg, s, a), ls', owner', pos') && ListStep(cfg, s, a, ls, ls')
  {
    match a
    case Read(r) =>
      ls', owner', pos' := ls, owner, pos;
      ReadKeeps(cfg, s, ls, owner, pos, r);
    case Swap(r) => ls', owner', pos' := SwapKeeps(cfg, s, ls, owner, pos, r);
    case Append(r, c) =>
      assert RankOk(s, ls, r);
      owner', pos' := AppendKeeps(cfg, s, ls, owner, pos, r, c);
      ls' := Moved(ls, Private(r), Pending(r), 1, false);
    case Overflow(r) =>
      var n;
      n, owner', pos' := OverflowKeeps(cfg, s, ls, owner, pos, r);
      ls' := Moved(ls, Pending(r), Posted, n, false);
    case Start(r) =>
      owner', pos' := StartKeeps(cfg, s, ls, owner, pos, r);
      ls' := Moved(ls, Pending(r), Posted, |ls[Pending(r)]|, false);
  }

  lemma ProgressStepKeeps(cfg: Config, s: State, a: Action, ls: Lists, owner: seq<Place>, pos: seq<nat>)
    returns (ls': Lists, owner': seq<Place>, pos': seq<nat>)
    requires Inv(cfg, s, ls, owner, pos) && Enabled(cfg, s, a) && IsProgress(a)
    ensures Inv(cfg, Apply(cfg, s, a), ls', owner', pos') && ListStep(cfg, s, a, ls, ls')
  {
    ls', owner', pos' := ls, owner, pos;
    match a
    case Grab =>
      owner', pos' := GrabKeeps(cfg, s, ls, owner, pos);
      ls' := Moved(ls, Posted, Rest, |ls[Posted]|, true);
    case Resume => PcOnlyKeeps(cfg, s, Apply(cfg, s, Resume), ls, owner, pos);
    case Drain => ls', owner', pos' := DrainKeeps(cfg, s, ls, owner, pos);
    case Link => LinkKeeps(cfg, s, ls, owner, pos);
    case Give => ls', owner', pos' := GiveKeeps(cfg, s, ls, owner, pos);
    case Store => ls', owner', pos' := StoreKeeps(cfg, s, ls, owner, pos);
  }

  /** Every step keeps the invariant and moves whole lists or prefixes of them. */
  lemma StepKeeps(cfg: Config, s: State, a: Action, ls: Lists, owner: seq<Place>, pos: seq<nat>)
    returns (ls': Lists, owner': seq<Place>, pos': seq<nat>)
    requires Inv(cfg, s, ls, owner, pos) && Enabled(cfg, s, a)
    ensures Inv(cfg, Apply(cfg, s, a), ls', owner', pos') && ListStep(cfg, s, a, ls, ls')
  {
    if IsProgress(a) {
      ls', owner', pos' := ProgressStepKeeps(cfg, s, a, ls, owner, pos);
    } else {
      ls', owner', pos' := RankStepKeeps(cfg, s, a, ls, owner, pos);
    }
  }

  /** The pool as it is set up: every rank's slots in order on its shared free list. */
  ghost predicate Init(cfg: Config, s: State) {
    && ConfigOk(cfg) && Sized(cfg, s) && s.poolNext == s.poolEnd == NONE && s.nextOps == NONE && s.pc == Idle
    && (forall r :: 0 <= r < cfg.ranks ==>
        s.freeOps[r] == r * cfg.ops && s.freeOp[r] == NONE && s.ranks[r] == Rank(NONE, NONE, NONE, 0, Ready))
    && forall x :: 0 <= x < |s.next| ==> s.next[x] == if (x + 1) % cfg.ops == 0 then NONE else x + 1
  }

  ghost function InitLists(cfg: Config, n: nat): (ls: Lists)
    ensures forall p :: p in ls <==> p.Posted? || p.Rest? || p.r < n
    ensures forall p :: p in ls ==> ls[p] == if p.Shared? then Range(p.r * cfg.ops, cfg.ops) else []
  {
    if n == 0 then map[Posted := [], Rest := []] else
    InitLists(cfg, n - 1)[Shared(n - 1) := Range((n - 1) * cfg.ops,
        cfg.ops)][Private(n - 1) := []][Pending(n - 1) := []][Freed(n - 1) := []]
  }

  lemma SlotNumber(cfg: Config, r: nat, i: nat)
    requires ConfigOk(cfg) && r < cfg.ranks && i < cfg.ops
    ensures 0 <= r * cfg.ops + i < cfg.ranks * cfg.ops && (r * cfg.ops + i) / cfg.ops == r
    ensures (r * cfg.ops + i) % cfg.ops == i
    ensures (r * cfg.ops + i + 1) % cfg.ops == 0 <==> i + 1 == cfg.ops
  {
    MulLt(cfg.ops, r, cfg.ranks);
    MulNonneg(r, cfg.ops);
    DivModUnique(r * cfg.ops + i, cfg.ops, r, i);
    if i + 1 == cfg.ops {
      MulDistributes(cfg.ops, r, 1);
      DivModUnique(r * cfg.ops + i + 1, cfg.ops, r + 1, 0);
    } else {
      DivModUnique(r * cfg.ops + i + 1, cfg.ops, r, i + 1);
    }
  }

  lemma InitPartition(cfg: Config, n: nat) returns (owner: seq<Place>, pos: seq<nat>)
    requires ConfigOk(cfg) && n == cfg.ranks * cfg.ops
    ensures |owner| == n && Partition(InitLists(cfg, cfg.ranks), owner, pos)
  {
    var ls := InitLists(cfg, cfg.ranks);
    owner := seq(n, x requires 0 <= x < n => Shared(Home(cfg, x)));
    pos := seq(n, x requires 0 <= x < n => x % cfg.ops);
    forall x | 0 <= x < n ensures Held(ls, owner, pos, x) {
      SlotHome(cfg, x);
      DivMod(x, cfg.ops);
    }
    forall p, i | p in ls && 0 <= i < |ls[p]| ensures Owned(ls, owner, pos, p, i) {
      SlotNumber(cfg, p.r, i);
    }
  }

  lemma InitLinks(cfg: Config, s: State)
    requires Init(cfg, s)
    ensures LinksOk(s.next, InitLists(cfg, cfg.ranks))
  {
    var ls := InitLists(cfg, cfg.ranks);
    forall p | p in ls ensures Linked(s.next, ls[p], TailOf(s.next, p, ls[p])) {
      var l, tail := ls[p], TailOf(s.next, p, ls[p]);
      forall i | 0 <= i < |l| ensures LinkAt(s.next, l, tail, i) { SlotNumber(cfg, p.r, i); }
    }
  }

  lemma InitInv(cfg: Config, s: State) returns (owner: seq<Place>, pos: seq<nat>)
    requires Init(cfg, s)
    ensures Inv(cfg, s, InitLists(cfg, cfg.ranks), owner, pos)
  {
    var ls := InitLists(cfg, cfg.ranks);
    owner, pos := InitPartition(cfg, |s.next|);
    InitLinks(cfg, s);
    InitHomes(cfg);
    InitHeads(cfg, s);
  }

  lemma InitHomes(cfg: Config)
    requires ConfigOk(cfg)
    ensures HomesOk(cfg, InitLists(cfg, cfg.ranks))
  {
    var ls := InitLists(cfg, cfg.ranks);
    forall p, i | p in ls && 0 <= i < |ls[p]| ensures AtHome(cfg, ls, p, i) { SlotNumber(cfg, p.r, i); }
  }

  lemma InitHeads(cfg: Config, s: State)
    requires Init(cfg, s)
    ensures HeadsOk(cfg, s, InitLists(cfg, cfg.ranks))
  {
    var ls := InitLists(cfg, cfg.ranks);
    forall r | 0 <= r < cfg.ranks ensures RankOk(s, ls, r) {}
  }

  /** Such a pool exists for every number of ranks and operations. */
  lemma PoolCanBeSetUp(cfg: Config) returns (s: State)
    requires ConfigOk(cfg)
    ensures Init(cfg, s)
  {
    MulNonneg(cfg.ranks, cfg.ops);
    var n := cfg.ranks * cfg.ops;
    var none := seq(cfg.ranks, _ => NONE);
    s := State(seq(n, x requires 0 <= x < n => if (x + 1) % cfg.ops == 0 then NONE else x + 1), seq(n, _ =>
      0), NONE, NONE,
      seq(cfg.ranks, r requires 0 <= r => r * cfg.ops), seq(cfg.ranks, _ =>
        Rank(NONE, NONE, NONE, 0, Ready)), NONE, none, none, Idle);
  }

  ghost predicate IsRun(cfg: Config, ss: seq<State>, steps: seq<Action>) {
    && |ss| == |steps| + 1 && Init(cfg, ss[0])
    && forall k :: 0 <= k < |steps| ==>
      Sized(cfg, ss[k]) && Enabled(cfg, ss[k], steps[k]) && ss[k + 1] == Apply(cfg, ss[k], steps[k])
  }

  /**
   However ranks and progress thread interleave, no slot is ever lost or in two places, and the internal error never
   happens.
   */
  lemma {:induction false} PoolIsSafe(cfg: Config, ss: seq<State>, steps: seq<Action>, k: nat)
    returns (ls: Lists, owner: seq<Place>, pos: seq<nat>)
    requires ConfigOk(cfg) && IsRun(cfg, ss, steps) && k < |ss|
    ensures Inv(cfg, ss[k], ls, owner, pos) && ss[k].pc != InternalError
  {
    if k == 0 {
      ls := InitLists(cfg, cfg.ranks);
      owner, pos := InitInv(cfg, ss[0]);
    } else {
      ls, owner, pos := PoolIsSafe(cfg, ss, steps, k - 1);
      assert ss[k - 1 + 1] == Apply(cfg, ss[k - 1], steps[k - 1]);
      ls, owner, pos := StepKeeps(cfg, ss[k - 1], steps[k - 1], ls, owner, pos);
    }
  }

  // ---- nothing is stuck ----

  predicate IsProgress(a: Action) { a.Grab? || a.Resume? || a.Drain? || a.Link? || a.Give? || a.Store? }

  /** The progress thread can always take its next step: every index it is about to follow is a slot. */
  lemma ProgressNeverStuck(cfg: Config, s: State, ls: Lists, owner: seq<Place>, pos: seq<nat>) returns (a: Action)
    requires Inv(cfg, s, ls, owner, pos)
    ensures IsProgress(a) && Enabled(cfg, s, a)
  {
    match s.pc
    case Idle => a := if s.nextOps == NONE then Grab else Resume;
    case Draining(_, _, _) =>
      a := Drain;
      assert ls[Rest] == [] || Owned(ls, owner, pos, Rest, 0);
    case Returning(i) =>
      a := Link;
      assert i < cfg.ranks ==> RankOk(s, ls, i);
      assert i < cfg.ranks && ls[Freed(i)] != [] ==> Owned(ls, owner, pos, Freed(i), |ls[Freed(i)]| - 1);
    case LinkedTo(i, _) =>
      a := Give;
      assert RankOk(s, ls, i) && Owned(ls, owner, pos, Freed(i), |ls[Freed(i)]| - 1);
    case Lost(i) => a := Store;
  }

  /**
   A rank that wants to append can do so, can get its free list, can post a full chain, or has to wait for slots that
   are on their way: none of its slots is free. Only a full chain of one id is refused.
   */
  lemma RankNeverStuck(cfg: Config, s: State, ls: Lists, owner: seq<Place>, pos: seq<nat>, r: nat, c: nat)
    requires Inv(cfg, s, ls, owner, pos) && r < cfg.ranks
    ensures
      || Enabled(cfg, s, Append(r, c)) || Enabled(cfg, s, Read(r)) || Enabled(cfg, s, Swap(r))
        || Enabled(cfg, s, Overflow(r))
      || (ls[Private(r)] == [] && ls[Shared(r)] == [])
      || (|ls[Pending(r)]| >= cfg.ops && CutOf(s, r).0 == NONE)
  {
    assert RankOk(s, ls, r);
    assert ls[Private(r)] == [] || Owned(ls, owner, pos, Private(r), 0);
    if s.ranks[r].pc == Ready && ls[Private(r)] != [] && cfg.ops <= |ls[Pending(r)]| {
      var n := CutIs(cfg, s, ls, owner, pos, r);
      assert n == 0 || Owned(ls, owner, pos, Pending(r), n - 1);
    }
  }
}
