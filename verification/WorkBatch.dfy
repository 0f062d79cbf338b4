/**
 Building a channel's work batches. A work item is an offset into the plan's work buffer; a batch
 names a base offset and a 64-bit set of multiples of the work size. A batch that cannot express the
 next item is continued by an extension batch, which the device fuses with it again.
 */
module WorkBatch {
  import opened Arith

  datatype WorkType = P2p | Coll | CollReg

  /** Sizes of ncclDevWorkP2p, ncclDevWorkColl and ncclDevWorkCollReg. */
  function WorkSize(t: WorkType): nat {
    match t
    case P2p => 48
    case Coll => 96
    case CollReg => 288
  }

  const MAX_BATCH_BYTES: nat := 1024
  const MAX_P2P_PER_BATCH: nat := 8
  const BITSET_SIZE: nat := 64

  type Bits = b: seq<bool> | |b| == BITSET_SIZE witness seq(BITSET_SIZE, _ => false)

  datatype Batch = Batch(nextJump: nat, nextExtends: bool, workType: WorkType, funcId: nat, offsetBase: nat, bits: Bits)

  /** What the planner appends to a channel; `round` is used by point-to-point items only. */
  datatype Item = Item(workType: WorkType, funcId: nat, offset: nat, round: int)

  /** What the device finds in a batch. */
  datatype Work = Work(workType: WorkType, funcId: nat, offset: nat)

  function WorkOf(x: Item): Work { Work(x.workType, x.funcId, x.offset) }

  function WorksOf(xs: seq<Item>): (ws: seq<Work>)
    ensures |ws| == |xs|
  {
    seq(|xs|, i requires 0 <= i < |xs| => WorkOf(xs[i]))
  }

  // ---- reading a batch ----

  /** Indices of the set bits below `n`, ascending. */
  function Positions(b: seq<bool>, n: nat): (ps: seq<nat>)
    requires n <= |b|
    ensures |ps| <= n
    ensures forall k :: 0 <= k < |ps| ==> ps[k] < n
  {
    if n == 0 then [] else Positions(b, n - 1) + if b[n - 1] then [n - 1] else []
  }

  function Works(b: Batch): seq<Work> {
    WorksAt(b.workType, b.funcId, b.offsetBase, Positions(b.bits, BITSET_SIZE))
  }

  function WorksAt(t: WorkType, funcId: nat, base: nat, ps: seq<nat>): (ws: seq<Work>)
    ensures |ws| == |ps|
    ensures forall k :: 0 <= k < |ps| ==> ws[k] == Work(t, funcId, base + ps[k] * WorkSize(t))
  {
    seq(|ps|, k requires 0 <= k < |ps| => Work(t, funcId, base + ps[k] * WorkSize(t)))
  }

  /** A channel's batches with extensions fused, as the device runs them. */
  function Fuse(bs: seq<Batch>): (fused: seq<seq<Work>>)
    ensures bs != [] ==> fused != []
  {
    if bs == [] then [] else
    var rest := Fuse(bs[1..]);
    if bs[0].nextExtends && 1 < |bs| then [Works(bs[0]) + rest[0]] + rest[1..] else [Works(bs[0])] + rest
  }

  // ---- the planner's channel ----

  /** A channel under construction: its batches, and the bytes and rounds of the fused batch at the end. */
  datatype Chan = Chan(batches: seq<Batch>, workBytes: nat, rounds: seq<int>, nBatchesP2p: nat)

  /** A new batch, not fused with the previous one, is needed. */
  predicate NeedsBatch(c: Chan, x: Item) {
    c.batches == [] ||
    var b := c.batches[|c.batches| - 1];
    || b.workType != x.workType
    || b.funcId != x.funcId
    || MAX_BATCH_BYTES < c.workBytes + WorkSize(x.workType)
    || (x.workType.P2p? && (|c.rounds| == MAX_P2P_PER_BATCH || x.round in c.rounds))
  }

  /** The item is out of the last batch's reach: an extension batch is needed. */
  predicate NeedsExtension(c: Chan, x: Item)
    requires c.batches != []
  {
    var b, size := c.batches[|c.batches| - 1], WorkSize(x.workType);
    var offset := x.offset - b.offsetBase;
    63 * size < offset || offset % size != 0
  }

  function Fresh(x: Item): Batch { Batch(0, false, x.workType, x.funcId, x.offset, seq(BITSET_SIZE, i => i == 0)) }

  function SetBit(b: Batch, k: nat): Batch
    requires k < BITSET_SIZE
  {
    b.(bits := b.bits[k := true])
  }

  /** addWorkBatchToPlan on values. */
  function Add(c: Chan, x: Item): (c': Chan)
    requires c.batches != [] ==> c.batches[|c.batches| - 1].offsetBase <= x.offset
  {
    var size := WorkSize(x.workType);
    if NeedsBatch(c, x) then
      Chan(c.batches + [Fresh(x)], size, if x.workType.P2p? then [x.round] else [],
          c.nBatchesP2p + if x.workType.P2p? then 1 else 0)
    else
      var n := |c.batches| - 1;
      var b := c.batches[n];
      var batches := if NeedsExtension(c, x) then c.batches[n := b.(nextExtends := true)] + [Fresh(x)]
        else c.batches[n := SetBit(b, (x.offset - b.offsetBase) / size)];
      Chan(batches, c.workBytes + size, if x.workType.P2p? then c.rounds + [x.round] else c.rounds, c.nBatchesP2p)
  }

  method Clashes(rounds: seq<int>, round: int) returns (clash: bool)
    ensures clash <==> round in rounds
  {
    clash := false;
    for i := 0 to |rounds|
      invariant clash <==> round in rounds[..i]
    {
      clash := clash || round == rounds[i];
    }
    assert rounds[..|rounds|] == rounds;
  }

  /** The same, in place, statement by statement. */
  class WipChannel {
    var batches: seq<Batch>
    var workBytes: nat
    var rounds: seq<int>
    var nBatchesP2p: nat

    constructor ()
      ensures View() == Chan([], 0, [], 0)
    {
      batches, workBytes, rounds, nBatchesP2p := [], 0, [], 0;
    }

    ghost function View(): Chan
      reads this
    {
      Chan(batches, workBytes, rounds, nBatchesP2p)
    }

    method AddWorkBatchToPlan(x: Item) returns (newBatches: nat)
      requires batches != [] ==> batches[|batches| - 1].offsetBase <= x.offset
      modifies this
      ensures View() == Add(old(View()), x)
      ensures |batches| == |old(batches)| + newBatches && newBatches <= 1
    {
      var workSize := WorkSize(x.workType);
      var newBatch := batches == [];
      newBatches := 0;
      if !newBatch {
        var b := batches[|batches| - 1];
        newBatch := newBatch || b.workType != x.workType;
        newBatch := newBatch || b.funcId != x.funcId;
        newBatch := newBatch || MAX_BATCH_BYTES < workBytes + workSize;
        if x.workType.P2p? {
          newBatch := newBatch || |rounds| == MAX_P2P_PER_BATCH;
          var clash := Clashes(rounds, x.round);
          newBatch := newBatch || clash;
        }
      }
      var offset: nat := if newBatch then 0 else x.offset - batches[|batches| - 1].offsetBase;
      var extendBatch := 63 * workSize < offset || offset % workSize != 0;
      if newBatch || extendBatch {
        if !newBatch { batches := batches[|batches| - 1 := batches[|batches| - 1].(nextExtends := extendBatch)]; }
        batches := batches + [Batch(0, false, x.workType, x.funcId, x.offset, seq(BITSET_SIZE, _ => false))];
        offset := 0;
        if newBatch {
          workBytes, rounds := 0, [];
          nBatchesP2p := nBatchesP2p + if x.workType.P2p? then 1 else 0;
        }
        newBatches := 1;
      }
      EnterWork(x, offset / workSize);
      if newBatches == 1 { assert batches[|batches| - 1] == Fresh(x); }
    }

    /** The item enters the last batch. */
    method EnterWork(x: Item, k: nat)
      requires batches != [] && k < BITSET_SIZE
      modifies this`batches, this`workBytes, this`rounds
      ensures batches == old(batches)[|old(batches)| - 1 := SetBit(old(batches)[|old(batches)| - 1], k)]
      ensures workBytes == old(workBytes) + WorkSize(x.workType)
      ensures rounds == old(rounds) + if x.workType.P2p? then [x.round] else []
    {
      var n := |batches| - 1;
      batches := batches[n := SetBit(batches[n], k)];
      workBytes := workBytes + WorkSize(x.workType);
      if x.workType.P2p? { rounds := rounds + [x.round]; }
    }
  }

  // ---- bits ----

  lemma {:induction false} PositionsPrefix(b: seq<bool>, b': seq<bool>, n: nat)
    requires n <= |b| && n <= |b'| && forall i :: 0 <= i < n ==> b[i] == b'[i]
    ensures Positions(b, n) == Positions(b', n)
  {
    if n != 0 { PositionsPrefix(b, b', n - 1); }
  }

  /** Setting a bit above all others appends its index. */
  lemma {:induction false} PositionsSet(b: seq<bool>, k: nat, n: nat)
    requires k < n <= |b| && forall i :: k <= i < |b| ==> !b[i]
    ensures Positions(b[k := true], n) == Positions(b, n) + [k]
  {
    if k < n - 1 {
      PositionsSet(b, k, n - 1);
    } else {
      PositionsPrefix(b, b[k := true], k);
    }
  }

  lemma {:induction false} NoPositions(b: seq<bool>, n: nat)
    requires n <= |b| && forall i :: 0 <= i < n ==> !b[i]
    ensures Positions(b, n) == []
  {
    if n != 0 { NoPositions(b, n - 1); }
  }

  lemma FreshHolds(x: Item)
    ensures Works(Fresh(x)) == [WorkOf(x)]
  {
    var none: seq<bool> := seq(BITSET_SIZE, _ => false);
    NoPositions(none, BITSET_SIZE);
    PositionsSet(none, 0, BITSET_SIZE);
    assert Fresh(x).bits == none[0 := true];
  }

  /** All works of a batch lie at or below `top`. */
  ghost predicate Below(b: Batch, top: nat) {
    b.offsetBase <= top && forall i :: 0 <= i < BITSET_SIZE && b.bits[i] ==>
      b.offsetBase + i * WorkSize(b.workType) <= top
  }

  /** Adding an item within reach of a batch appends it to the batch's works. */
  lemma SetBitAppends(b: Batch, x: Item, top: nat)
    requires b.workType == x.workType && b.funcId == x.funcId && Below(b, top) && top < x.offset
    requires var size := WorkSize(x.workType);
      x.offset - b.offsetBase <= 63 * size && (x.offset - b.offsetBase) % size == 0
    ensures var k := (x.offset - b.offsetBase) / WorkSize(x.workType);
      && 0 <= k < BITSET_SIZE
      && Works(SetBit(b, k)) == Works(b) + [WorkOf(x)]
      && Below(SetBit(b, k), x.offset)
  {
    var size := WorkSize(x.workType);
    var k := (x.offset - b.offsetBase) / size;
    DivMod(x.offset - b.offsetBase, size);
    DivNonneg(x.offset - b.offsetBase, size);
    DivBelow(x.offset - b.offsetBase, size, 64);
    forall i | k <= i < BITSET_SIZE ensures !b.bits[i] {
      if b.bits[i] { MulLe(size, k, i); }
    }
    PositionsSet(b.bits, k, BITSET_SIZE);
  }

  // ---- fusing ----

  function Last<T>(s: seq<T>): T
    requires s != []
  {
    s[|s| - 1]
  }

  function AppendToLast<T>(s: seq<seq<T>>, x: seq<T>): seq<seq<T>>
    requires s != []
  {
    s[|s| - 1 := s[|s| - 1] + x]
  }

  lemma FuseOne(b: Batch)
    ensures Fuse([b]) == [Works(b)]
  {
    assert [b][1..] == [];
  }

  lemma {:induction false} FuseAppend(bs: seq<Batch>, b: Batch)
    requires bs != []
    ensures Fuse(bs + [b]) == if Last(bs).nextExtends then AppendToLast(Fuse(bs), Works(b)) else Fuse(bs) + [Works(b)]
  {
    assert (bs + [b])[1..] == bs[1..] + [b];
    FuseOne(b);
    if |bs| == 1 {
      FuseOne(bs[0]);
      assert bs == [bs[0]] && bs[1..] + [b] == [b];
    } else {
      FuseAppend(bs[1..], b);
      FuseStep(Works(bs[0]), Fuse(bs[1..]), Works(b));
    }
  }

  /** Prepending to a list of groups and appending to it do not interfere. */
  lemma FuseStep(first: seq<Work>, rest: seq<seq<Work>>, more: seq<Work>)
    requires rest != []
    ensures var more' := AppendToLast(rest, more);
      && AppendToLast([first] + rest, more) == [first] + more'
      && AppendToLast([first + rest[0]] + rest[1..], more) == [first + more'[0]] + more'[1..]
    ensures var more' := rest + [more];
      [first + rest[0]] + rest[1..] + [more] == [first + more'[0]] + more'[1..]
  {
    if |rest| == 1 {
      assert first + (rest[0] + more) == first + rest[0] + more;
    }
  }

  /** Only the works of the last batch matter, not whether it is marked as extended. */
  lemma {:induction false} FuseChangeLast(bs: seq<Batch>, b: Batch, more: seq<Work>)
    requires bs != [] && Works(b) == Works(Last(bs)) + more
    ensures Fuse(bs[|bs| - 1 := b]) == AppendToLast(Fuse(bs), more)
  {
    var bs' := bs[|bs| - 1 := b];
    if |bs| == 1 {
      FuseOne(b);
      FuseOne(bs[0]);
      assert bs' == [b] && bs == [bs[0]];
    } else {
      assert bs'[1..] == bs[1..][|bs| - 2 := b];
      FuseChangeLast(bs[1..], b, more);
      FuseStep(Works(bs[0]), Fuse(bs[1..]), more);
    }
  }

  // ---- the whole channel ----

  predicate Increasing(xs: seq<Item>) { forall i, j :: 0 <= i < j < |xs| ==> xs[i].offset < xs[j].offset }

  /** A channel after appending the items of `xs`. */
  function Build(xs: seq<Item>): (c: Chan)
    requires Increasing(xs)
    ensures c.batches != [] <==> xs != []
    ensures xs != [] ==> Last(c.batches).offsetBase <= Last(xs).offset
  {
    if xs == [] then Chan([], 0, [], 0) else Add(Build(xs[..|xs| - 1]), Last(xs))
  }

  /** Which items end up fused together. */
  function Groups(xs: seq<Item>): (gs: seq<seq<Item>>)
    requires Increasing(xs)
    ensures gs != [] <==> xs != []
  {
    if xs == [] then [] else
    var before, x := xs[..|xs| - 1], Last(xs);
    if before == [] || NeedsBatch(Build(before), x) then Groups(before) + [[x]] else AppendToLast(Groups(before), [x])
  }

  function Flatten<T>(s: seq<seq<T>>): seq<T> { if s == [] then [] else Flatten(s[..|s| - 1]) + Last(s) }

  function GroupWorks(gs: seq<seq<Item>>): (ws: seq<seq<Work>>)
    ensures |ws| == |gs|
  {
    seq(|gs|, i requires 0 <= i < |gs| => WorksOf(gs[i]))
  }

  ghost function Bytes(g: seq<Item>): nat { if g == [] then 0 else Bytes(g[..|g| - 1]) + WorkSize(Last(g).workType) }

  ghost function RoundsOf(g: seq<Item>): seq<int> {
    if g == [] then [] else RoundsOf(g[..|g| - 1]) + if Last(g).workType.P2p? then [Last(g).round] else []
  }

  /**
   What the device can run as one batch: one function, at most 1024 bytes, at most 8 point-to-point items, no round
   twice.
   */
  ghost predicate Runnable(g: seq<Item>) {
    && g != []
    && (forall i :: 0 <= i < |g| ==> g[i].workType == g[0].workType && g[i].funcId == g[0].funcId)
    && Bytes(g) <= MAX_BATCH_BYTES
    && |RoundsOf(g)| <= MAX_P2P_PER_BATCH
    && forall i, j :: 0 <= i < j < |RoundsOf(g)| ==> RoundsOf(g)[i] != RoundsOf(g)[j]
  }

  ghost function CountP2p(gs: seq<seq<Item>>): nat {
    if gs == [] then 0 else CountP2p(gs[..|gs| - 1]) + if Last(gs) != [] && Last(gs)[0].workType.P2p? then 1 else 0
  }

  /** The batches hold the groups, and the last one can be extended. */
  ghost predicate LayoutInv(c: Chan, gs: seq<seq<Item>>, top: nat) {
    && c.batches != [] && gs != [] && Fuse(c.batches) == GroupWorks(gs)
    && Below(Last(c.batches), top) && !Last(c.batches).nextExtends
  }

  /** The groups hold the items, each group can run, and the planner's counters describe the last one. */
  ghost predicate GroupInv(c: Chan, gs: seq<seq<Item>>, xs: seq<Item>) {
    && c.batches != [] && gs != [] && xs != []
    && Flatten(gs) == xs
    && (forall i :: 0 <= i < |gs| ==> Runnable(gs[i]))
    && c.nBatchesP2p == CountP2p(gs)
    && Last(c.batches).workType == Last(xs).workType && Last(c.batches).funcId == Last(xs).funcId
    && c.workBytes == Bytes(Last(gs)) && c.rounds == RoundsOf(Last(gs)) && Last(Last(gs)) == Last(xs)
  }

  ghost predicate ChanInv(xs: seq<Item>)
    requires Increasing(xs) && xs != []
  {
    LayoutInv(Build(xs), Groups(xs), Last(xs).offset) && GroupInv(Build(xs), Groups(xs), xs)
  }

  function NextGroups(c: Chan, gs: seq<seq<Item>>, x: Item): seq<seq<Item>>
    requires gs != []
  {
    if NeedsBatch(c, x) then gs + [[x]] else AppendToLast(gs, [x])
  }

  lemma GroupWorksGrow(gs: seq<seq<Item>>, x: Item)
    ensures GroupWorks(gs + [[x]]) == GroupWorks(gs) + [[WorkOf(x)]]
    ensures gs != [] ==> GroupWorks(AppendToLast(gs, [x])) == AppendToLast(GroupWorks(gs), [WorkOf(x)])
  {
    assert WorksOf([x]) == [WorkOf(x)];
    if gs != [] { assert WorksOf(Last(gs) + [x]) == WorksOf(Last(gs)) + [WorkOf(x)]; }
  }

  lemma AddKeepsLayout(c: Chan, gs: seq<seq<Item>>, x: Item, top: nat)
    requires LayoutInv(c, gs, top) && top < x.offset
    ensures LayoutInv(Add(c, x), NextGroups(c, gs, x), x.offset)
  {
    FreshHolds(x);
    GroupWorksGrow(gs, x);
    if NeedsBatch(c, x) {
      FuseAppend(c.batches, Fresh(x));
    } else if NeedsExtension(c, x) {
      ExtendKeepsLayout(c, gs, x);
    } else {
      var b := Last(c.batches);
      SetBitAppends(b, x, top);
      FuseChangeLast(c.batches, SetBit(b, (x.offset - b.offsetBase) / WorkSize(x.workType)), [WorkOf(x)]);
    }
  }

  lemma ExtendKeepsLayout(c: Chan, gs: seq<seq<Item>>, x: Item)
    requires c.batches != [] && gs != [] && Fuse(c.batches) == GroupWorks(gs)
    ensures Fuse(c.batches[|c.batches| - 1 := Last(c.batches).(nextExtends := true)] + [Fresh(x)])
       == GroupWorks(AppendToLast(gs, [x]))
  {
    var n, b := |c.batches| - 1, Last(c.batches).(nextExtends := true);
    FreshHolds(x);
    GroupWorksGrow(gs, x);
    assert Works(b) == Works(Last(c.batches)) == Works(Last(c.batches)) + [];
    FuseChangeLast(c.batches, b, []);
    assert Last(Fuse(c.batches)) + [] == Last(Fuse(c.batches));
    FuseAppend(c.batches[n := b], Fresh(x));
  }

  lemma AddFields(c: Chan, x: Item)
    requires c.batches != [] && Last(c.batches).offsetBase <= x.offset
    ensures var c' := Add(c, x);
      && c'.batches != [] && Last(c'.batches).workType == x.workType && Last(c'.batches).funcId == x.funcId
      && c'.workBytes == WorkSize(x.workType) + (if NeedsBatch(c, x) then 0 else c.workBytes)
      && c'.rounds == (if NeedsBatch(c, x) then [] else c.rounds) + (if x.workType.P2p? then [x.round] else [])
      && c'.nBatchesP2p == c.nBatchesP2p + if NeedsBatch(c, x) && x.workType.P2p? then 1 else 0
  {
  }

  lemma AddStartsGroup(c: Chan, gs: seq<seq<Item>>, xs: seq<Item>, x: Item)
    requires GroupInv(c, gs, xs) && Last(c.batches).offsetBase <= x.offset && NeedsBatch(c, x)
    ensures GroupInv(Add(c, x), gs + [[x]], xs + [x])
  {
    AddFields(c, x);
    GroupsFlatten(gs, x);
    OneItem(x);
    assert Runnable([x]);
  }

  lemma AddJoinsGroup(c: Chan, gs: seq<seq<Item>>, xs: seq<Item>, x: Item)
    requires GroupInv(c, gs, xs) && Last(c.batches).offsetBase <= x.offset && !NeedsBatch(c, x)
    ensures GroupInv(Add(c, x), AppendToLast(gs, [x]), xs + [x])
  {
    AddFields(c, x);
    GroupsFlatten(gs, x);
    var g := Last(gs);
    assert Runnable(g) && g[|g| - 1] == Last(xs);
    AppendRunnable(g, x);
  }

  lemma AddKeepsGroups(c: Chan, gs: seq<seq<Item>>, xs: seq<Item>, x: Item)
    requires GroupInv(c, gs, xs) && Last(c.batches).offsetBase <= x.offset
    ensures GroupInv(Add(c, x), NextGroups(c, gs, x), xs + [x])
  {
    if NeedsBatch(c, x) { AddStartsGroup(c, gs, xs, x); } else { AddJoinsGroup(c, gs, xs, x); }
  }

  lemma AppendRunnable(g: seq<Item>, x: Item)
    requires Runnable(g) && x.workType == g[0].workType && x.funcId == g[0].funcId
    requires Bytes(g) + WorkSize(x.workType) <= MAX_BATCH_BYTES
    requires x.workType.P2p? ==> |RoundsOf(g)| != MAX_P2P_PER_BATCH && x.round !in RoundsOf(g)
    ensures Runnable(g + [x])
    ensures Bytes(g + [x]) == Bytes(g) + WorkSize(x.workType)
    ensures RoundsOf(g + [x]) == RoundsOf(g) + if x.workType.P2p? then [x.round] else []
  {
    assert (g + [x])[..|g|] == g;
  }

  lemma OneItem(x: Item)
    ensures Groups([x]) == [[x]]
    ensures Build([x]) == Chan([Fresh(x)], WorkSize(x.workType), if x.workType.P2p? then [x.round] else [],
        if x.workType.P2p? then 1 else 0)
    ensures Bytes([x]) == WorkSize(x.workType) && RoundsOf([x]) == if x.workType.P2p? then [x.round] else []
  {
    assert [x][..0] == [];
  }

  lemma FirstItem(x: Item)
    ensures ChanInv([x])
  {
    OneItem(x);
    FreshHolds(x);
    FuseOne(Fresh(x));
    GroupWorksGrow([], x);
    GroupsFlatten([], x);
    var none: seq<seq<Item>> := [];
    assert none + [[x]] == [[x]];
  }

  /** Building one item more is one `Add`. */
  lemma BuildNext(xs: seq<Item>, before: seq<Item>, x: Item)
    requires Increasing(xs) && before != [] && xs == before + [x]
    ensures Increasing(before) && Last(before).offset < x.offset && Last(xs) == x
    ensures Build(xs) == Add(Build(before), x) && Groups(xs) == NextGroups(Build(before), Groups(before), x)
  {
    assert xs[..|xs| - 1] == before;
    assert xs[|before| - 1].offset < xs[|before|].offset;
  }

  lemma {:induction false} ChanInvHolds(xs: seq<Item>)
    requires Increasing(xs) && xs != []
    ensures ChanInv(xs)
  {
    var before, x := xs[..|xs| - 1], Last(xs);
    if before == [] {
      FirstItem(x);
      assert xs == [x];
    } else {
      BuildNext(xs, before, x);
      ChanInvHolds(before);
      AddKeepsLayout(Build(before), Groups(before), x, Last(before).offset);
      AddKeepsGroups(Build(before), Groups(before), before, x);
    }
  }

  /** The batches decode to the items, in order, fused only as far as the device can run them. */
  lemma BatchesDecode(xs: seq<Item>)
    requires Increasing(xs)
    ensures var c, gs := Build(xs), Groups(xs);
      && Fuse(c.batches) == GroupWorks(gs)
      && Flatten(gs) == xs
      && (forall i :: 0 <= i < |gs| ==> Runnable(gs[i]))
      && c.nBatchesP2p == CountP2p(gs)
  {
    if xs != [] { ChanInvHolds(xs); }
  }

  lemma GroupsFlatten(gs: seq<seq<Item>>, x: Item)
    ensures Flatten(gs + [[x]]) == Flatten(gs) + [x]
    ensures CountP2p(gs + [[x]]) == CountP2p(gs) + if x.workType.P2p? then 1 else 0
    ensures gs != [] ==> Flatten(AppendToLast(gs, [x])) == Flatten(gs) + [x]
    ensures gs != [] && Last(gs) != [] ==> CountP2p(AppendToLast(gs, [x])) == CountP2p(gs)
  {
    assert (gs + [[x]])[..|gs|] == gs;
    if gs != [] { assert AppendToLast(gs, [x])[..|gs| - 1] == gs[..|gs| - 1]; }
  }
}
