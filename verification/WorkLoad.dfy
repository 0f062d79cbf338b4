/**
 How a block loads its work: the n-th set bit of a batch's bitset, the copy of a batch's packs by the
 block's threads, the fusing of extension batches, and the walk along a channel's batches.
 */
module WorkLoad {
  import opened Arith
  import opened WorkBatch
  import opened PlanLayout
  import opened WorkStorage

  // ---- n-th set bit ----

  function Count(b: seq<bool>, lo: nat, n: nat): nat
    requires lo + n <= |b|
  {
    if n == 0 then 0 else Count(b, lo, n - 1) + if b[lo + n - 1] then 1 else 0
  }

  lemma {:induction false} PositionsCount(b: seq<bool>, lo: nat, n: nat)
    requires lo + n <= |b|
    ensures |Positions(b, lo + n)| == |Positions(b, lo)| + Count(b, lo, n)
  {
    if n != 0 { PositionsCount(b, lo, n - 1); }
  }

  /** The 32 lanes fill in the indices of the set bits, first of the low and then of the high half. */
  method FindSet(bits: Bits) returns (fns: seq<nat>)
    ensures fns == Positions(bits, BITSET_SIZE)
  {
    var table := seq(BITSET_SIZE, _ => 0);
    for lane := 0 to 32
      invariant |table| == BITSET_SIZE && table[..|Positions(bits, lane)|] == Positions(bits, lane)
    {
      if bits[lane] {
        PositionsCount(bits, 0, lane);
        table := table[Count(bits, 0, lane) := lane];
      }
    }
    var low := Count(bits, 0, 32);
    PositionsCount(bits, 0, 32);
    for lane := 0 to 32
      invariant |table| == BITSET_SIZE && table[..|Positions(bits, 32 + lane)|] == Positions(bits, 32 + lane)
    {
      if bits[32 + lane] {
        PositionsCount(bits, 32, lane);
        table := table[low + Count(bits, 32, lane) := 32 + lane];
      }
    }
    PositionsCount(bits, 32, 32);
    fns := table[..low + Count(bits, 32, 32)];
  }

  // ---- threads ----

  /** Thread `h` acts as `tids[h]`; every number below the thread count is taken once. */
  ghost predicate Threads(tids: seq<nat>, holder: seq<nat>) {
    && |tids| == |holder|
    && (forall h :: 0 <= h < |tids| ==> tids[h] < |tids| && holder[tids[h]] == h)
    && forall t :: 0 <= t < |holder| ==> holder[t] < |tids| && tids[holder[t]] == t
  }

  function AllThreads(tn: nat): (tids: seq<nat>)
    ensures Threads(tids, tids) && |tids| == tn
  {
    if tn == 0 then [] else AllThreads(tn - 1) + [tn - 1]
  }

  method Rotate(tids: seq<nat>, ghost holder: seq<nat>) returns (tids': seq<nat>, ghost holder': seq<nat>)
    requires Threads(tids, holder) && 64 <= |tids|
    ensures Threads(tids', holder') && |tids'| == |tids|
    ensures forall h :: 0 <= h < |tids| ==> tids'[h] == if tids[h] < 64 then tids[h] + (|tids| - 64) else tids[h] - 64
  {
    var tn := |tids|;
    tids' := seq(tn, h requires 0 <= h < tn => if tids[h] < 64 then tids[h] + (tn - 64) else tids[h] - 64);
    holder' := seq(tn, t requires 0 <= t < tn => if t + 64 < tn then holder[t + 64] else holder[t + 64 - tn]);
  }

  // ---- one batch ----

  function Packs(t: WorkType): nat { WorkSize(t) / PACK }

  /** The batch as it stands in the kernel arguments: its base moved to the buffer's cursor. */
  function Rebase(st: Storage, b: Batch): Batch { b.(offsetBase := (b.offsetBase + st.cursor) % U32) }

  /** Where thread `t` of a batch's copy reads. */
  function ReadSlot(st: Storage, b: Batch, fns: seq<nat>, t: nat): nat
    requires 0 < st.modulus && t < |fns| * Packs(b.workType)
  {
    DivBelow(t, Packs(b.workType), |fns|);
    DivNonneg(t, Packs(b.workType));
    var offset := fns[t / Packs(b.workType)] * WorkSize(b.workType) + t % Packs(b.workType) * PACK;
    (b.offsetBase + offset) % U32 % st.modulus / PACK
  }

  /** Thread `t` of a batch's copy writes word `t` of the batch's place in shared memory. */
  lemma WriteIndex(cursor: nat, t: nat, packs: nat)
    requires 0 < packs
    ensures (cursor + t / packs) * packs + t % packs == cursor * packs + t
  {
    DivMod(t, packs);
    MulDistributes(packs, cursor, t / packs);
  }

  /** The `n` packs that a batch reads are in shared memory, from `at`; nothing before them has changed. */
  ghost predicate Copied<P>(st: Storage, mem: seq<P>, b: Batch, ps: seq<nat>, shmem0: seq<P>, shmem: seq<P>, at: nat,
      n: nat) {
    && 0 < st.modulus && n <= |ps| * Packs(b.workType) && at + n <= |shmem| == |shmem0| && shmem[..at] == shmem0[..at]
    && forall t :: 0 <= t < n ==> ReadSlot(st, b, ps, t) < |mem| && shmem[at + t] == mem[ReadSlot(st, b, ps, t)]
  }

  method LoadPacks<P>(st: Storage, mem: seq<P>, b: Batch, tids: seq<nat>, cursor: nat, shmem0: seq<P>,
      ghost holder: seq<nat>)
    returns (shmem: seq<P>, nWorks: nat)
    requires 0 < st.modulus && Threads(tids, holder)
    requires var ps := Positions(b.bits, BITSET_SIZE);
      && |ps| * Packs(b.workType) <= |tids|
      && cursor * Packs(b.workType) + |ps| * Packs(b.workType) <= |shmem0|
      && forall t :: 0 <= t < |ps| * Packs(b.workType) ==> ReadSlot(st, b, ps, t) < |mem|
    ensures nWorks == |Positions(b.bits, BITSET_SIZE)|
    ensures Copied(st, mem, b, Positions(b.bits, BITSET_SIZE), shmem0, shmem, cursor * Packs(b.workType),
        nWorks * Packs(b.workType))
  {
    var fns := FindSet(b.bits);
    nWorks := |fns|;
    var packs := Packs(b.workType);
    var nPacks, at := nWorks * packs, cursor * packs;
    shmem := shmem0;
    for h := 0 to |tids|
      invariant |shmem| == |shmem0| && shmem[..at] == shmem0[..at]
      invariant forall t :: 0 <= t < nPacks && holder[t] < h ==> shmem[at + t] == mem[ReadSlot(st, b, fns, t)]
    {
      var t := tids[h];
      if t < nPacks {
        WriteIndex(cursor, t, packs);
        shmem := shmem[(cursor + t / packs) * packs + t % packs := mem[ReadSlot(st, b, fns, t)]];
      }
    }
  }

  // ---- what a batch stands for ----

  ghost predicate InStore<P>(store: seq<P>, w: Work) {
    w.offset % PACK == 0 && w.offset + WorkSize(w.workType) <= PACK * |store|
  }

  ghost predicate AllIn<P>(store: seq<P>, ws: seq<Work>) { forall i :: 0 <= i < |ws| ==> InStore(store, ws[i]) }

  ghost predicate Uniform(ws: seq<Work>, t: WorkType, funcId: nat) {
    forall i :: 0 <= i < |ws| ==> ws[i].workType == t && ws[i].funcId == funcId
  }

  /** The packs of a work struct of the plan. */
  ghost function Struct<P>(store: seq<P>, w: Work): (s: seq<P>)
    requires InStore(store, w)
    ensures |s| == Packs(w.workType)
  {
    store[w.offset / PACK..w.offset / PACK + Packs(w.workType)]
  }

  ghost function Structs<P>(store: seq<P>, ws: seq<Work>): seq<P>
    requires AllIn(store, ws)
  {
    if ws == [] then [] else Structs(store, ws[..|ws| - 1]) + Struct(store, ws[|ws| - 1])
  }

  /** Pack `i` of `n` structs belongs to one of the first `n - 1` or to the last one. */
  lemma PackPlace(n: nat, packs: nat, i: nat)
    requires 0 < n && 0 < packs
    ensures 0 <= (n - 1) * packs && n * packs == (n - 1) * packs + packs
    ensures i < (n - 1) * packs ==> 0 <= i / packs < n - 1
    ensures (n - 1) * packs <= i < n * packs ==> i / packs == n - 1 && i % packs == i - (n - 1) * packs
  {
    MulNonneg(n - 1, packs);
    MulDistributes(packs, n, 1);
    if i < (n - 1) * packs {
      DivBelow(i, packs, n - 1);
      DivNonneg(i, packs);
    } else if i < n * packs {
      DivModUnique(i, packs, n - 1, i - (n - 1) * packs);
    }
  }

  lemma {:induction false} StructsAt<P>(store: seq<P>, ws: seq<Work>, t: WorkType, funcId: nat, i: nat)
    requires AllIn(store, ws) && Uniform(ws, t, funcId)
    ensures |Structs(store, ws)| == |ws| * Packs(t)
    ensures i < |ws| * Packs(t) ==>
      0 <= i / Packs(t) < |ws| && Structs(store, ws)[i] == Struct(store, ws[i / Packs(t)])[i % Packs(t)]
  {
    if ws != [] {
      var n, packs := |ws| - 1, Packs(t);
      StructsAt(store, ws[..n], t, funcId, i);
      PackPlace(|ws|, packs, i);
      var before, last := Structs(store, ws[..n]), Struct(store, ws[n]);
      assert ws[n].workType == t && |before| == n * packs && |last| == packs && Structs(store, ws) == before + last;
      if i < n * packs {
        assert ws[..n][i / packs] == ws[i / packs] && (before + last)[i] == before[i];
      } else if i < |ws| * packs {
        assert (before + last)[i] == last[i - n * packs];
      }
    }
  }

  lemma StructsOneMore<P>(store: seq<P>, ws: seq<Work>, w: Work)
    requires AllIn(store, ws) && InStore(store, w)
    ensures AllIn(store, ws + [w]) && Structs(store, ws + [w]) == Structs(store, ws) + Struct(store, w)
  {
    assert (ws + [w])[..|ws|] == ws;
  }

  lemma {:induction false} StructsAppend<P>(store: seq<P>, a: seq<Work>, b: seq<Work>)
    requires AllIn(store, a) && AllIn(store, b)
    ensures AllIn(store, a + b) && Structs(store, a + b) == Structs(store, a) + Structs(store, b)
  {
    AllInBoth(store, a, b);
    if b == [] {
      assert a + b == a;
    } else {
      var b', w := b[..|b| - 1], b[|b| - 1];
      StructsAppend(store, a, b');
      StructsOneMore(store, a + b', w);
      assert a + b == a + b' + [w];
    }
  }

  lemma AllInBoth<P>(store: seq<P>, a: seq<Work>, b: seq<Work>)
    requires AllIn(store, a) && AllIn(store, b)
    ensures AllIn(store, a + b)
  {
  }

  /** The device's address for a pack is where the host put it. */
  lemma ReadIsPackSlot(st: Storage, b: Batch, ps: seq<nat>, t: nat)
    requires Ok(st) && t < |ps| * Packs(b.workType) && b.offsetBase % PACK == 0
    ensures var packs := Packs(b.workType);
      0 <= t / packs < |ps| &&
      var offset := b.offsetBase + ps[t / packs] * WorkSize(b.workType);
      offset % PACK == 0 && 0 <= offset / PACK + t % packs
      && ReadSlot(st, Rebase(st, b), ps, t) == PackSlot(st, offset / PACK + t % packs)
  {
    var packs, size := Packs(b.workType), WorkSize(b.workType);
    DivBelow(t, packs, |ps|);
    DivNonneg(t, packs);
    DivMod(t, packs);
    var k := ps[t / packs];
    MulNonneg(k, size);
    var offset := b.offsetBase + k * size;
    var inside := k * size + t % packs * PACK;
    assert offset % PACK == 0 by { OffsetAligned(b.offsetBase, k, b.workType); }
    var x := b.offsetBase + st.cursor;
    DivMod(x, U32);
    ModEqual(x % U32 + inside, x + inside, U32, x / U32);
  }

  lemma OffsetAligned(base: nat, k: nat, t: WorkType)
    requires base % PACK == 0
    ensures (base + k * WorkSize(t)) % PACK == 0
  {
    assert k * WorkSize(t) == PACK * (k * Packs(t)) by { assert WorkSize(t) == PACK * Packs(t); }
    ModAddMultiple(base, PACK, k * Packs(t));
  }

  /** A batch reads exactly its work structs. */
  lemma BatchReads<P>(st: Storage, mem: seq<P>, store: seq<P>, b: Batch, t: nat)
    requires Ok(st) && Uploaded(st, mem, store) && AllIn(store, Works(b)) && b.bits[0]
    requires t < |Works(b)| * Packs(b.workType)
    ensures Uniform(Works(b), b.workType, b.funcId) && |Structs(store, Works(b))| == |Works(b)| * Packs(b.workType)
    ensures ReadSlot(st, Rebase(st, b), Positions(b.bits, BITSET_SIZE), t) < |mem|
    ensures mem[ReadSlot(st, Rebase(st, b), Positions(b.bits, BITSET_SIZE), t)] == Structs(store, Works(b))[t]
  {
    var ps, packs := Positions(b.bits, BITSET_SIZE), Packs(b.workType);
    BaseIsFirst(b);
    assert InStore(store, Works(b)[0]);
    ReadIsPackSlot(st, b, ps, t);
    StructsAt(store, Works(b), b.workType, b.funcId, t);
    var w := Works(b)[t / packs];
    assert InStore(store, w);
    DivMod(t, packs);
    var p := w.offset / PACK + t % packs;
    assert p < |store|;
    assert mem[PackSlot(st, p)] == store[p];
  }

  lemma BaseIsFirst(b: Batch)
    requires b.bits[0]
    ensures Works(b) != [] && Works(b)[0].offset == b.offsetBase
  {
    FirstPosition(b.bits, BITSET_SIZE);
  }

  lemma {:induction false} FirstPosition(bits: seq<bool>, n: nat)
    requires 0 < n <= |bits| && bits[0]
    ensures Positions(bits, n) != [] && Positions(bits, n)[0] == 0
  {
    if n != 1 { FirstPosition(bits, n - 1); }
  }

  lemma BatchFills<P>(st: Storage, mem: seq<P>, store: seq<P>, b: Batch)
    requires Ok(st) && Uploaded(st, mem, store) && AllIn(store, Works(b)) && b.bits[0]
    ensures var ps, n := Positions(b.bits, BITSET_SIZE), |Works(b)| * Packs(b.workType);
      && |Structs(store, Works(b))| == n
      && forall t :: 0 <= t < n ==>
        ReadSlot(st, Rebase(st, b), ps, t) < |mem|
        && mem[ReadSlot(st, Rebase(st, b), ps, t)] == Structs(store, Works(b))[t]
  {
    var ps, n := Positions(b.bits, BITSET_SIZE), |Works(b)| * Packs(b.workType);
    StructsAt(store, Works(b), b.workType, b.funcId, 0);
    forall t | 0 <= t < n
      ensures ReadSlot(st, Rebase(st, b), ps, t) < |mem|
      ensures mem[ReadSlot(st, Rebase(st, b), ps, t)] == Structs(store, Works(b))[t]
    {
      BatchReads(st, mem, store, b, t);
    }
  }

  /** One batch's share of shared memory after the copy. */
  method LoadBatch<P>(st: Storage, mem: seq<P>, b: Batch, tids: seq<nat>, cursor: nat, shmem0: seq<P>,
      ghost holder: seq<nat>, ghost store: seq<P>, ghost b0: Batch)
    returns (shmem: seq<P>, nWorks: nat)
    requires Ok(st) && Uploaded(st, mem, store) && AllIn(store, Works(b0)) && b0.bits[0]
    requires b.bits == b0.bits && b.workType == b0.workType && b.offsetBase == Rebase(st, b0).offsetBase
    requires Threads(tids, holder) && |shmem0| <= |tids|
    requires cursor * Packs(b.workType) + |Works(b0)| * Packs(b.workType) <= |shmem0|
    ensures nWorks == |Works(b0)| && |shmem| == |shmem0|
    ensures shmem[..(cursor + nWorks) * Packs(b.workType)]
       == shmem0[..cursor * Packs(b.workType)] + Structs(store, Works(b0))
  {
    ghost var ps, packs := Positions(b.bits, BITSET_SIZE), Packs(b.workType);
    CopyFills(st, mem, store, b, b0);
    MulNonneg(cursor, packs);
    MulNonneg(|ps|, packs);
    shmem, nWorks := LoadPacks(st, mem, b, tids, cursor, shmem0, holder);
    MulDistributes(packs, cursor, nWorks);
    FilledPrefix(st, mem, b, ps, shmem0, shmem, cursor * packs, nWorks * packs, Structs(store, Works(b0)));
  }

  lemma FilledPrefix<P>(st: Storage, mem: seq<P>, b: Batch, ps: seq<nat>, shmem0: seq<P>, shmem: seq<P>, at: nat,
      n: nat, structs: seq<P>)
    requires Copied(st, mem, b, ps, shmem0, shmem, at, n) && Fills(st, mem, b, ps, n, structs)
    ensures shmem[..at + n] == shmem0[..at] + structs
  {
    forall i | 0 <= i < at + n ensures shmem[..at + n][i] == (shmem0[..at] + structs)[i] {
      if i < at {
        assert shmem[..at][i] == shmem0[..at][i];
      } else {
        assert structs[i - at] == mem[ReadSlot(st, b, ps, i - at)];
      }
    }
  }

  /** The `n` packs that a batch reads are `structs`. */
  ghost predicate Fills<P>(st: Storage, mem: seq<P>, b: Batch, ps: seq<nat>, n: nat, structs: seq<P>) {
    && 0 < st.modulus && n == |structs| <= |ps| * Packs(b.workType)
    && forall t :: 0 <= t < n ==> ReadSlot(st, b, ps, t) < |mem| && mem[ReadSlot(st, b, ps, t)] == structs[t]
  }

  /** A batch with the same works and base reads the same structs. */
  lemma CopyFills<P>(st: Storage, mem: seq<P>, store: seq<P>, b: Batch, b0: Batch)
    requires Ok(st) && Uploaded(st, mem, store) && AllIn(store, Works(b0)) && b0.bits[0]
    requires b.bits == b0.bits && b.workType == b0.workType && b.offsetBase == Rebase(st, b0).offsetBase
    ensures var ps, n := Positions(b.bits, BITSET_SIZE), |Works(b0)| * Packs(b.workType);
      |ps| == |Works(b0)| && Fills(st, mem, b, ps, n, Structs(store, Works(b0)))
  {
    BatchFills(st, mem, store, b0);
    SameSlots(st, b, Rebase(st, b0), Positions(b.bits, BITSET_SIZE));
  }

  lemma SameSlots(st: Storage, b: Batch, b': Batch, ps: seq<nat>)
    requires b.workType == b'.workType && b.offsetBase == b'.offsetBase && Ok(st) && 0 < Packs(b.workType)
    ensures forall t :: 0 <= t < |ps| * Packs(b.workType) ==> ReadSlot(st, b, ps, t) == ReadSlot(st, b', ps, t)
  {
  }

  // ---- a fused batch, and a whole channel ----

  /** What a block's threads find in shared memory before they run a fused batch. */
  datatype Run<P> = Run(workType: WorkType, funcId: nat, nWorks: nat, packs: seq<P>)

  /** The works of a fused batch are of one kind and fill shared memory at most. */
  ghost predicate Loadable<P>(store: seq<P>, ws: seq<Work>) {
    ws != [] && AllIn(store, ws) && Uniform(ws, ws[0].workType, ws[0].funcId)
    && |ws| * Packs(ws[0].workType) <= SHMEM_PACKS
  }

  ghost function RunOf<P>(store: seq<P>, ws: seq<Work>): Run<P>
    requires Loadable(store, ws)
  {
    Run(ws[0].workType, ws[0].funcId, |ws|, Structs(store, ws))
  }

  function Rebased(st: Storage, bs: seq<Batch>): (rs: seq<Batch>)
    ensures |rs| == |bs|
  {
    seq(|bs|, i requires 0 <= i < |bs| => Rebase(st, bs[i]))
  }

  ghost predicate Started(bs: seq<Batch>) {
    && (forall i :: 0 <= i < |bs| ==> bs[i].bits[0])
    && (bs != [] ==> !bs[|bs| - 1].nextExtends)
  }

  lemma FuseHead(bs: seq<Batch>, j: nat)
    requires j < |bs| && Started(bs)
    ensures bs[j].nextExtends ==>
      j + 1 < |bs| && Fuse(bs[j..])[0] == Works(bs[j]) + Fuse(bs[j + 1..])[0]
      && Fuse(bs[j..])[1..] == Fuse(bs[j + 1..])[1..]
    ensures !bs[j].nextExtends ==> Fuse(bs[j..])[0] == Works(bs[j]) && Fuse(bs[j..])[1..] == Fuse(bs[j + 1..])
  {
    assert bs[j..][1..] == bs[j + 1..];
  }

  /** The works of one batch inside a loadable fused batch. */
  lemma PartLoads<P>(store: seq<P>, acc: seq<Work>, ws: seq<Work>, rest: seq<Work>, group: seq<Work>, t: WorkType,
      funcId: nat)
    requires Loadable(store, group) && group == acc + (ws + rest) && ws != [] && Uniform(ws, t, funcId)
    ensures t == group[0].workType && funcId == group[0].funcId
    ensures AllIn(store, acc) && AllIn(store, ws) && AllIn(store, acc + ws)
    ensures Structs(store, acc + ws) == Structs(store, acc) + Structs(store, ws)
    ensures |acc| * Packs(t) + |ws| * Packs(t) <= SHMEM_PACKS
  {
    PartsIn(store, acc, ws, rest, group);
    assert ws[0] == group[|acc|] && ws[0].workType == t && ws[0].funcId == funcId;
    StructsAppend(store, acc, ws);
    PartRoom(|acc|, |ws|, |group|, Packs(t));
  }

  lemma PartRoom(a: nat, b: nat, all: nat, packs: nat)
    requires a + b <= all && all * packs <= SHMEM_PACKS
    ensures a * packs + b * packs <= SHMEM_PACKS
  {
    MulDistributes(packs, a, b);
    MulLe(packs, a + b, all);
  }

  lemma PartsIn<P>(store: seq<P>, acc: seq<Work>, ws: seq<Work>, rest: seq<Work>, group: seq<Work>)
    requires AllIn(store, group) && group == acc + (ws + rest)
    ensures AllIn(store, acc) && AllIn(store, ws)
  {
    forall i | 0 <= i < |acc| ensures InStore(store, acc[i]) { assert acc[i] == group[i]; }
    forall i | 0 <= i < |ws| ensures InStore(store, ws[i]) { assert ws[i] == group[|acc| + i]; }
  }

  /** Shared memory holds the works `acc`. */
  ghost predicate Holds<P>(shmem: seq<P>, cursor: nat, t: WorkType, store: seq<P>, acc: seq<Work>) {
    && |shmem| == SHMEM_PACKS && |acc| == cursor && AllIn(store, acc)
    && cursor * Packs(t) <= SHMEM_PACKS && shmem[..cursor * Packs(t)] == Structs(store, acc)
  }

  /** One batch of a fused batch. */
  method LoadPart<P>(st: Storage, mem: seq<P>, b: Batch, tids: seq<nat>, cursor: nat, shmem0: seq<P>,
      ghost holder: seq<nat>, ghost store: seq<P>, ghost b0: Batch, ghost acc: seq<Work>, ghost rest: seq<Work>,
      ghost group: seq<Work>)
    returns (shmem: seq<P>, cursor': nat)
    requires Ok(st) && Uploaded(st, mem, store) && Threads(tids, holder) && SHMEM_PACKS <= |tids|
    requires b0.bits[0] && b == Rebase(st, b0).(nextJump := b.nextJump)
    requires Loadable(store, group) && group == acc + (Works(b0) + rest)
    requires Holds(shmem0, cursor, group[0].workType, store, acc)
    ensures b.workType == group[0].workType && b.funcId == group[0].funcId
    ensures Holds(shmem, cursor', group[0].workType, store, acc + Works(b0))
  {
    BaseIsFirst(b0);
    PartLoads(store, acc, Works(b0), rest, group, b.workType, b.funcId);
    var n;
    shmem, n := LoadBatch(st, mem, b, tids, cursor, shmem0, holder, store, b0);
    MulDistributes(Packs(b.workType), cursor, n);
    cursor' := cursor + n;
  }

  /** `fused[j]` are the fused batches from batch `j` on. */
  ghost predicate FusedFrom(bs: seq<Batch>, fused: seq<seq<seq<Work>>>) {
    && |fused| == |bs| + 1 && fused[|bs|] == []
    && (forall j :: 0 <= j < |bs| ==> fused[j] != [])
    && forall j :: 0 <= j < |bs| ==> FusedAt(bs, fused, j)
  }

  ghost predicate FusedAt(bs: seq<Batch>, fused: seq<seq<seq<Work>>>, j: nat)
    requires j < |bs| && |fused| == |bs| + 1 && fused[j] != []
  {
    if bs[j].nextExtends then
      j + 1 < |bs| && fused[j + 1] != [] && fused[j][0] == Works(bs[j]) + fused[j + 1][0]
      && fused[j][1..] == fused[j + 1][1..]
    else
      fused[j][0] == Works(bs[j]) && fused[j][1..] == fused[j + 1]
  }

  ghost function FuseTable(bs: seq<Batch>): (fused: seq<seq<seq<Work>>>)
    requires Started(bs)
    ensures FusedFrom(bs, fused) && fused[0] == Fuse(bs)
  {
    var fused := seq(|bs| + 1, j requires 0 <= j <= |bs| => Fuse(bs[j..]));
    assert bs[0..] == bs;
    assert forall j :: 0 <= j < |bs| ==> FusedAt(bs, fused, j) by {
      forall j | 0 <= j < |bs| ensures FusedAt(bs, fused, j) { FuseHead(bs, j); }
    }
    fused
  }

  /** After the works `acc` of the fused batch that starts at `k`, batch `j` comes next. */
  ghost predicate Before(fused: seq<seq<seq<Work>>>, k: nat, j: nat, acc: seq<Work>) {
    k <= j < |fused| && fused[k] != [] && fused[j] != [] && acc + fused[j][0] == fused[k][0]
    && fused[j][1..] == fused[k][1..]
  }

  lemma BeforeStep(bs: seq<Batch>, fused: seq<seq<seq<Work>>>, k: nat, j: nat, acc: seq<Work>) returns (rest: seq<Work>)
    requires FusedFrom(bs, fused) && Before(fused, k, j, acc) && j < |bs|
    ensures fused[k][0] == acc + (Works(bs[j]) + rest)
    ensures bs[j].nextExtends ==> Before(fused, k, j + 1, acc + Works(bs[j])) && j + 1 < |bs|
    ensures !bs[j].nextExtends ==> acc + Works(bs[j]) == fused[k][0] && fused[k][1..] == fused[j + 1]
  {
    assert FusedAt(bs, fused, j);
    rest := if bs[j].nextExtends then fused[j + 1][0] else [];
    assert Works(bs[j]) + [] == Works(bs[j]);
    assert acc + (Works(bs[j]) + rest) == acc + Works(bs[j]) + rest;
  }

  /** Batch `j` is at `i`, and its jump leads to the next one. */
  lemma JumpsToNext(st: Storage, out: seq<Batch>, ps: seq<nat>, bs: seq<Batch>, j: nat)
    requires Chain(out, ps, Rebased(st, bs)) && j < |bs|
    ensures ps[j] < |out| && out[ps[j]] == Rebase(st, bs[j]).(nextJump := out[ps[j]].nextJump)
    ensures if j + 1 < |bs| then out[ps[j]].nextJump != 0 && ps[j] + out[ps[j]].nextJump == ps[j + 1]
      else out[ps[j]].nextJump == 0
  {
    assert Link(out, ps, Rebased(st, bs), j);
  }

  /** One batch of the fused batch that starts at `k`. */
  method LoadNext<P>(st: Storage, mem: seq<P>, b: Batch, tids: seq<nat>, cursor: nat, shmem: seq<P>,
      ghost holder: seq<nat>, ghost store: seq<P>, ghost bs: seq<Batch>, ghost fused: seq<seq<seq<Work>>>,
      ghost k: nat, ghost j: nat, ghost acc: seq<Work>)
    returns (shmem': seq<P>, cursor': nat, ghost acc': seq<Work>)
    requires Ok(st) && Uploaded(st, mem, store) && Threads(tids, holder) && SHMEM_PACKS <= |tids|
    requires Started(bs) && FusedFrom(bs, fused) && j < |bs| && Before(fused, k, j, acc)
    requires b == Rebase(st, bs[j]).(nextJump := b.nextJump)
    requires Loadable(store, fused[k][0]) && Holds(shmem, cursor, fused[k][0][0].workType, store, acc)
    ensures b.workType == fused[k][0][0].workType && b.funcId == fused[k][0][0].funcId
    ensures Holds(shmem', cursor', b.workType, store, acc')
    ensures b.nextExtends ==> j + 1 < |bs| && Before(fused, k, j + 1, acc')
    ensures !b.nextExtends ==> acc' == fused[k][0] && fused[k][1..] == fused[j + 1]
  {
    ghost var rest := BeforeStep(bs, fused, k, j, acc);
    shmem', cursor' := LoadPart(st, mem, b, tids, cursor, shmem, holder, store, bs[j], acc, rest, fused[k][0]);
    acc' := acc + Works(bs[j]);
  }

  /** loadWorkBatchToShmem: the batch at `ix` and its extensions. */
  method LoadWorkBatch<P>(st: Storage, mem: seq<P>, out: seq<Batch>, ix: nat, tn: nat, shmem0: seq<P>,
      ghost store: seq<P>, ghost ps: seq<nat>, ghost bs: seq<Batch>, ghost fused: seq<seq<seq<Work>>>, ghost k: nat)
    returns (run: Run<P>, next: int, ghost k': nat)
    requires Ok(st) && Uploaded(st, mem, store) && |shmem0| == SHMEM_PACKS && 64 <= tn
    requires Chain(out, ps, Rebased(st, bs)) && Started(bs) && k < |bs| && ix == ps[k]
    requires FusedFrom(bs, fused) && Loadable(store, fused[k][0])
    ensures k < k' <= |bs| && next == if k' == |bs| then -1 else ps[k']
    ensures run == RunOf(store, fused[k][0]) && fused[k][1..] == fused[k']
  {
    var tids := AllThreads(tn);
    ghost var holder := tids;
    var shmem, cursor: nat, i: nat := shmem0, 0, ix;
    ghost var acc: seq<Work>, j: nat := [], k;
    assert acc + fused[k][0] == fused[k][0];
    JumpsToNext(st, out, ps, bs, j);
    while out[i].nextExtends
      invariant k <= j < |bs| && i == ps[j] < |out| && Before(fused, k, j, acc)
      invariant Threads(tids, holder) && |tids| == tn && Holds(shmem, cursor, fused[k][0][0].workType, store, acc)
      decreases |bs| - j
    {
      JumpsToNext(st, out, ps, bs, j);
      shmem, cursor, acc := LoadNext(st, mem, out[i], tids, cursor, shmem, holder, store, bs, fused, k, j, acc);
      i, j := i + out[i].nextJump, j + 1;
      JumpsToNext(st, out, ps, bs, j);
      tids, holder := Rotate(tids, holder);
    }
    JumpsToNext(st, out, ps, bs, j);
    shmem, cursor, acc := LoadNext(st, mem, out[i], tids, cursor, shmem, holder, store, bs, fused, k, j, acc);
    next := if out[i].nextJump == 0 then -1 else i + out[i].nextJump;
    run := Run(out[i].workType, out[i].funcId, cursor, shmem[..cursor * Packs(out[i].workType)]);
    k' := j + 1;
  }

  ghost function RunsOf<P>(store: seq<P>, groups: seq<seq<Work>>): (rs: seq<Run<P>>)
    requires forall i :: 0 <= i < |groups| ==> Loadable(store, groups[i])
    ensures |rs| == |groups|
  {
    seq(|groups|, i requires 0 <= i < |groups| => RunOf(store, groups[i]))
  }

  /** The kernel's main loop: everything a block runs, from the batch with the block's number on. */
  method RunBlock<P>(st: Storage, mem: seq<P>, out: seq<Batch>, block: nat, tn: nat, shmem: seq<P>,
                     ghost store: seq<P>, ghost ps: seq<nat>, ghost bs: seq<Batch>)
    returns (runs: seq<Run<P>>)
    requires Ok(st) && Uploaded(st, mem, store) && |shmem| == SHMEM_PACKS && 128 <= tn
    requires Chain(out, ps, Rebased(st, bs)) && Started(bs) && bs != [] && block == ps[0]
    requires forall i :: 0 <= i < |Fuse(bs)| ==> Loadable(store, Fuse(bs)[i])
    ensures runs == RunsOf(store, Fuse(bs))
  {
    runs := RunFrom(st, mem, out, block, tn, shmem, store, ps, bs, FuseTable(bs));
  }

  method RunFrom<P>(st: Storage, mem: seq<P>, out: seq<Batch>, block: nat, tn: nat, shmem: seq<P>,
                    ghost store: seq<P>, ghost ps: seq<nat>, ghost bs: seq<Batch>, ghost fused: seq<seq<seq<Work>>>)
    returns (runs: seq<Run<P>>)
    requires Ok(st) && Uploaded(st, mem, store) && |shmem| == SHMEM_PACKS && 128 <= tn
    requires Chain(out, ps, Rebased(st, bs)) && Started(bs) && bs != [] && block == ps[0]
    requires FusedFrom(bs, fused) && forall i :: 0 <= i < |fused[0]| ==> Loadable(store, fused[0][i])
    ensures |runs| == |fused[0]| && forall i :: 0 <= i < |runs| ==> runs[i] == RunOf(store, fused[0][i])
  {
    ghost var all := fused[0];
    var run, next;
    ghost var k;
    run, next, k := LoadWorkBatch(st, mem, out, block, tn - 64, shmem, store, ps, bs, fused, 0);
    runs := [run];
    while next != -1
      invariant 0 < k <= |bs| && next == if k == |bs| then -1 else ps[k]
      invariant |runs| <= |all| && all[|runs|..] == fused[k]
      invariant forall i :: 0 <= i < |runs| ==> runs[i] == RunOf(store, all[i])
      decreases |bs| - k
    {
      assert all[|runs|..][0] == all[|runs|];
      assert all[|runs|..][1..] == all[|runs| + 1..];
      run, next, k := LoadWorkBatch(st, mem, out, next, tn, shmem, store, ps, bs, fused, k);
      runs := runs + [run];
    }
  }
}
