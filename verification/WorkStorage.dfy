/**
 Where a plan's work structs live and how the device loads them. The host copies the structs, in
 16-byte packs, behind the kernel arguments, into a ring buffer or into a buffer of the plan's own,
 and moves the batches' offsets along; a block's threads copy the packs of a batch into shared
 memory, and move on by two warps for every extension batch.
 */
module WorkStorage {
  import opened Arith
  import opened WorkBatch

  const U32: nat := 0x1_0000_0000

  const PACK: nat := 16

  /** Shared memory holds 1024 bytes of work. */
  const SHMEM_PACKS: nat := 64

  /**
   Cursor and size of the buffer. Masking with size - 1 is the remainder by the size, a power of two
   that divides 2^32; kernel arguments and plan-owned buffers are addressed without a mask.
   */
  datatype Storage = Storage(cursor: nat, modulus: nat)

  predicate Ok(st: Storage) {
    0 < st.modulus && st.cursor % PACK == 0 && st.modulus % PACK == 0 && U32 % st.modulus == 0
  }

  /** Where the plan's pack `p` goes. */
  function PackSlot(st: Storage, p: nat): nat
    requires 0 < st.modulus
  {
    (st.cursor + PACK * p) % U32 % st.modulus / PACK
  }

  lemma ModMod(x: nat, m: nat, k: nat)
    requires 0 < m && 0 < k
    ensures 0 < m * k && x % (m * k) % m == x % m
  {
    MulNonneg(m, k);
    DivMod(x, m * k);
    var q := x / (m * k);
    assert x == x % (m * k) + m * (k * q) by { assert m * k * q == m * (k * q); }
    ModEqual(x % (m * k), x, m, k * q);
  }

  lemma SlotIs(st: Storage, x: nat)
    requires Ok(st) && x % PACK == 0
    ensures 0 < st.modulus / PACK
    ensures x % U32 % st.modulus / PACK == x / PACK % (st.modulus / PACK)
  {
    var m, k := st.modulus, U32 / st.modulus;
    DivMod(U32, m);
    ModMod(x, m, k);
    var mp, y := m / PACK, x / PACK;
    DivMod(y, mp);
    MulDistributes(PACK, mp * (y / mp), y % mp);
    assert x == m * (y / mp) + PACK * (y % mp) by { assert PACK * (mp * (y / mp)) == PACK * mp * (y / mp); }
    DivModUnique(x, m, y / mp, PACK * (y % mp));
    DivModUnique(PACK * (y % mp), PACK, y % mp, 0);
  }

  lemma PackSlotIs(st: Storage, p: nat)
    requires Ok(st)
    ensures 0 < st.modulus / PACK && PackSlot(st, p) == (st.cursor / PACK + p) % (st.modulus / PACK)
  {
    SlotIs(st, st.cursor + PACK * p);
  }

  /** Packs of a plan that fits the buffer do not overwrite each other. */
  lemma PackSlotsDiffer(st: Storage, p: nat, q: nat)
    requires Ok(st) && p < q && PACK * (q - p) < st.modulus
    ensures PackSlot(st, p) != PackSlot(st, q)
  {
    PackSlotIs(st, p);
    PackSlotIs(st, q);
    if PackSlot(st, p) == PackSlot(st, q) { ModApart(st.cursor / PACK + p, st.cursor / PACK + q, st.modulus / PACK); }
  }

  ghost predicate Room(st: Storage, n: nat, len: nat) {
    Ok(st) && PACK * n <= st.modulus && forall p :: 0 <= p < n ==> PackSlot(st, p) < len
  }

  ghost predicate Uploaded<P>(st: Storage, mem: seq<P>, store: seq<P>)
    requires 0 < st.modulus
  {
    forall p :: 0 <= p < |store| ==> PackSlot(st, p) < |mem| && mem[PackSlot(st, p)] == store[p]
  }

  /** A memory cell that no pack of the plan uses keeps its value. */
  ghost predicate Kept<P>(st: Storage, mem0: seq<P>, mem: seq<P>, n: nat)
    requires 0 < st.modulus
  {
    |mem| == |mem0| && forall a :: 0 <= a < |mem| && (forall p :: 0 <= p < n ==> PackSlot(st, p) != a) ==>
      mem[a] == mem0[a]
  }

  lemma WriteOne<P>(st: Storage, mem: seq<P>, store: seq<P>, v: P)
    requires Room(st, |store| + 1, |mem|) && Uploaded(st, mem, store)
    ensures Uploaded(st, mem[PackSlot(st, |store|) := v], store + [v])
  {
    forall p | 0 <= p < |store| ensures PackSlot(st, p) != PackSlot(st, |store|) {
      PackSlotsDiffer(st, p, |store|);
    }
  }

  lemma CursorAt(st: Storage, n: nat, cursor: nat)
    requires Ok(st) && cursor == (st.cursor + PACK * n) % U32
    ensures cursor % st.modulus / PACK == PackSlot(st, n)
    ensures (cursor + PACK) % U32 == (st.cursor + PACK * (n + 1)) % U32
  {
    var x := st.cursor + PACK * n;
    DivMod(x, U32);
    ModEqual(cursor + PACK, x + PACK, U32, x / U32);
  }

  /** One work struct is copied, pack by pack. */
  method UploadStruct<P>(st: Storage, mem0: seq<P>, cursor0: nat, src: seq<P>, ghost store: seq<P>)
    returns (mem: seq<P>, cursor: nat)
    requires Room(st, |store| + |src|, |mem0|) && Uploaded(st, mem0, store)
    requires cursor0 == (st.cursor + PACK * |store|) % U32
    ensures Uploaded(st, mem, store + src) && Kept(st, mem0, mem, |store| + |src|)
    ensures cursor == (st.cursor + PACK * (|store| + |src|)) % U32
  {
    mem, cursor := mem0, cursor0;
    assert store + src[..0] == store;
    for i := 0 to |src|
      invariant Uploaded(st, mem, store + src[..i]) && Kept(st, mem0, mem, |store| + |src|)
      invariant cursor == (st.cursor + PACK * (|store| + i)) % U32
    {
      CursorAt(st, |store| + i, cursor);
      WriteOne(st, mem, store + src[..i], src[i]);
      mem := mem[cursor % st.modulus / PACK := src[i]];
      cursor := (cursor + PACK) % U32;
      assert store + src[..i + 1] == store + src[..i] + [src[i]];
    }
    assert src[..|src|] == src;
  }

  /** The copying loops of uploadWork. */
  method Upload<P>(st: Storage, mem0: seq<P>, works: seq<seq<P>>) returns (mem: seq<P>, cursor: nat)
    requires Room(st, |Flatten(works)|, |mem0|)
    ensures Uploaded(st, mem, Flatten(works)) && Kept(st, mem0, mem, |Flatten(works)|)
    ensures cursor == (st.cursor + PACK * |Flatten(works)|) % U32
  {
    mem, cursor := mem0, st.cursor % U32;
    for w := 0 to |works|
      invariant Uploaded(st, mem, Flatten(works[..w])) && Kept(st, mem0, mem, |Flatten(works)|)
      invariant cursor == (st.cursor + PACK * |Flatten(works[..w])|) % U32
    {
      FlattenStep(works, w);
      FlattenLe(works, w + 1);
      mem, cursor := UploadStruct(st, mem, cursor, works[w], Flatten(works[..w]));
    }
    assert works[..|works|] == works;
  }

  lemma FlattenStep<P>(works: seq<seq<P>>, w: nat)
    requires w < |works|
    ensures Flatten(works[..w + 1]) == Flatten(works[..w]) + works[w]
  {
    assert works[..w + 1][..w] == works[..w];
  }

  lemma {:induction false} FlattenLe<P>(works: seq<seq<P>>, w: nat)
    requires w <= |works|
    ensures |Flatten(works[..w])| <= |Flatten(works)|
    decreases |works| - w
  {
    if w < |works| {
      FlattenStep(works, w);
      FlattenLe(works, w + 1);
    } else {
      assert works[..w] == works;
    }
  }
}
