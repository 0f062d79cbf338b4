/** Which sizes of the work ring buffer keep the work structs of a plan apart. */
module RingSize {
  /** Cursors `d` apart address different bytes of a ring of `size` bytes. */
  predicate Apart(size: bv32, cursor: bv32, d: bv32) { cursor & (size - 1) != (cursor + d) & (size - 1) }

  lemma PowerOfTwoApart(size: bv32, cursor: bv32, d: bv32)
    requires size & (size - 1) == 0 && 0 < d < size
    ensures Apart(size, cursor, d)
  {
  }

  /**
   A size that is no power of two, which initialization takes over after warning that it does not, folds packs onto each
   other.
   */
  lemma OthersCollide(size: bv32) returns (d: bv32)
    requires size & (size - 1) != 0
    ensures 0 < d < size && !Apart(size, 0, d)
    ensures size & 15 == 0 ==> d & 15 == 0
  {
    d := LowestBit(size);
    assert d & (size - 1) == 0 by { LowestBitMasked(size); }
    assert d < size by { LowestBitBelow(size); }
    assert (0 as bv32) + d == d;
  }

  function LowestBit(size: bv32): bv32 { size & (0 - size) }

  lemma LowestBitMasked(size: bv32)
    ensures LowestBit(size) & (size - 1) == 0
    ensures size & 15 == 0 ==> LowestBit(size) & 15 == 0
  {
  }

  lemma LowestBitBelow(size: bv32)
    requires size & (size - 1) != 0
    ensures 0 < LowestBit(size) < size
  {
  }

  /** The ring keeps what fits in it apart exactly if its size is a power of two. */
  lemma RingKeepsApartIff(size: bv32)
    ensures (forall cursor: bv32, d: bv32 :: 0 < d < size ==> Apart(size, cursor, d)) <==> size & (size - 1) == 0
  {
    if size & (size - 1) == 0 {
      forall cursor: bv32, d: bv32 | 0 < d < size ensures Apart(size, cursor, d) {
        PowerOfTwoApart(size, cursor, d);
      }
    } else {
      var d := OthersCollide(size);
    }
  }
}
