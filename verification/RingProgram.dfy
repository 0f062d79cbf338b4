/**
 The program one rank runs for a ring AllReduce: the loops that choose chunks, and the
 loop that cuts one primitive call into slices. Both are proved to tile the channel's
 part of the buffer: every element belongs to exactly one (loop, chunk, slice).
 */
module RingProgram {
  import opened Arith
  import opened Sequences

  datatype Kind = Send | RecvReduceSend | RecvReduceCopySend | RecvCopySend | Recv

  /** A primitive call; `nelem` may be negative, which the primitive treats as zero. */
  datatype Call = Call(kind: Kind, offset: int, nelem: int)

  /** The part of a collective that one channel works on. */
  datatype Part = Part(
    nRanks: nat,
    gridOffset: nat,     // first element of the part
    channelCount: nat,   // elements in the part
    chunkCount: nat,     // elements per full chunk
    align: nat,          // 16/sizeof(T)
    slicePerChunk: nat,
    sliceFloor: nat)     // stepSize*StepPerSlice/32
  {
    predicate Valid() {
      2 <= nRanks && 1 <= chunkCount && 1 <= align && 1 <= slicePerChunk
    }

    function LoopCount(): (c: nat)
      ensures c == nRanks * chunkCount
    {
      MulNonneg(nRanks, chunkCount);
      nRanks * chunkCount
    }

    function NLoops(): nat
      requires Valid()
    {
      MulNonneg(nRanks, chunkCount);
      DivUp(channelCount, LoopCount())
    }

    function Remaining(l: nat): int { channelCount - l * LoopCount() }

    /** Chunk size in loop `l`: a short last loop spreads what is left, aligned to 16 bytes. */
    function ChunkCountAt(l: nat): (c: nat)
      requires Valid()
      ensures 0 < Remaining(l) ==> 1 <= c
    {
      var rem := Remaining(l);
      if 0 <= rem < LoopCount() then AlignUp(DivUp(rem, nRanks), align) else chunkCount
    }

    function ChunkNelem(l: nat, c: nat): int
      requires Valid()
    {
      var size := ChunkCountAt(l);
      Min(size, Remaining(l) - c * size)
    }

    function ChunkOffset(l: nat, c: nat): int
      requires Valid()
    {
      gridOffset + l * LoopCount() + c * ChunkCountAt(l)
    }

    function OpKind(j: nat): Kind {
      if j == 0 then Send
      else if j + 1 < nRanks then RecvReduceSend
      else if j + 1 == nRanks then RecvReduceCopySend
      else if j + 2 < 2 * nRanks then RecvCopySend
      else Recv
    }

    /** The `j`-th primitive of loop `l` on the rank with ring index `ix`. */
    function CallAt(ix: nat, l: nat, j: nat): Call
      requires Valid() && ix < nRanks && j < 2 * nRanks - 1
    {
      var c := ChunkOf(nRanks, ix, j);
      Call(OpKind(j), ChunkOffset(l, c), ChunkNelem(l, c))
    }

    function LoopCalls(ix: nat, l: nat, n: nat): (calls: seq<Call>)
      requires Valid() && ix < nRanks && n <= 2 * nRanks - 1
      ensures |calls| == n
      ensures forall j :: 0 <= j < n ==> calls[j] == CallAt(ix, l, j)
    {
      seq(n, j requires 0 <= j < n => CallAt(ix, l, j))
    }

    function Program(ix: nat, nLoops: nat): seq<Call>
      requires Valid() && ix < nRanks
    {
      if nLoops == 0 then [] else Program(ix, nLoops - 1) + LoopCalls(ix, nLoops - 1, 2 * nRanks - 1)
    }
  }

  /** Chunk handled by the `j`-th primitive of a loop: one further back each time, starting one behind. */
  function ChunkOf(n: nat, ix: nat, j: nat): (c: nat)
    requires 0 < n && ix < n && j < 2 * n
    ensures c < n
    ensures c == ix - 1 - j || c == ix - 1 - j + n || c == ix - 1 - j + 2 * n
  {
    if j + 1 <= ix then ix - 1 - j
    else if j + 1 <= ix + n then ix - 1 - j + n
    else ix - 1 - j + 2 * n
  }

  function ModRanks(r: int, n: int): int { r - if n <= r then n else 0 }

  /** What the source computes from `chunk` before each call. */
  function MakeCall(p: Part, kind: Kind, elemOffset: int, remCount: int, chunkCount: int, chunk: int): Call {
    var chunkOffset := chunk * chunkCount;
    Call(kind, p.gridOffset + elemOffset + chunkOffset, Min(chunkCount, remCount - chunkOffset))
  }

  /** One iteration of the ring loop of AllReduce, call by call. */
  method RunRingLoop(p: Part, ix: nat, ghost l: nat, elemOffset: int, remCount: int, chunkCount: int)
    returns (calls: seq<Call>)
    requires p.Valid() && ix < p.nRanks
    requires elemOffset == l * p.LoopCount() && remCount == p.Remaining(l) && chunkCount == p.ChunkCountAt(l)
    ensures calls == p.LoopCalls(ix, l, 2 * p.nRanks - 1)
  {
    var nranks := p.nRanks;
    var chunk := ModRanks(ix + nranks - 1, nranks);
    calls := [MakeCall(p, Send, elemOffset, remCount, chunkCount, chunk)];
    assert chunk == ChunkOf(nranks, ix, 0);

    for j := 2 to nranks
      invariant calls == p.LoopCalls(ix, l, j - 1)
    {
      chunk := ModRanks(ix + nranks - j, nranks);
      assert chunk == ChunkOf(nranks, ix, j - 1);
      calls := calls + [MakeCall(p, RecvReduceSend, elemOffset, remCount, chunkCount, chunk)];
    }

    chunk := ix;
    assert chunk == ChunkOf(nranks, ix, nranks - 1);
    calls := calls + [MakeCall(p, RecvReduceCopySend, elemOffset, remCount, chunkCount, chunk)];

    for j := 1 to nranks - 1
      invariant calls == p.LoopCalls(ix, l, nranks + j - 1)
    {
      chunk := ModRanks(ix + nranks - j, nranks);
      assert chunk == ChunkOf(nranks, ix, nranks - 1 + j);
      calls := calls + [MakeCall(p, RecvCopySend, elemOffset, remCount, chunkCount, chunk)];
    }

    chunk := ModRanks(ix + 1, nranks);
    assert chunk == ChunkOf(nranks, ix, 2 * nranks - 2);
    calls := calls + [MakeCall(p, Recv, elemOffset, remCount, chunkCount, chunk)];
  }

  /** The ring program of AllReduce: all loops, the last one with a smaller chunk. */
  method RunRing(p: Part, ix: nat) returns (calls: seq<Call>)
    requires p.Valid() && ix < p.nRanks
    ensures calls == p.Program(ix, p.NLoops())
  {
    var chunkCount: int := p.chunkCount;
    var loopCount := p.nRanks * chunkCount;
    MulNonneg(p.nRanks, chunkCount);
    calls := [];
    var elemOffset := 0;
    ghost var l: nat := 0;
    while elemOffset < p.channelCount
      invariant loopCount == p.LoopCount() && 0 < loopCount
      invariant elemOffset == l * loopCount
      invariant l <= p.NLoops()
      invariant elemOffset < p.channelCount ==> chunkCount == p.chunkCount
      invariant calls == p.Program(ix, l)
      decreases p.channelCount - elemOffset
    {
      var remCount := p.channelCount - elemOffset;
      if remCount < loopCount { chunkCount := AlignUp(DivUp(remCount, p.nRanks), p.align); }
      var more := RunRingLoop(p, ix, l, elemOffset, remCount, chunkCount);
      calls := calls + more;
      MulDistributes(loopCount, l, 1);
      MulLtInverse(loopCount, l, p.NLoops());
      elemOffset := elemOffset + loopCount;
      l := l + 1;
    }
    DivUpLe(p.channelCount, loopCount, l);
  }

  /** Where the program has the `j`-th primitive of loop `l`. */
  lemma {:induction false} ProgramAt(p: Part, ix: nat, nLoops: nat, l: nat, j: nat)
    requires p.Valid() && ix < p.nRanks && l < nLoops && j < 2 * p.nRanks - 1
    ensures var ops := 2 * p.nRanks - 1;
      |p.Program(ix, nLoops)| == nLoops * ops && 0 <= l * ops + j < nLoops * ops
      && p.Program(ix, nLoops)[l * ops + j] == p.CallAt(ix, l, j)
  {
    var ops := 2 * p.nRanks - 1;
    MulLt(ops, l, nLoops);
    MulNonneg(l, ops);
    MulDistributes(ops, nLoops, -1);
    if l + 1 < nLoops {
      ProgramAt(p, ix, nLoops - 1, l, j);
    } else {
      ProgramLength(p, ix, l);
    }
  }

  lemma {:induction false} ProgramLength(p: Part, ix: nat, nLoops: nat)
    requires p.Valid() && ix < p.nRanks
    ensures |p.Program(ix, nLoops)| == nLoops * (2 * p.nRanks - 1)
  {
    if nLoops != 0 {
      ProgramLength(p, ix, nLoops - 1);
      MulDistributes(2 * p.nRanks - 1, nLoops, -1);
    }
  }

  // ---- the ring ----

  /** The rank `d` places after place `at` of the ring. */
  function RingAt(ringRanks: seq<nat>, at: nat, d: nat): nat
    requires 0 < |ringRanks|
  {
    ringRanks[(at + d) % |ringRanks|]
  }

  method FindRanks(ringRanks: seq<nat>, rank: nat) returns (ixZero: nat, ixRank: nat)
    requires 0 in ringRanks && rank in ringRanks
    ensures ixZero < |ringRanks| && ringRanks[ixZero] == 0 && ixRank < |ringRanks| && ringRanks[ixRank] == rank
  {
    ixZero, ixRank := 0, 0;
    ghost var zero: nat, at: nat :| zero < |ringRanks| && ringRanks[zero] == 0 && at < |ringRanks|
      && ringRanks[at] == rank;
    for i := 0 to |ringRanks|
      invariant zero < i ==> ixZero < i && ringRanks[ixZero] == 0
      invariant at < i ==> ixRank < i && ringRanks[ixRank] == rank
    {
      if ringRanks[i] == 0 { ixZero := i; }
      if ringRanks[i] == rank { ixRank := i; }
    }
  }

  /** setupChannel: a rank's distance from rank zero along the ring, and the ranks from itself on. */
  method SetupChannel(ringRanks: seq<nat>, rank: nat) returns (index: nat, userRanks: seq<nat>, ghost zero: nat)
    requires Permutation(ringRanks, |ringRanks|) && rank < |ringRanks|
    ensures |userRanks| == |ringRanks| && index < |ringRanks| && zero < |ringRanks| && ringRanks[zero] == 0
    ensures RingAt(ringRanks, zero, index) == rank
    ensures forall i :: 0 <= i < |ringRanks| ==> userRanks[i] == RingAt(ringRanks, zero, index + i)
  {
    var n := |ringRanks|;
    var ixZero, ixRank := FindRanks(ringRanks, rank);
    zero := ixZero;
    index := (ixRank - ixZero + n) % n;
    userRanks := seq(n, i requires 0 <= i < n => ringRanks[(i + ixRank) % n]);
    forall i | 0 <= i < n ensures userRanks[i] == RingAt(ringRanks, zero, index + i) { Shifted(n, ixZero, ixRank, i); }
    ModSmall(ixRank, n);
    assert userRanks[0] == rank;
  }

  lemma Shifted(n: nat, zero: nat, at: nat, i: nat)
    requires zero < n && at < n && i < n
    ensures (zero + (at - zero + n) % n + i) % n == (i + at) % n
  {
    var d := at - zero + n;
    DivMod(d, n);
    ModEqual(i + at, zero + d % n + i, n, 1 - d / n);
  }

  /** Following the ring, the distance from rank zero grows by one: ring indices are the ranks' order on the ring. */
  lemma IndexFollowsRing(ringRanks: seq<nat>, zero: nat, a: nat, ixA: nat, ixB: nat)
    requires Permutation(ringRanks, |ringRanks|) && zero < |ringRanks| && a < |ringRanks| && ixA < |ringRanks|
    requires ixB < |ringRanks|
    requires RingAt(ringRanks, zero, ixA) == RingAt(ringRanks, a, 0)
    requires RingAt(ringRanks, zero, ixB) == RingAt(ringRanks, a, 1)
    ensures ixB == (ixA + 1) % |ringRanks|
  {
    var n := |ringRanks|;
    ModSmall(a, n);
    DivMod(zero + ixA, n);
    DivMod(zero + ixB, n);
    DivMod(a + 1, n);
    OnlyPlace(ringRanks, (zero + ixA) % n, a);
    OnlyPlace(ringRanks, (zero + ixB) % n, (a + 1) % n);
    NextDistance(n, zero, a, ixA, ixB);
  }

  lemma OnlyPlace(ringRanks: seq<nat>, x: nat, y: nat)
    requires Permutation(ringRanks, |ringRanks|) && x < |ringRanks| && y < |ringRanks| && ringRanks[x] == ringRanks[y]
    ensures x == y
  {
  }

  lemma NextDistance(n: nat, zero: nat, a: nat, ixA: nat, ixB: nat)
    requires a < n && ixA < n && ixB < n && (zero + ixA) % n == a && (zero + ixB) % n == (a + 1) % n
    ensures ixB == (ixA + 1) % n
  {
    DivMod(zero + ixA, n);
    ModEqual(a + 1, zero + ixA + 1, n, (zero + ixA) / n);
    var w := (ixA + 1) % n;
    DivMod(ixA + 1, n);
    ModEqual(zero + w, zero + ixA + 1, n, (ixA + 1) / n);
    ModApart(zero + ixB, zero + w, n);
  }

  // ---- slices of one call ----

  datatype Slice = Slice(offset: nat, size: nat)

  function SliceSize(nelem: nat, slicePerChunk: nat, sliceFloor: nat): (s: nat)
    requires 1 <= slicePerChunk
    ensures nelem <= slicePerChunk * s
    ensures 0 < nelem ==> 1 <= s
  {
    var d := DivUp(nelem, 16 * slicePerChunk);
    assert 16 * slicePerChunk * d == slicePerChunk * (16 * d);
    MulLe(slicePerChunk, 16 * d, Max(d * 16, sliceFloor));
    Max(d * 16, sliceFloor)
  }

  function SliceAt(nelem: nat, slicePerChunk: nat, sliceFloor: nat, s: nat): Slice
    requires 1 <= slicePerChunk
  {
    var full := SliceSize(nelem, slicePerChunk, sliceFloor);
    MulNonneg(s, full);
    var offset := Min(s * full, nelem);
    Slice(offset, Min(full, nelem - offset))
  }

  /**
   The slice loops of genericOp as a worker thread runs them (`worker`: the loop over
   non-empty slices first) and as any other thread does. Both see the same slices.
   */
  method GenericOpSlices(nelem0: int, slicePerChunk: nat, sliceFloor: nat, worker: bool) returns (slices: seq<Slice>)
    requires 1 <= slicePerChunk
    ensures |slices| == slicePerChunk
    ensures forall s :: 0 <= s < slicePerChunk ==> slices[s] == SliceAt(Max(nelem0, 0), slicePerChunk, sliceFloor, s)
  {
    var nelem: nat := Max(nelem0, 0);
    ghost var full := SliceSize(nelem, slicePerChunk, sliceFloor);
    var sliceSize := Max(DivUp(nelem, 16 * slicePerChunk) * 16, sliceFloor);
    var slice, offset := 0, 0;
    slices := [];
    if worker && offset < nelem {
      while slice < slicePerChunk && offset < nelem
        invariant 0 <= slice <= slicePerChunk && 0 <= offset <= nelem
        invariant offset == Min(slice * full, nelem)
        invariant offset < nelem ==> sliceSize == full
        invariant 0 <= sliceSize <= full
        invariant |slices| == slice
        invariant forall s :: 0 <= s < slice ==> slices[s] == SliceAt(nelem, slicePerChunk, sliceFloor, s)
      {
        sliceSize := Min(sliceSize, nelem - offset);
        slices := slices + [Slice(offset, sliceSize)];
        MulDistributes(full, slice, 1);
        offset := offset + sliceSize;
        slice := slice + 1;
      }
    }
    while slice < slicePerChunk
      invariant 0 <= slice <= slicePerChunk && 0 <= offset <= nelem
      invariant offset == Min(slice * full, nelem)
      invariant offset < nelem ==> sliceSize == full
      invariant 0 <= sliceSize <= full
      invariant |slices| == slice
      invariant forall s :: 0 <= s < slice ==> slices[s] == SliceAt(nelem, slicePerChunk, sliceFloor, s)
    {
      sliceSize := Min(sliceSize, nelem - offset);
      slices := slices + [Slice(offset, sliceSize)];
      MulDistributes(full, slice, 1);
      offset := offset + sliceSize;
      slice := slice + 1;
    }
  }

  // ---- tiling ----

  datatype Place = Place(l: nat, c: nat, s: nat)

  /** The elements that slice `s` of chunk `c` in loop `l` moves. */
  function First(p: Part, at: Place): int
    requires p.Valid()
  {
    p.ChunkOffset(at.l, at.c) + SliceAt(Max(p.ChunkNelem(at.l, at.c), 0), p.slicePerChunk, p.sliceFloor, at.s).offset
  }

  function Length(p: Part, at: Place): nat
    requires p.Valid()
  {
    SliceAt(Max(p.ChunkNelem(at.l, at.c), 0), p.slicePerChunk, p.sliceFloor, at.s).size
  }

  predicate Holds(p: Part, at: Place, e: int)
    requires p.Valid()
  {
    First(p, at) <= e < First(p, at) + Length(p, at)
  }

  /** Where element `e` is handled, by division. */
  function Locate(p: Part, e: int): (at: Place)
    requires p.Valid() && p.gridOffset <= e < p.gridOffset + p.channelCount
    ensures at.l < p.NLoops() && at.c < p.nRanks && at.s < p.slicePerChunk
    ensures Holds(p, at, e)
  {
    var x, n := e - p.gridOffset, p.LoopCount();
    MulNonneg(p.nRanks, p.chunkCount);
    DivMod(x, n);
    DivNonneg(x, n);
    var l := x / n;
    DivBelow(x, n, p.NLoops());
    assert l * n == n * l;
    var cc, y := p.ChunkCountAt(l), x % n;
    assert y < p.Remaining(l);
    ChunksSuffice(p, l);
    DivMod(y, cc);
    DivNonneg(y, cc);
    DivBelow(y, cc, p.nRanks);
    var c := y / cc;
    assert c * cc == cc * c;
    var z, k := y % cc, p.ChunkNelem(l, c);
    var size := SliceSize(k, p.slicePerChunk, p.sliceFloor);
    DivMod(z, size);
    DivNonneg(z, size);
    DivBelow(z, size, p.slicePerChunk);
    assert z / size * size == size * (z / size);
    Place(l, c, z / size)
  }

  /** The chunks of a loop reach to its end, also in a short last loop. */
  lemma ChunksSuffice(p: Part, l: nat)
    requires p.Valid() && 0 < p.Remaining(l)
    ensures Min(p.Remaining(l), p.LoopCount()) <= p.ChunkCountAt(l) * p.nRanks
  {
    if p.Remaining(l) < p.LoopCount() {
      MulLe(p.nRanks, DivUp(p.Remaining(l), p.nRanks), p.ChunkCountAt(l));
    }
  }

  lemma InSlice(p: Part, at: Place, z: int)
    requires p.Valid() && Holds(p, at, p.ChunkOffset(at.l, at.c) + z)
    ensures 0 <= z < p.ChunkNelem(at.l, at.c)
    ensures z / SliceSize(p.ChunkNelem(at.l, at.c), p.slicePerChunk, p.sliceFloor) == at.s
  {
    var k := Max(p.ChunkNelem(at.l, at.c), 0);
    var size := SliceSize(k, p.slicePerChunk, p.sliceFloor);
    MulNonneg(at.s, size);
    DivModUnique(z, size, at.s, z - size * at.s);
  }

  lemma InChunk(p: Part, at: Place, z: int)
    requires p.Valid() && at.c < p.nRanks && 0 <= z < p.ChunkNelem(at.l, at.c)
    ensures var y := at.c * p.ChunkCountAt(at.l) + z;
      && 0 <= y < p.Remaining(at.l) && y < p.LoopCount()
      && y / p.ChunkCountAt(at.l) == at.c && y % p.ChunkCountAt(at.l) == z
  {
    var cc := p.ChunkCountAt(at.l);
    MulNonneg(at.c, cc);
    var y := at.c * cc + z;
    DivModUnique(y, cc, at.c, z);
    InsideLoop(p, at, y);
  }

  /** No other slice handles the element: with `Locate`, loops, chunks and slices tile the part. */
  lemma TilesOnce(p: Part, at: Place, e: int)
    requires p.Valid() && at.c < p.nRanks && Holds(p, at, e)
    ensures p.gridOffset <= e < p.gridOffset + p.channelCount
    ensures at == Locate(p, e)
  {
    var n := p.LoopCount();
    MulNonneg(p.nRanks, p.chunkCount);
    MulNonneg(at.l, n);
    var z := e - p.ChunkOffset(at.l, at.c);
    InSlice(p, at, z);
    InChunk(p, at, z);
    DivModUnique(e - p.gridOffset, n, at.l, at.c * p.ChunkCountAt(at.l) + z);
  }

  lemma InsideLoop(p: Part, at: Place, y: int)
    requires p.Valid() && at.c < p.nRanks
    requires 0 <= y < p.Remaining(at.l) && y < at.c * p.ChunkCountAt(at.l) + p.ChunkCountAt(at.l)
    ensures y < p.LoopCount()
  {
    if p.LoopCount() <= p.Remaining(at.l) {
      MulLe(p.chunkCount, at.c + 1, p.nRanks);
      MulDistributes(p.chunkCount, at.c, 1);
    }
  }

  /** A short last loop's chunks are no larger than full ones, so they fit the same FIFO slots. */
  lemma TailChunkFits(p: Part, l: nat)
    requires p.Valid() && p.chunkCount % p.align == 0
    ensures p.ChunkCountAt(l) <= p.chunkCount
  {
    var rem := p.Remaining(l);
    if 0 <= rem < p.LoopCount() {
      DivUpLe(rem, p.nRanks, p.chunkCount);
      AlignUpLe(DivUp(rem, p.nRanks), p.align, p.chunkCount);
    }
  }

  /** A slice never outgrows its FIFO slot of `stepSize*stepPerSlice` elements. */
  lemma SliceFits(nelem: nat, chunkCount: nat, slicePerChunk: nat, slot: nat, s: nat)
    requires 1 <= slicePerChunk && nelem <= chunkCount && chunkCount <= slicePerChunk * slot
    requires chunkCount % (16 * slicePerChunk) == 0
    ensures SliceAt(nelem, slicePerChunk, slot / 32, s).size <= slot
  {
    var u := 16 * slicePerChunk;
    DivMod(chunkCount, u);
    DivUpLe(nelem, u, chunkCount / u);
    var d := DivUp(nelem, u);
    MulLe(u, d, chunkCount / u);
    assert u * d == slicePerChunk * (16 * d);
    MulLeInverse(slicePerChunk, 16 * d, slot);
  }
}
