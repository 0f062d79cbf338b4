/**
 The ring programs of AllGather and ReduceScatter. Both walk over the blocks of all ranks, one per
 primitive, and in every loop handle the same chunk of each block.
 */
module RingBlocks {
  import opened Arith
  import opened RingFold
  import RP = RingProgram
  import RingPipeline

  /** A primitive call on the block of rank `rankDest`; offsets are within a block. */
  datatype Call = Call(kind: Kind, rankDest: nat, dataOffset: int, nelem: int)

  datatype Kind = Send | CopySend | RecvCopySend | Recv | RecvReduceSend | RecvReduceCopy

  /** The part of every block that one channel works on. */
  datatype Part = Part(
    nRanks: nat,
    gridOffset: nat,
    channelCount: nat,
    chunkCount: nat,
    slicePerChunk: nat,
    sliceFloor: nat,
    stepPerSlice: nat,
    fifoSteps: nat)
  {
    predicate Valid() { 2 <= nRanks && 1 <= chunkCount && 1 <= slicePerChunk }

    function NLoops(): nat
      requires Valid()
    {
      DivUp(channelCount, chunkCount)
    }

    /** One primitive for each block. */
    function Shape(): RingPipeline.Shape
      requires Valid()
    {
      RingPipeline.Shape(nRanks, nRanks, NLoops(), slicePerChunk, stepPerSlice, fifoSteps)
    }

    function Nelem(l: nat): int { Min(chunkCount, channelCount - l * chunkCount) }

    function DataOffset(l: nat): int { gridOffset + l * chunkCount }

    /** Slice `s` of the chunk of loop `l`. */
    function First(l: nat, s: nat): int
      requires Valid()
    {
      DataOffset(l) + RP.SliceAt(Max(Nelem(l), 0), slicePerChunk, sliceFloor, s).offset
    }

    function Length(l: nat, s: nat): nat
      requires Valid()
    {
      RP.SliceAt(Max(Nelem(l), 0), slicePerChunk, sliceFloor, s).size
    }

    predicate Holds(l: nat, s: nat, e: int)
      requires Valid()
    {
      First(l, s) <= e < First(l, s) + Length(l, s)
    }

    predicate Has(e: int) { gridOffset <= e < gridOffset + channelCount }
  }

  datatype Place = Place(l: nat, s: nat)

  /** The loop and slice that handle an element. */
  function Locate(p: Part, e: int): (at: Place)
    requires p.Valid() && p.Has(e)
    ensures at.l < p.NLoops() && at.s < p.slicePerChunk && p.Holds(at.l, at.s, e)
  {
    LocateOk(p, e);
    var l := (e - p.gridOffset) / p.chunkCount;
    Place(l, (e - p.gridOffset) % p.chunkCount / RP.SliceSize(p.Nelem(l), p.slicePerChunk, p.sliceFloor))
  }

  lemma LocateOk(p: Part, e: int)
    requires p.Valid() && p.Has(e)
    ensures var l, z := (e - p.gridOffset) / p.chunkCount, (e - p.gridOffset) % p.chunkCount;
      && 0 <= l < p.NLoops() && 0 <= z < p.Nelem(l)
      && var size := RP.SliceSize(p.Nelem(l), p.slicePerChunk, p.sliceFloor);
      && 0 < size && 0 <= z / size < p.slicePerChunk && p.Holds(l, z / size, e)
  {
    var y := e - p.gridOffset;
    DivMod(y, p.chunkCount);
    DivNonneg(y, p.chunkCount);
    DivBelow(y, p.chunkCount, p.NLoops());
    var l, z := y / p.chunkCount, y % p.chunkCount;
    var size := RP.SliceSize(p.Nelem(l), p.slicePerChunk, p.sliceFloor);
    DivMod(z, size);
    DivNonneg(z, size);
    DivBelow(z, size, p.slicePerChunk);
  }

  /** No other slice of a rank's pass over a block handles the element. */
  lemma TilesOnce(p: Part, l: nat, s: nat, e: int)
    requires p.Valid() && p.Holds(l, s, e)
    ensures p.Has(e) && Locate(p, e) == Place(l, s)
  {
    var k := Max(p.Nelem(l), 0);
    var size := RP.SliceSize(k, p.slicePerChunk, p.sliceFloor);
    var z := e - p.DataOffset(l);
    MulNonneg(s, size);
    MulNonneg(l, p.chunkCount);
    DivModUnique(z, size, s, z - size * s);
    DivModUnique(e - p.gridOffset, p.chunkCount, l, z);
  }

  /** A non-empty slice lies inside the part, hence inside every block. */
  lemma SliceInside(p: Part, l: nat, s: nat)
    requires p.Valid()
    ensures 0 <= p.First(l, s)
    ensures p.Length(l, s) != 0 ==>
      p.gridOffset <= p.First(l, s) && p.First(l, s) + p.Length(l, s) <= p.gridOffset + p.channelCount
  {
    MulNonneg(l, p.chunkCount);
    if p.Length(l, s) != 0 {
      TilesOnce(p, l, s, p.First(l, s));
      TilesOnce(p, l, s, p.First(l, s) + p.Length(l, s) - 1);
    }
  }

  // ---- AllGather ----

  /** The place on the ring whose block the `j`-th primitive handles: one further back each time, from the own one. */
  function GatherPos(n: nat, ix: nat, j: nat): (q: nat)
    requires ix < n && j < n
    ensures q < n
  {
    if j <= ix then ix - j else ix - j + n
  }

  function GatherKind(n: nat, inPlace: bool, j: nat): Kind {
    if j == 0 then (if inPlace then Send else CopySend) else if j + 1 < n then RecvCopySend else Recv
  }

  /** `order[q]` is the rank at place `q` of the ring. */
  function GatherCall(p: Part, order: seq<nat>, ix: nat, inPlace: bool, l: nat, j: nat): Call
    requires |order| == p.nRanks && ix < p.nRanks && j < p.nRanks
  {
    Call(GatherKind(p.nRanks, inPlace, j), order[GatherPos(p.nRanks, ix, j)], p.DataOffset(l), p.Nelem(l))
  }

  /** A rank's view of the ring starts at itself. */
  ghost predicate SeesRing(userRanks: seq<nat>, order: seq<nat>, ix: nat) {
    |userRanks| == |order| && ix < |order| && forall k :: 0 <= k < |order| ==>
      userRanks[k] == order[Wrap(|order|, ix + k)]
  }

  /** The loop of AllGather's runRing; the calls of each turn. */
  method RunAllGather(p: Part, userRanks: seq<nat>, inPlace: bool, ghost order: seq<nat>, ghost ix: nat)
    returns (calls: seq<seq<Call>>)
    requires p.Valid() && |order| == p.nRanks && SeesRing(userRanks, order, ix)
    ensures |calls| == p.NLoops()
    ensures forall l :: 0 <= l < |calls| ==> |calls[l]| == p.nRanks && forall j :: 0 <= j < p.nRanks ==>
      calls[l][j] == GatherCall(p, order, ix, inPlace, l, j)
  {
    var n := p.nRanks;
    calls := [];
    var elemOffset := 0;
    while elemOffset < p.channelCount
      invariant elemOffset == |calls| * p.chunkCount && |calls| <= p.NLoops()
      invariant forall l :: 0 <= l < |calls| ==> |calls[l]| == n && forall j :: 0 <= j < n ==>
        calls[l][j] == GatherCall(p, order, ix, inPlace, l, j)
      decreases p.channelCount - elemOffset
    {
      ghost var l := |calls|;
      NextTurn(p, l);
      var nelem := Min(p.chunkCount, p.channelCount - elemOffset);
      var dataOffset := p.gridOffset + elemOffset;
      var turn := [Call(if inPlace then Send else CopySend, userRanks[0], dataOffset, nelem)];
      for j := 1 to n - 1
        invariant |turn| == j && forall i :: 0 <= i < j ==> turn[i] == GatherCall(p, order, ix, inPlace, l, i)
      {
        turn := turn + [Call(RecvCopySend, userRanks[n - j], dataOffset, nelem)];
      }
      turn := turn + [Call(Recv, userRanks[1], dataOffset, nelem)];
      calls := calls + [turn];
      elemOffset := elemOffset + p.chunkCount;
    }
    DivUpLe(p.channelCount, p.chunkCount, |calls|);
  }

  lemma NextTurn(p: Part, l: nat)
    requires p.Valid() && l * p.chunkCount < p.channelCount && l <= p.NLoops()
    ensures l + 1 <= p.NLoops() && (l + 1) * p.chunkCount == l * p.chunkCount + p.chunkCount
  {
    MulDistributes(p.chunkCount, l, 1);
    MulLtInverse(p.chunkCount, l, p.NLoops());
  }

  // ---- ReduceScatter ----

  function ScatterKind(n: nat, j: nat): Kind {
    if j == 0 then Send else if j + 1 < n then RecvReduceSend else RecvReduceCopy
  }

  /** The blocks are walked as in the first half of AllReduce: from the one behind, ending with the own one. */
  function ScatterCall(p: Part, order: seq<nat>, ix: nat, l: nat, j: nat): Call
    requires |order| == p.nRanks && ix < p.nRanks && j < p.nRanks
  {
    Call(ScatterKind(p.nRanks, j), order[RP.ChunkOf(p.nRanks, ix, j)], p.DataOffset(l), p.Nelem(l))
  }

  /** The loop of ReduceScatter's runRing. */
  method RunReduceScatter(p: Part, userRanks: seq<nat>, ghost order: seq<nat>, ghost ix: nat)
    returns (calls: seq<seq<Call>>)
    requires p.Valid() && |order| == p.nRanks && SeesRing(userRanks, order, ix)
    ensures |calls| == p.NLoops()
    ensures forall l :: 0 <= l < |calls| ==> |calls[l]| == p.nRanks && forall j :: 0 <= j < p.nRanks ==>
      calls[l][j] == ScatterCall(p, order, ix, l, j)
  {
    var n := p.nRanks;
    calls := [];
    var elemOffset := 0;
    while elemOffset < p.channelCount
      invariant elemOffset == |calls| * p.chunkCount && |calls| <= p.NLoops()
      invariant forall l :: 0 <= l < |calls| ==> |calls[l]| == n && forall j :: 0 <= j < n ==>
        calls[l][j] == ScatterCall(p, order, ix, l, j)
      decreases p.channelCount - elemOffset
    {
      ghost var l := |calls|;
      NextTurn(p, l);
      var nelem := Min(p.chunkCount, p.channelCount - elemOffset);
      var dataOffset := p.gridOffset + elemOffset;
      var turn := [Call(Send, userRanks[n - 1], dataOffset, nelem)];
      for j := 2 to n
        invariant |turn| == j - 1 && forall i :: 0 <= i < j - 1 ==> turn[i] == ScatterCall(p, order, ix, l, i)
      {
        turn := turn + [Call(RecvReduceSend, userRanks[n - j], dataOffset, nelem)];
      }
      turn := turn + [Call(RecvReduceCopy, userRanks[0], dataOffset, nelem)];
      calls := calls + [turn];
      elemOffset := elemOffset + p.chunkCount;
    }
    DivUpLe(p.channelCount, p.chunkCount, |calls|);
  }
}
