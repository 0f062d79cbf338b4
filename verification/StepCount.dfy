/**
 The number of FIFO steps of a ring collective, computed twice in the source: on the host,
 from byte counts, for the proxy; on the device, implicitly, by the loops that run. The proxy
 hangs or overruns unless the two agree.
 */
module StepCount {
  import opened Arith
  import ChainCollectives
  import ChainPipeline
  import RingAllReduce
  import RingBlocks
  import RingPipeline
  import RingProgram

  datatype Func = AllReduce | AllGather | ReduceScatter | Broadcast | Reduce

  datatype Protocol = LL | LL128 | Simple

  const NCCL_STEPS: nat := 8

  /** Values a 21-bit chunkGrains field can hold. */
  const GRAIN_LIMIT: nat := 0x20_0000

  function GrainSize(p: Protocol): nat {
    match p
    case LL => 16
    case LL128 => 1920
    case Simple => 512
  }

  predicate ElementSize(b: nat) { b == 1 || b == 2 || b == 4 || b == 8 }

  datatype Config = Config(func: Func, protocol: Protocol, nRanks: nat, elementSize: nat, buffSize: nat) {
    predicate Valid() { 2 <= nRanks && ElementSize(elementSize) && 1 <= ChunkGrains() }

    function ChunkSteps(): nat {
      if protocol.Simple? && (func.AllReduce? || func.AllGather? || func.ReduceScatter?) then NCCL_STEPS / 2 else 1
    }

    /** A primitive's slices and the steps of each, as the device's Primitives are instantiated. */
    function SlicePerChunk(): nat { if ChunkSteps() == 1 then 1 else 2 }

    function StepPerSlice(): nat { if ChunkSteps() == 1 then 1 else NCCL_STEPS / 4 }

    /** The host's chunk size in bytes, rounded down to whole grains. */
    function ChunkSize(): nat {
      var whole := buffSize / NCCL_STEPS * ChunkSteps();
      var data := match protocol
        case LL => whole / 2
        case LL128 => whole / 16 * 15
        case Simple => whole;
      data / GrainSize(protocol) * GrainSize(protocol)
    }

    function ChunkGrains(): nat { ChunkSize() / GrainSize(protocol) }

    function StepsPerLoop(): nat {
      match func
      case AllReduce => 2 * (Max(nRanks, 1) - 1)
      case AllGather => Max(nRanks, 1) - 1
      case ReduceScatter => Max(nRanks, 1) - 1
      case Broadcast => 1
      case Reduce => 1
    }

    function ChunksPerLoop(): nat {
      if func.Broadcast? || func.Reduce? then 1 else nRanks
    }

    /** Ranks' worth of data that the host counts for one element of the task. */
    function GlobalPerElement(): nat {
      if func.AllGather? || func.ReduceScatter? then nRanks else 1
    }

    /** calcCollChunking on one channel part of `count` elements. */
    function HostSteps(count: nat): nat
      requires Valid()
    {
      MulNonneg(ChunksPerLoop(), ChunkSize());
      var nBytes := elementSize * GlobalPerElement() * count;
      var nLoops := DivUp(nBytes, ChunksPerLoop() * ChunkSize());
      StepsPerLoop() * nLoops * ChunkSteps()
    }

    /** Chunk size in elements as the device unpacks it from the work struct's bit field. */
    function DeviceChunkCount(): nat
      requires ElementSize(elementSize)
    {
      ChunkGrains() % GRAIN_LIMIT * (GrainSize(protocol) / elementSize)
    }

    /** Elements one device loop advances by. */
    function DeviceLoopCount(): nat
      requires ElementSize(elementSize)
    {
      var chunk := DeviceChunkCount();
      MulNonneg(nRanks, chunk);
      if func.AllReduce? then nRanks * chunk else chunk
    }

    /**
     Whether a connection to the previous (`recv`) or next rank is used, given the rank's place relative to the root.
     */
    predicate UsesSend(first: bool, last: bool) { (func.Broadcast? || func.Reduce?) ==> !last }

    predicate UsesRecv(first: bool, last: bool) { (func.Broadcast? || func.Reduce?) ==> !first }
  }

  /** One device loop: how many primitives use the send and the receive connection. */
  method LoopPrimitives(c: Config, first: bool, last: bool) returns (sends: nat, recvs: nat)
    requires 2 <= c.nRanks && !(first && last)
    ensures sends == if c.UsesSend(first, last) then c.StepsPerLoop() else 0
    ensures recvs == if c.UsesRecv(first, last) then c.StepsPerLoop() else 0
  {
    var n := c.nRanks;
    sends, recvs := 0, 0;
    match c.func
    case AllReduce =>
      sends := sends + 1;
      for j := 2 to n
        invariant sends == j - 1 && recvs == j - 2
      {
        sends, recvs := sends + 1, recvs + 1;
      }
      sends, recvs := sends + 1, recvs + 1;
      for j := 1 to n - 1
        invariant sends == n + j - 1 && recvs == n + j - 2
      {
        sends, recvs := sends + 1, recvs + 1;
      }
      recvs := recvs + 1;
    case AllGather =>
      sends := sends + 1;
      for j := 1 to n - 1
        invariant sends == j && recvs == j - 1
      {
        sends, recvs := sends + 1, recvs + 1;
      }
      recvs := recvs + 1;
    case ReduceScatter =>
      sends := sends + 1;
      for j := 2 to n
        invariant sends == j - 1 && recvs == j - 2
      {
        sends, recvs := sends + 1, recvs + 1;
      }
      recvs := recvs + 1;
    case Broadcast =>
      if first { sends := 1; } else if last { recvs := 1; } else { sends, recvs := 1, 1; }
    case Reduce =>
      if first { sends := 1; } else if last { recvs := 1; } else { sends, recvs := 1, 1; }
  }

  /** One primitive of `nelem` elements: every slice posts its steps, empty ones included. */
  method PrimitiveSteps(c: Config, nelem: int, sliceFloor: nat) returns (steps: nat)
    ensures steps == c.ChunkSteps()
  {
    var slices := RingProgram.GenericOpSlices(nelem, c.SlicePerChunk(), sliceFloor, true);
    steps := 0;
    for s := 0 to |slices|
      invariant steps == s * c.StepPerSlice()
    {
      steps := steps + c.StepPerSlice();
    }
  }

  /** Primitives in a row, of any numbers of elements. */
  method AllSteps(c: Config, nelems: seq<int>, sliceFloor: nat) returns (steps: nat)
    ensures steps == |nelems| * c.ChunkSteps()
  {
    steps := 0;
    for k := 0 to |nelems|
      invariant steps == k * c.ChunkSteps()
    {
      var more := PrimitiveSteps(c, nelems[k], sliceFloor);
      MulDistributes(c.ChunkSteps(), k, 1);
      steps := steps + more;
    }
  }

  /** One loop, with `nelem(l, k)` elements in its `k`-th primitive. */
  method LoopSteps(c: Config, l: nat, first: bool, last: bool, sliceFloor: nat, nelem: (nat, nat) -> int)
    returns (sendSteps: nat, recvSteps: nat)
    requires 2 <= c.nRanks && !(first && last)
    ensures sendSteps == if c.UsesSend(first, last) then c.StepsPerLoop() * c.ChunkSteps() else 0
    ensures recvSteps == if c.UsesRecv(first, last) then c.StepsPerLoop() * c.ChunkSteps() else 0
  {
    var sends, recvs := LoopPrimitives(c, first, last);
    sendSteps := AllSteps(c, seq(sends, k requires 0 <= k < sends => nelem(l, k)), sliceFloor);
    recvSteps := AllSteps(c, seq(recvs, k requires 0 <= k < recvs => nelem(l, k)), sliceFloor);
  }

  /**
   One rank's ring loop, counting the steps it advances on its send and receive connection, whatever the
   number `nelem` of elements of each primitive. `first` and `last` say whether a Broadcast or Reduce chain
   starts or ends at this rank.
   */
  method RunRing(c: Config, count: nat, first: bool, last: bool, sliceFloor: nat, nelem: (nat, nat) -> int)
    returns (sendSteps: nat, recvSteps: nat)
    requires c.Valid() && DeviceSteps(c, count).Finite? && !(first && last)
    ensures sendSteps == if c.UsesSend(first, last) then DeviceSteps(c, count).n else 0
    ensures recvSteps == if c.UsesRecv(first, last) then DeviceSteps(c, count).n else 0
  {
    MulNonneg(c.nRanks, c.DeviceChunkCount());
    var advance := c.DeviceLoopCount();
    sendSteps, recvSteps := 0, 0;
    var elemOffset := 0;
    var l: nat := 0;
    while elemOffset < count
      invariant elemOffset == l * advance
      invariant 0 < l ==> (l - 1) * advance < count
      invariant sendSteps == if c.UsesSend(first, last) then c.StepsPerLoop() * l * c.ChunkSteps() else 0
      invariant recvSteps == if c.UsesRecv(first, last) then c.StepsPerLoop() * l * c.ChunkSteps() else 0
      decreases count - elemOffset
    {
      var moreSent, moreReceived := LoopSteps(c, l, first, last, sliceFloor, nelem);
      OneLoopMore(c.StepsPerLoop(), l, c.ChunkSteps());
      MulDistributes(advance, l, 1);
      sendSteps, recvSteps := sendSteps + moreSent, recvSteps + moreReceived;
      elemOffset := elemOffset + advance;
      l := l + 1;
    }
    LoopsAre(count, advance, l);
  }

  lemma OneLoopMore(perLoop: nat, l: nat, chunkSteps: nat)
    ensures perLoop * (l + 1) * chunkSteps == perLoop * l * chunkSteps + perLoop * chunkSteps
  {
    MulDistributes(perLoop, l, 1);
    MulDistributes(chunkSteps, perLoop * l, perLoop);
  }

  lemma LoopsAre(count: nat, advance: nat, l: nat)
    requires 0 < advance && count <= l * advance && (0 < l ==> (l - 1) * advance < count)
    ensures DivUp(count, advance) == l
  {
    if 0 < l {
      MulDistributes(advance, l, 1);
      DivUpUnique(count, advance, l);
    } else {
      DivUpLe(count, advance, 0);
    }
  }

  lemma DivUpScale(c: nat, x: nat, n: nat)
    requires 0 < c && 0 < n
    ensures 0 < c * n
    ensures DivUp(c * x, c * n) == DivUp(x, n)
  {
    MulNonneg(c, n);
    var q := DivUp(x, n);
    MulLe(c, x, n * q);
    assert c * (n * q) == c * n * q;
    if x == 0 {
      DivUpLe(0, n, 0);
      DivUpLe(c * x, c * n, 0);
    } else {
      MulLt(c, n * q, x + n);
      MulDistributes(c, x, n);
      DivUpUnique(c * x, c * n, q);
    }
  }

  /** One device loop with an untruncated chunk covers exactly one host loop's bytes. */
  lemma LoopBytes(c: Config)
    requires c.Valid()
    ensures 0 < c.ChunkSize() && c.ChunkSize() == c.elementSize * FullChunkCount(c)
    ensures 1 <= FullChunkCount(c) && 1 <= GrainSize(c.protocol) / c.elementSize
  {
    var g, e, k := GrainSize(c.protocol), c.elementSize, c.ChunkGrains();
    assert g == e * (g / e) && 1 <= g / e by { GrainsDivide(c.protocol, e); }
    assert c.ChunkSize() == g * k by { WholeGrains(c); }
    assert g * k == e * (k * (g / e)) by { Regroup(e, g / e, k); }
    MulLe(g / e, 1, k);
    MulLe(g, 1, k);
  }

  lemma GrainsDivide(p: Protocol, e: nat)
    requires ElementSize(e)
    ensures GrainSize(p) == e * (GrainSize(p) / e) && 1 <= GrainSize(p) / e
  {
  }

  lemma Regroup(e: int, q: int, k: int)
    ensures e * q * k == e * (k * q)
  {
  }

  lemma WholeGrains(c: Config)
    ensures c.ChunkSize() == GrainSize(c.protocol) * c.ChunkGrains()
  {
    DivMod(c.ChunkSize(), GrainSize(c.protocol));
    var whole := c.ChunkSize();
    assert whole % GrainSize(c.protocol) == 0;
  }

  function FullChunkCount(c: Config): nat
    requires ElementSize(c.elementSize)
  {
    c.ChunkGrains() * (GrainSize(c.protocol) / c.elementSize)
  }

  function FullLoopCount(c: Config): nat
    requires ElementSize(c.elementSize)
  {
    if c.func.AllReduce? then c.nRanks * FullChunkCount(c) else FullChunkCount(c)
  }

  lemma HostLoops(c: Config, count: nat)
    requires c.Valid()
    ensures 0 < FullLoopCount(c)
    ensures c.HostSteps(count) == c.StepsPerLoop() * DivUp(count, FullLoopCount(c)) * c.ChunkSteps()
  {
    LoopBytes(c);
    SameLoops(c.elementSize, FullChunkCount(c), c.nRanks, count);
  }

  /** The byte ratio is the element ratio, whichever way a collective counts its ranks. */
  lemma SameLoops(e: nat, k: nat, n: nat, count: nat)
    requires 0 < e && 0 < k && 0 < n
    ensures 0 < n * k && 0 < n * (e * k) && 0 < e * k && 0 < 1 * (e * k)
    ensures DivUp(e * 1 * count, n * (e * k)) == DivUp(count, n * k)
    ensures DivUp(e * n * count, n * (e * k)) == DivUp(count, k)
    ensures DivUp(e * 1 * count, 1 * (e * k)) == DivUp(count, k)
  {
    MulNonneg(n, k);
    MulNonneg(e, n);
    MulNonneg(e, k);
    MulNonneg(n, e * k);
    assert n * (e * k) == e * (n * k) == e * n * k;
    DivUpScale(e, count, n * k);
    DivUpScale(e * n, count, k);
    DivUpScale(e, count, k);
  }

  /** The device's step count; none if the truncated chunk is empty and the loop never ends. */
  datatype Steps = Endless | Finite(n: nat)

  function DeviceSteps(c: Config, count: nat): Steps
    requires c.Valid()
  {
    if c.DeviceChunkCount() == 0 then Endless else
    MulNonneg(c.nRanks, c.DeviceChunkCount());
    Finite(c.StepsPerLoop() * DivUp(count, c.DeviceLoopCount()) * c.ChunkSteps())
  }

  /** The slices and loops that the device runs for a part of `count` elements. */
  function RingShape(c: Config, count: nat): RingPipeline.Shape
    requires c.Valid() && DeviceSteps(c, count).Finite?
  {
    MulNonneg(c.nRanks, c.DeviceChunkCount());
    RingPipeline.Shape(c.nRanks, c.StepsPerLoop() + 1, DivUp(count, c.DeviceLoopCount()), c.SlicePerChunk(),
        c.StepPerSlice(), NCCL_STEPS)
  }

  predicate IsRing(c: Config) { c.func.AllReduce? || c.func.AllGather? || c.func.ReduceScatter? }

  /**
   Slice by slice: in every interleaving of every ring program of this shape, when all ranks are done
   each connection's sender and receiver have advanced by the device's steps, which are the steps the host
   gave the proxy if the chunk fits its field.
   */
  lemma RingStepsAreHostSteps<Msg, Mem>(c: Config, count: nat, g: RingPipeline.Ring<Msg, Mem>,
      s: RingPipeline.State<Msg, Mem>, r: nat)
    requires c.Valid() && IsRing(c) && 0 < count && DeviceSteps(c, count).Finite? && g.shape == RingShape(c, count)
    requires RingPipeline.TypeOk(g, s) && RingPipeline.Final(g, s) && r < c.nRanks
    ensures var sent := g.Step(r, s.ranks[r].tail) - g.base[r];
      && sent == g.Step(r, s.ranks[g.shape.NextOf(r)].head) - g.base[r]
      && sent == DeviceSteps(c, count).n
      && (c.ChunkGrains() < GRAIN_LIMIT ==> sent == c.HostSteps(count))
  {
    RingPipeline.StepsWhenDone(g, s, r);
    var p := g.shape;
    Rearrange(p.stepPerSlice, p.nLoops, c.StepsPerLoop(), p.slicePerChunk);
    assert p.slicePerChunk * p.stepPerSlice == c.ChunkSteps();
    StepsAgreeIff(c);
  }

  lemma Rearrange(a: int, b: int, c: int, d: int)
    ensures a * (b * c * d) == c * b * (d * a)
  {
    assert a * (b * c * d) == a * d * (b * c);
  }

  /** An AllReduce part with the device's chunk and slices has that shape. */
  lemma AllReduceHasRingShape<T>(c: Config, t: RingAllReduce.Task<T>)
    requires c.Valid() && c.func.AllReduce? && t.part.Valid() && DeviceSteps(c, t.part.channelCount).Finite?
    requires t.part.nRanks == c.nRanks && t.part.chunkCount == c.DeviceChunkCount()
    requires t.part.slicePerChunk == c.SlicePerChunk() && t.stepPerSlice == c.StepPerSlice()
    requires t.fifoSteps == NCCL_STEPS
    ensures t.Shape() == RingShape(c, t.part.channelCount) && t.Shape().Valid() && t.Shape().Roomy()
  {
  }

  /** So has an AllGather or ReduceScatter part. */
  lemma BlocksHaveRingShape(c: Config, p: RingBlocks.Part)
    requires c.Valid() && (c.func.AllGather? || c.func.ReduceScatter?) && p.Valid()
    requires DeviceSteps(c, p.channelCount).Finite?
    requires p.nRanks == c.nRanks && p.chunkCount == c.DeviceChunkCount()
    requires p.slicePerChunk == c.SlicePerChunk() && p.stepPerSlice == c.StepPerSlice() && p.fifoSteps == NCCL_STEPS
    ensures p.Shape() == RingShape(c, p.channelCount) && p.Shape().Valid() && p.Shape().Roomy()
  {
  }

  /** A Broadcast or Reduce part with the device's chunk and slices. */
  ghost predicate IsChainOf<T>(c: Config, t: ChainCollectives.Task<T>) {
    && c.Valid() && (if t.what.Broadcast? then c.func.Broadcast? else c.func.Reduce?)
    && t.Fits() && t.part.nRanks == c.nRanks && 0 < t.part.channelCount && t.part.chunkCount == c.DeviceChunkCount()
    && t.part.slicePerChunk == c.SlicePerChunk() && t.part.stepPerSlice == c.StepPerSlice()
      && t.part.fifoSteps == NCCL_STEPS
  }

  /** On the chain, too, both ends of every connection advance by the steps the host gave the proxy. */
  lemma ChainStepsAreHostSteps<T>(c: Config, t: ChainCollectives.Task<T>,
      s: RingPipeline.State<seq<T>, ChainCollectives.Buffers<T>>, r: nat)
    requires IsChainOf(c, t) && ChainPipeline.ChainOk(t.Chain(), s) && ChainPipeline.ChainDone(t.Chain(), s)
    requires r + 1 < c.nRanks
    ensures var g := t.Chain(); var sent := g.Step(r, s.ranks[r].tail) - g.base[r];
      && t.Valid() && sent == g.Step(r, s.ranks[r + 1].head) - g.base[r]
      && DeviceSteps(c, t.part.channelCount) == Finite(sent)
      && (c.ChunkGrains() < GRAIN_LIMIT ==> sent == c.HostSteps(t.part.channelCount))
  {
    ChainPipeline.ChainStepsWhenDone(t.Chain(), s, r);
    assert t.Total() == DivUp(t.part.channelCount, c.DeviceLoopCount());
    StepsAgreeIff(c);
  }

  /** Host and device agree on every part exactly when the chunk fits its 21-bit field. */
  lemma StepsAgreeIff(c: Config)
    requires c.Valid()
    ensures c.ChunkGrains() < GRAIN_LIMIT <==> forall count: nat :: 0 < count ==>
      DeviceSteps(c, count) == Finite(c.HostSteps(count))
  {
    if c.ChunkGrains() < GRAIN_LIMIT {
      ModSmall(c.ChunkGrains(), GRAIN_LIMIT);
      forall count: nat | 0 < count ensures DeviceSteps(c, count) == Finite(c.HostSteps(count)) {
        HostLoops(c, count);
        LoopBytes(c);
      }
    } else {
      HostLoops(c, FullLoopCount(c));
      Truncated(c);
    }
  }

  /** With a truncated chunk, a part of exactly one host loop takes the device more than one. */
  lemma Truncated(c: Config)
    requires c.Valid() && GRAIN_LIMIT <= c.ChunkGrains() && 0 < FullLoopCount(c)
    ensures DeviceSteps(c, FullLoopCount(c)) != Finite(c.HostSteps(FullLoopCount(c)))
  {
    var full, k, per := FullLoopCount(c), GrainSize(c.protocol) / c.elementSize, c.StepsPerLoop();
    HostLoops(c, full);
    DivUpUnique(full, full, 1);
    LoopBytes(c);
    if c.DeviceChunkCount() != 0 {
      MulNonneg(c.nRanks, c.DeviceChunkCount());
      MulLt(k, c.ChunkGrains() % GRAIN_LIMIT, c.ChunkGrains());
      if c.func.AllReduce? { MulLt(c.nRanks, c.DeviceChunkCount(), FullChunkCount(c)); }
      var short := c.DeviceLoopCount();
      assert short < full;
      var loops := DivUp(full, short);
      if loops <= 1 { MulLe(short, loops, 1); }
      MulLt(per, 1, loops);
      MulLt(c.ChunkSteps(), per * 1, per * loops);
    }
  }

  /** The failing family is reachable: a 512 MiB LL buffer makes the chunk 2^21 grains, stored as none. */
  lemma TruncationExample()
    ensures var c := Config(AllReduce, LL, 2, 4, 0x2000_0000);
      c.Valid() && c.ChunkGrains() == GRAIN_LIMIT && forall count: nat :: DeviceSteps(c, count) == Endless
  {
    var c := Config(AllReduce, LL, 2, 4, 0x2000_0000);
    assert c.ChunkSize() == 0x200_0000;
  }
}
