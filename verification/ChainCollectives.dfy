/**
 Ring Broadcast and ring Reduce on the chain of `ChainPipeline`: in every interleaving, every rank ends
 with the root's data, respectively the root with the reduction of all ranks' data, and nothing else has
 changed. Places are counted along the ring: Broadcast from the root, Reduce from the rank after it.
 */
module ChainCollectives {
  import opened Arith
  import opened RingFold
  import opened RingPipeline
  import opened ChainPipeline
  import opened Sequences
  import RB = RingBlocks
  import RP = RingProgram
  import RA = RingAllReduce
  import RS = RingReduceScatter

  /** A rank's buffers. When `inPlace`, the input is the output. */
  datatype Buffers<T> = Buffers(inPlace: bool, input: seq<T>, output: seq<T>) {
    function Source(): seq<T> { if inPlace then output else input }
  }

  datatype What<!T> = Broadcast | Reduce(op: RA.RedOp<T>)

  // ---- the programs ----

  function CallKind<T>(what: What<T>, n: nat, p: nat, inPlace: bool): RB.Kind {
    if what.Broadcast? then RB.GatherKind(n, inPlace, p) else RB.ScatterKind(n, p)
  }

  datatype Call = Call(kind: RB.Kind, offset: int, nelem: int)

  /** The loop of Broadcast's runRing. */
  method RunBroadcast(p: RB.Part, rank: nat, nextRank: nat, root: nat, inPlace: bool, ghost order: seq<nat>,
      ghost place: nat)
    returns (calls: seq<Call>)
    requires p.Valid() && Permutation(order, p.nRanks) && place < p.nRanks
    requires root == order[0] && rank == order[place] && nextRank == order[Wrap(p.nRanks, place + 1)]
    ensures |calls| == p.NLoops()
    ensures forall l :: 0 <= l < |calls| ==>
      calls[l] == Call(RB.GatherKind(p.nRanks, inPlace, place), p.DataOffset(l), p.Nelem(l))
  {
    calls := [];
    var elemOffset := 0;
    while elemOffset < p.channelCount
      invariant elemOffset == |calls| * p.chunkCount && |calls| <= p.NLoops()
      invariant forall l :: 0 <= l < |calls| ==>
        calls[l] == Call(RB.GatherKind(p.nRanks, inPlace, place), p.DataOffset(l), p.Nelem(l))
      decreases p.channelCount - elemOffset
    {
      RB.NextTurn(p, |calls|);
      var offset := p.gridOffset + elemOffset;
      var nelem := Min(p.chunkCount, p.channelCount - elemOffset);
      if rank == root {
        calls := calls + [Call(if inPlace then RB.Send else RB.CopySend, offset, nelem)];
      } else if nextRank == root {
        calls := calls + [Call(RB.Recv, offset, nelem)];
      } else {
        calls := calls + [Call(RB.RecvCopySend, offset, nelem)];
      }
      elemOffset := elemOffset + p.chunkCount;
    }
    DivUpLe(p.channelCount, p.chunkCount, |calls|);
  }

  /** The loop of Reduce's runRing. */
  method RunReduce(p: RB.Part, rank: nat, prevRank: nat, root: nat, ghost order: seq<nat>, ghost place: nat)
    returns (calls: seq<Call>)
    requires p.Valid() && Permutation(order, p.nRanks) && place < p.nRanks
    requires root == order[p.nRanks - 1] && rank == order[place]
    requires prevRank == order[if place == 0 then p.nRanks - 1 else place - 1]
    ensures |calls| == p.NLoops()
    ensures forall l :: 0 <= l < |calls| ==>
      calls[l] == Call(RB.ScatterKind(p.nRanks, place), p.DataOffset(l), p.Nelem(l))
  {
    calls := [];
    var elemOffset := 0;
    while elemOffset < p.channelCount
      invariant elemOffset == |calls| * p.chunkCount && |calls| <= p.NLoops()
      invariant forall l :: 0 <= l < |calls| ==>
        calls[l] == Call(RB.ScatterKind(p.nRanks, place), p.DataOffset(l), p.Nelem(l))
      decreases p.channelCount - elemOffset
    {
      RB.NextTurn(p, |calls|);
      var offset := p.gridOffset + elemOffset;
      var nelem := Min(p.chunkCount, p.channelCount - elemOffset);
      if prevRank == root {
        calls := calls + [Call(RB.Send, offset, nelem)];
      } else if rank == root {
        calls := calls + [Call(RB.RecvReduceCopy, offset, nelem)];
      } else {
        calls := calls + [Call(RB.RecvReduceSend, offset, nelem)];
      }
      elemOffset := elemOffset + p.chunkCount;
    }
    DivUpLe(p.channelCount, p.chunkCount, |calls|);
  }

  // ---- one slice ----

  /** One channel's part; `start` holds the buffers by place. */
  datatype Task<!T> = Task(what: What<T>, part: RB.Part, start: seq<Buffers<T>>, base: seq<nat>) {
    ghost predicate Valid() {
      Fits() && 1 <= part.stepPerSlice && 1 <= part.fifoSteps && part.fifoSteps % part.stepPerSlice == 0
    }

    /** The buffers that are read or written hold the part. */
    ghost predicate Fits() {
      && part.Valid() && |start| == |base| == part.nRanks
      && forall p :: 0 <= p < part.nRanks ==> StartOk(p)
    }

    ghost predicate StartOk(p: nat)
      requires p < |start|
    {
      var end := part.gridOffset + part.channelCount;
      (Reads(p) ==> end <= |start[p].Source()|) && (Stores(p) ==> end <= |start[p].output|)
    }

    predicate Reads(p: nat) { what.Broadcast? ==> p == 0 }

    predicate Stores(p: nat)
      requires p < |start|
    {
      if what.Broadcast? then p != 0 || !start[p].inPlace else p + 1 == part.nRanks
    }

    function Total(): nat
      requires part.Valid()
    {
      MulNonneg(part.NLoops(), part.slicePerChunk);
      part.NLoops() * part.slicePerChunk
    }

    ghost function Chain(): Chain<seq<T>, Buffers<T>>
      requires part.Valid()
    {
      ChainPipeline.Chain(part.nRanks, Total(), part.stepPerSlice, part.fifoSteps, base,
        (p: nat, i: nat, received: Option<seq<T>>, mem: Buffers<T>) => Exec(this, p, i, received, mem), start)
    }
  }

  /** The loop and the slice of a place's `i`-th slice. */
  function SliceOf(p: RB.Part, i: nat): RB.Place
    requires p.Valid()
  {
    DivNonneg(i, p.slicePerChunk);
    DivMod(i, p.slicePerChunk);
    RB.Place(i / p.slicePerChunk, i % p.slicePerChunk)
  }

  ghost function Exec<T>(t: Task<T>, p: nat, i: nat, received: Option<seq<T>>,
      mem: Buffers<T>): Effect<seq<T>, Buffers<T>> {
    if !(t.Fits() && p < t.part.nRanks) then Effect([], mem) else
    var x := SliceOf(t.part, i);
    Move(t, p, t.part.First(x.l, x.s), t.part.Length(x.l, x.s), received, mem)
  }

  /** What one slice makes of its own data and what comes in; it is stored where the primitive has a destination. */
  ghost function Move<T>(t: Task<T>, p: nat, first: int, len: nat, received: Option<seq<T>>,
      mem: Buffers<T>): Effect<seq<T>, Buffers<T>>
    requires p < |t.start|
  {
    var source := mem.Source();
    if first < 0 || (t.Reads(p) && |source| < first + len)
      || (t.Stores(p) && |mem.output| < first + len) then Effect([], mem) else
    if 0 < p && (received.None? || |received.value| != len) then Effect([], mem) else
    var own := if t.Reads(p) then source[first..first + len] else received.value;
    var got := if 0 < p then received.value else own;
    var out := seq(len, k requires 0 <= k < len => Made(t.what, t.part.nRanks, p, own[k], got[k]));
    Effect(out, if t.Stores(p) then mem.(output := RA.Overwrite(mem.output, first, out)) else mem)
  }

  /** What the primitive of place `p` makes of one element of its own and one it received. */
  function Made<T>(what: What<T>, n: nat, p: nat, own: T, got: T): T {
    if what.Broadcast? then (if p == 0 then own else got)
      else RS.Combine(what.op, RB.ScatterKind(n, p), what.op.pre(own), got)
  }

  /** The slices a place runs are those of the primitives that its program calls. */
  lemma SlicesFollowProgram<T>(t: Task<T>, p: nat, i: nat, calls: seq<Call>)
    requires t.Fits() && p < t.part.nRanks && i < t.Total() && |calls| == t.part.NLoops()
    requires forall l :: 0 <= l < |calls| ==>
      calls[l] == Call(CallKind(t.what, t.part.nRanks, p, t.start[p].inPlace), t.part.DataOffset(l), t.part.Nelem(l))
    ensures var x := SliceOf(t.part, i); x.l < |calls|
    ensures var x := SliceOf(t.part, i);
      var call := calls[x.l];
      var slice := RP.SliceAt(Max(call.nelem, 0), t.part.slicePerChunk, t.part.sliceFloor, x.s);
      && t.part.First(x.l, x.s) == call.offset + slice.offset && t.part.Length(x.l, x.s) == slice.size
      && (call.kind.Send? || call.kind.CopySend? <==> p == 0)
      && (call.kind.Recv? || call.kind.RecvReduceCopy? <==> p + 1 == t.part.nRanks)
      && (call.kind.RecvCopySend? || call.kind.Recv? <==> !t.Reads(p))
      && (call.kind.Send? || call.kind.RecvReduceSend? <==> !t.Stores(p))
  {
    DivMod(i, t.part.slicePerChunk);
    DivBelow(i, t.part.slicePerChunk, t.part.NLoops());
  }

  // ---- the reference in closed form ----

  /** Element `e` of a place's data. */
  ghost function Input<T>(t: Task<T>, p: nat, e: nat): T
    requires t.Fits() && p < t.part.nRanks && t.Reads(p) && t.part.Has(e)
  {
    assert t.StartOk(p);
    t.start[p].Source()[e]
  }

  ghost function Inputs<T>(t: Task<T>, e: nat): (xs: seq<T>)
    requires t.Fits() && t.what.Reduce? && t.part.Has(e)
    ensures |xs| == t.part.nRanks && forall p :: 0 <= p < |xs| ==> xs[p] == t.what.op.pre(Input(t, p, e))
  {
    seq(t.part.nRanks, p requires 0 <= p < t.part.nRanks => t.what.op.pre(Input(t, p, e)))
  }

  /** What place `p` makes of element `e`: the root's, or the reduction of the places up to its own. */
  ghost function Value<T>(t: Task<T>, p: nat, e: nat): T
    requires t.Fits() && p < t.part.nRanks && t.part.Has(e)
  {
    var n := t.part.nRanks;
    if t.what.Broadcast? then Input(t, 0, e) else
    var sum := Around(t.what.op.reduce, Inputs(t, e), n - 1, p + 1);
    if p + 1 < n then sum else t.what.op.post(sum)
  }

  ghost function StoredAt<T>(t: Task<T>, e: nat): nat
    requires t.Fits() && t.part.Has(e)
  {
    var at := RB.Locate(t.part, e);
    MulNonneg(t.part.slicePerChunk, at.l);
    t.part.slicePerChunk * at.l + at.s
  }

  lemma StoredOnce<T>(t: Task<T>, e: nat, i: nat)
    requires t.Fits() && t.part.Has(e)
    ensures var x := SliceOf(t.part, i); StoredAt(t, e) == i <==> t.part.Holds(x.l, x.s, e)
    ensures StoredAt(t, e) < t.Total()
  {
    var at, x, c := RB.Locate(t.part, e), SliceOf(t.part, i), t.part.slicePerChunk;
    DivMod(i, c);
    DivModUnique(StoredAt(t, e), c, at.l, at.s);
    MulDistributes(c, at.l, 1);
    MulLe(c, at.l + 1, t.part.NLoops());
    if t.part.Holds(x.l, x.s, e) { RB.TilesOnce(t.part, x.l, x.s, e); }
  }

  ghost function ElementAt<T>(t: Task<T>, p: nat, i: nat, e: nat): T
    requires t.Fits() && p < t.part.nRanks && e < |t.start[p].output|
  {
    if t.Stores(p) && t.part.Has(e) && StoredAt(t, e) < i then Value(t, p, e) else t.start[p].output[e]
  }

  ghost predicate MemOk<T>(t: Task<T>, p: nat, i: nat, mem: Buffers<T>)
    requires t.Fits() && p < t.part.nRanks
  {
    && mem.inPlace == t.start[p].inPlace && mem.input == t.start[p].input && |mem.output| == |t.start[p].output|
    && forall e :: 0 <= e < |mem.output| ==> mem.output[e] == ElementAt(t, p, i, e)
  }

  ghost predicate Carries<T>(t: Task<T>, p: nat, first: int, out: seq<T>, e: nat)
    requires t.Fits() && p < t.part.nRanks && first <= e < first + |out|
  {
    t.part.Has(e) && out[e - first] == Value(t, p, e)
  }

  ghost predicate OutOk<T>(t: Task<T>, p: nat, i: nat, out: seq<T>)
    requires t.Fits() && p < t.part.nRanks
  {
    var x := SliceOf(t.part, i);
    && |out| == t.part.Length(x.l, x.s)
    && forall e: nat :: t.part.Holds(x.l, x.s, e) ==> Carries(t, p, t.part.First(x.l, x.s), out, e)
  }

  ghost predicate ReceivedOk<T>(t: Task<T>, p: nat, i: nat, received: Option<seq<T>>)
    requires t.Fits() && p < t.part.nRanks
  {
    0 < p ==> received.Some? && OutOk(t, p - 1, i, received.value)
  }

  /** Data is read before it is overwritten in place. */
  lemma OwnData<T>(t: Task<T>, p: nat, i: nat, mem: Buffers<T>, e: nat)
    requires t.Fits() && p < t.part.nRanks && MemOk(t, p, i, mem) && t.Reads(p) && t.part.Has(e) && i <= StoredAt(t, e)
    ensures e < |mem.Source()| && mem.Source()[e] == Input(t, p, e)
  {
    assert t.StartOk(p);
  }

  /** One place further, one more contribution. */
  lemma MadeIsValue<T>(t: Task<T>, p: nat, e: nat, own: T, got: T)
    requires t.Fits() && p < t.part.nRanks && t.part.Has(e)
    requires (t.Reads(p) ==> own == Input(t, p, e)) && (0 < p ==> got == Value(t, p - 1, e))
    ensures Made(t.what, t.part.nRanks, p, own, got) == Value(t, p, e)
  {
    assert Wrap(t.part.nRanks, t.part.nRanks - 1 + (p + 1)) == p;
  }

  /** A slice is in bounds and has its message. */
  ghost predicate Ready<T>(t: Task<T>, p: nat, first: int, len: nat, received: Option<seq<T>>, mem: Buffers<T>)
    requires p < |t.start|
  {
    && 0 <= first
      && (len != 0 ==> (t.Reads(p) ==> first + len <= |mem.Source()|) && (t.Stores(p) ==> first + len <= |mem.output|))
    && (0 < p ==> received.Some? && |received.value| == len)
  }

  /** `Move`, element by element. */
  lemma MoveEffect<T>(t: Task<T>, p: nat, first: int, len: nat, received: Option<seq<T>>, mem: Buffers<T>)
    requires p < |t.start| && Ready(t, p, first, len, received, mem)
    ensures var x := Move(t, p, first, len, received, mem);
      && |x.out| == len && x.mem.inPlace == mem.inPlace && x.mem.input == mem.input && |x.mem.output| == |mem.output|
      && (forall e :: first <= e < first + len ==> x.out[e - first] == MadeAt(t, p, first, received, mem, e))
      && forall e :: 0 <= e < |mem.output| ==>
        x.mem.output[e] == if t.Stores(p) && first <= e < first + len then x.out[e - first] else mem.output[e]
  {
  }

  ghost function MadeAt<T>(t: Task<T>, p: nat, first: int, received: Option<seq<T>>, mem: Buffers<T>, e: int): T
    requires t.Reads(p) ==> 0 <= e < |mem.Source()|
    requires 0 < p ==> received.Some? && first <= e < first + |received.value|
  {
    var own := if t.Reads(p) then mem.Source()[e] else received.value[e - first];
    Made(t.what, t.part.nRanks, p, own, if 0 < p then received.value[e - first] else own)
  }

  lemma MoveReady<T>(t: Task<T>, p: nat, i: nat, received: Option<seq<T>>, mem: Buffers<T>)
    requires t.Fits() && p < t.part.nRanks && MemOk(t, p, i, mem) && ReceivedOk(t, p, i, received)
    ensures var x := SliceOf(t.part, i); Ready(t, p, t.part.First(x.l, x.s), t.part.Length(x.l, x.s), received, mem)
  {
    var x := SliceOf(t.part, i);
    RB.SliceInside(t.part, x.l, x.s);
    assert t.StartOk(p);
  }

  lemma OutCarries<T>(t: Task<T>, p: nat, i: nat, received: Option<seq<T>>, mem: Buffers<T>, x: RB.Place, e: nat)
    requires t.Fits() && p < t.part.nRanks && MemOk(t, p, i, mem) && ReceivedOk(t, p, i, received)
    requires x == SliceOf(t.part, i) && t.part.Holds(x.l, x.s, e)
    ensures t.part.Has(e) && (t.Reads(p) ==> e < |mem.Source()|)
    ensures MadeAt(t, p, t.part.First(x.l, x.s), received, mem, e) == Value(t, p, e)
  {
    var first := t.part.First(x.l, x.s);
    RB.TilesOnce(t.part, x.l, x.s, e);
    StoredOnce(t, e, i);
    if t.Reads(p) { OwnData(t, p, i, mem, e); }
    if 0 < p { assert Carries(t, p - 1, first, received.value, e); }
    var own := if t.Reads(p) then mem.Source()[e] else received.value[e - first];
    MadeIsValue(t, p, e, own, if 0 < p then received.value[e - first] else own);
  }

  lemma ExecOut<T>(t: Task<T>, p: nat, i: nat, received: Option<seq<T>>, mem: Buffers<T>)
    requires t.Fits() && p < t.part.nRanks && MemOk(t, p, i, mem) && ReceivedOk(t, p, i, received)
    ensures OutOk(t, p, i, Exec(t, p, i, received, mem).out)
  {
    var x, out := SliceOf(t.part, i), Exec(t, p, i, received, mem).out;
    var first := t.part.First(x.l, x.s);
    MoveReady(t, p, i, received, mem);
    MoveEffect(t, p, first, t.part.Length(x.l, x.s), received, mem);
    forall e: nat | t.part.Holds(x.l, x.s, e) ensures Carries(t, p, first, out, e) {
      OutCarries(t, p, i, received, mem, x, e);
    }
  }

  lemma ElementNext<T>(t: Task<T>, p: nat, i: nat, e: nat, out: seq<T>)
    requires t.Fits() && p < t.part.nRanks && e < |t.start[p].output| && OutOk(t, p, i, out)
    ensures var x := SliceOf(t.part, i);
      ElementAt(t, p, i + 1, e) ==
        if t.Stores(p) && t.part.Holds(x.l, x.s, e) then out[e - t.part.First(x.l, x.s)] else ElementAt(t, p, i, e)
  {
    var x := SliceOf(t.part, i);
    if t.part.Has(e) { StoredOnce(t, e, i); }
    if t.part.Holds(x.l, x.s, e) {
      RB.TilesOnce(t.part, x.l, x.s, e);
      assert Carries(t, p, t.part.First(x.l, x.s), out, e);
    }
  }

  lemma ExecMem<T>(t: Task<T>, p: nat, i: nat, received: Option<seq<T>>, mem: Buffers<T>)
    requires t.Fits() && p < t.part.nRanks && MemOk(t, p, i, mem) && ReceivedOk(t, p, i, received)
    ensures MemOk(t, p, i + 1, Exec(t, p, i, received, mem).mem)
  {
    var x, y := SliceOf(t.part, i), Exec(t, p, i, received, mem);
    MoveReady(t, p, i, received, mem);
    MoveEffect(t, p, t.part.First(x.l, x.s), t.part.Length(x.l, x.s), received, mem);
    ExecOut(t, p, i, received, mem);
    forall e | 0 <= e < |y.mem.output| ensures y.mem.output[e] == ElementAt(t, p, i + 1, e) {
      ElementNext(t, p, i, e, y.out);
    }
  }

  lemma PlaceNext<T>(t: Task<T>, g: Chain<seq<T>, Buffers<T>>, p: nat, i: nat)
    requires t.Fits() && g.Valid() && g == t.Chain() && p < t.part.nRanks
    requires MemOk(t, p, i, g.MemAt(p, i)) && ReceivedOk(t, p, i, g.Handed(p, i))
    ensures MemOk(t, p, i + 1, g.MemAt(p, i + 1)) && OutOk(t, p, i, g.EffectAt(p, i).out)
  {
    var mem, received := g.MemAt(p, i), g.Handed(p, i);
    ChainMemAfter(g, p, i);
    ExecMem(t, p, i, received, mem);
    ExecOut(t, p, i, received, mem);
    assert g.exec(p, i, received, mem) == Exec(t, p, i, received, mem);
  }

  lemma {:induction false} PlaceMem<T>(t: Task<T>, g: Chain<seq<T>, Buffers<T>>, p: nat, i: nat)
    requires t.Valid() && g == t.Chain() && p < t.part.nRanks
    ensures MemOk(t, p, i, g.MemAt(p, i))
    decreases p, i, 0
  {
    if i != 0 { PlaceOut(t, g, p, i - 1); }
  }

  lemma {:induction false} PlaceOut<T>(t: Task<T>, g: Chain<seq<T>, Buffers<T>>, p: nat, i: nat)
    requires t.Valid() && g == t.Chain() && p < t.part.nRanks
    ensures MemOk(t, p, i + 1, g.MemAt(p, i + 1)) && OutOk(t, p, i, g.EffectAt(p, i).out)
    decreases p, i, 1
  {
    PlaceMem(t, g, p, i);
    if 0 < p { PlaceOut(t, g, p - 1, i); }
    PlaceNext(t, g, p, i);
  }

  // ---- the collectives ----

  /** Every element of the output at the end, in every interleaving. */
  lemma ChainResult<T>(t: Task<T>, run: seq<State<seq<T>, Buffers<T>>>, p: nat)
    requires t.Valid() && IsChainRun(t.Chain(), run) && p < t.part.nRanks
    requires ChainOk(t.Chain(), run[|run| - 1]) && ChainDone(t.Chain(), run[|run| - 1])
    ensures var out := run[|run| - 1].ranks[p].mem.output;
      && |out| == |t.start[p].output|
      && forall e :: 0 <= e < |out| ==>
        out[e] == if t.Stores(p) && t.part.Has(e) then Value(t, p, e) else t.start[p].output[e]
  {
    EveryChainRunRefines(t.Chain(), run, |run| - 1, p);
    PlaceMem(t, t.Chain(), p, t.Total());
    var out := run[|run| - 1].ranks[p].mem.output;
    forall e | 0 <= e < |out|
      ensures out[e] == if t.Stores(p) && t.part.Has(e) then Value(t, p, e) else t.start[p].output[e]
    {
      assert out[e] == ElementAt(t, p, t.Total(), e);
      if t.part.Has(e) { StoredOnce(t, e, 0); }
    }
  }

  /** Broadcast: every rank's output is the root's data on this channel's part and as before elsewhere. */
  lemma BroadcastCorrect<T>(t: Task<T>, run: seq<State<seq<T>, Buffers<T>>>, p: nat)
    requires t.what.Broadcast? && t.Valid() && IsChainRun(t.Chain(), run) && p < t.part.nRanks
    requires ChainOk(t.Chain(), run[|run| - 1]) && ChainDone(t.Chain(), run[|run| - 1])
    ensures var out := run[|run| - 1].ranks[p].mem.output;
      && |out| == |t.start[p].output|
      && forall e :: 0 <= e < |out| ==> out[e] == if t.part.Has(e) then Input(t, 0, e) else t.start[p].output[e]
  {
    ChainResult(t, run, p);
  }

  ghost function Reduction<T>(t: Task<T>, e: nat): T
    requires t.what.Reduce? && t.Fits() && t.part.Has(e)
  {
    t.what.op.post(Around(t.what.op.reduce, Inputs(t, e), t.part.nRanks - 1, t.part.nRanks))
  }

  /** Reduce: the root's output is the reduction of all ranks' data; no other output has changed. */
  lemma ReduceCorrect<T>(t: Task<T>, run: seq<State<seq<T>, Buffers<T>>>, p: nat)
    requires t.what.Reduce? && t.Valid() && IsChainRun(t.Chain(), run) && p < t.part.nRanks
    requires ChainOk(t.Chain(), run[|run| - 1]) && ChainDone(t.Chain(), run[|run| - 1])
    ensures var out, n := run[|run| - 1].ranks[p].mem.output, t.part.nRanks;
      && |out| == |t.start[p].output|
      && forall e :: 0 <= e < |out| ==>
        out[e] == if p + 1 == n && t.part.Has(e) then Reduction(t, e) else t.start[p].output[e]
  {
    ChainResult(t, run, p);
  }

  /** With an operator that allows any order, that is the plain reduction over the user ranks. */
  lemma ReduceIsPlain<T(!new)>(t: Task<T>, e: nat, order: seq<nat>, byRank: seq<T>)
    requires t.what.Reduce? && t.Fits() && t.part.Has(e) && Reorderable(t.what.op.reduce)
    requires |byRank| == t.part.nRanks && Permutation(order, t.part.nRanks) && Inputs(t, e) == Pick(byRank, order)
    ensures Reduction(t, e) == t.what.op.post(Plain(t.what.op.reduce, byRank))
  {
    AroundIsPlainByRank(t.what.op.reduce, Inputs(t, e), t.part.nRanks - 1, byRank, order);
  }
}
