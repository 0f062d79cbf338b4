/**
 Ring AllGather on the FIFO ring of `RingPipeline`: in every interleaving, every rank ends with the
 input of every rank in that rank's block, and nothing else has changed.
 */
module RingAllGather {
  import opened Arith
  import opened RingPipeline
  import opened Sequences
  import RB = RingBlocks
  import RP = RingProgram
  import RA = RingAllReduce

  /** A rank's buffers; the output has one block for each user rank. When `inPlace`, the input is the own block. */
  datatype Buffers<T> = Buffers(inPlace: bool, input: seq<T>, output: seq<seq<T>>) {
    function Source(own: nat): seq<T>
      requires own < |output|
    {
      if inPlace then output[own] else input
    }
  }

  /**
   One channel's part; `order[ix]` is the user rank with ring index `ix`, and `start` holds the buffers by ring index.
   */
  datatype Task<!T> = Task(part: RB.Part, order: seq<nat>, start: seq<Buffers<T>>, base: seq<nat>) {
    ghost predicate Valid() { Fits() && part.Shape().Valid() }

    /** The buffers hold the part. */
    ghost predicate Fits() {
      && part.Valid()
      && |start| == |base| == part.nRanks && Permutation(order, part.nRanks)
      && forall r :: 0 <= r < part.nRanks ==> StartOk(r)
    }

    ghost predicate StartOk(r: nat)
      requires r < |start|
    {
      var m, end := start[r], part.gridOffset + part.channelCount;
      |m.output| == part.nRanks && (!m.inPlace ==> end <= |m.input|) && forall b :: 0 <= b < part.nRanks ==>
        end <= |m.output[b]|
    }

    ghost function Ring(): Ring<seq<T>, Buffers<T>>
      requires part.Valid()
    {
      RingPipeline.Ring(part.Shape(), base, (ix: nat, i: nat, received: Option<seq<T>>, mem: Buffers<T>) =>
        Exec(this, ix, i, received, mem), start)
    }
  }

  /** Element `e` of the input of the rank at place `q` of the ring. */
  ghost function Input<T>(t: Task<T>, q: nat, e: nat): T
    requires t.Fits() && q < t.part.nRanks && e < t.part.gridOffset + t.part.channelCount
  {
    assert t.StartOk(q);
    t.start[q].Source(t.order[q])[e]
  }

  // ---- one slice ----

  /**
   One slice of one primitive: the first one reads the input, the others pass on what they receive, and all but an
   in-place first one store it.
   */
  ghost function Exec<T>(t: Task<T>, ix: nat, i: nat, received: Option<seq<T>>,
      mem: Buffers<T>): Effect<seq<T>, Buffers<T>> {
    if !(t.Fits() && ix < t.part.nRanks) then Effect([], mem) else
    var x := t.part.Shape().At(i);
    Move(x.op == 0, t.order[RB.GatherPos(t.part.nRanks, ix, x.op)], t.order[ix], t.part.First(x.l, x.slice),
        t.part.Length(x.l, x.slice), received, mem)
  }

  ghost function Move<T>(own: bool, b: nat, self: nat, first: int, len: nat, received: Option<seq<T>>,
      mem: Buffers<T>): Effect<seq<T>, Buffers<T>> {
    if first < 0 || |mem.output| <= b || |mem.output| <= self || |mem.output[b]| < first + len then Effect([], mem) else
    if own && |mem.Source(self)| < first + len then Effect([], mem) else
    var out := if own then mem.Source(self)[first..first + len] else if received.Some? then received.value else [];
    if |out| != len then Effect([], mem) else
    if own && mem.inPlace then Effect(out, mem) else
    Effect(out, mem.(output := mem.output[b := RA.Overwrite(mem.output[b], first, out)]))
  }

  /** The slices a rank runs are those of the primitives that its program calls. */
  lemma SlicesFollowProgram<T>(t: Task<T>, ix: nat, i: nat, calls: seq<seq<RB.Call>>)
    requires t.Fits() && ix < t.part.nRanks && i < t.part.Shape().Total() && |calls| == t.part.NLoops()
    requires forall l :: 0 <= l < |calls| ==> |calls[l]| == t.part.nRanks && forall j :: 0 <= j < t.part.nRanks ==>
      calls[l][j] == RB.GatherCall(t.part, t.order, ix, t.start[ix].inPlace, l, j)
    ensures var x := t.part.Shape().At(i); x.l < |calls| && x.op < |calls[x.l]|
    ensures var x, p := t.part.Shape().At(i), t.part;
      var call := calls[x.l][x.op];
      var slice := RP.SliceAt(Max(call.nelem, 0), p.slicePerChunk, p.sliceFloor, x.slice);
      && call.rankDest == t.order[RB.GatherPos(p.nRanks, ix, x.op)]
      && p.First(x.l, x.slice) == call.dataOffset + slice.offset && p.Length(x.l, x.slice) == slice.size
      && (call.kind.Send? || call.kind.CopySend? <==> x.op == 0) && (call.kind.Send? ==> t.start[ix].inPlace)
      && (call.kind.Recv? <==> !t.part.Shape().Sends(i))
  {
    IndexOfAt(t.part.Shape(), i);
  }

  // ---- the lock-step execution in closed form ----

  /** The primitive in which place `ix` handles the block of place `q`. */
  function StoringOp(n: nat, ix: nat, q: nat): (j: nat)
    requires ix < n && q < n
    ensures j < n && RB.GatherPos(n, ix, j) == q
    ensures forall j' :: 0 <= j' < n && RB.GatherPos(n, ix, j') == q ==> j' == j
  {
    if q <= ix then ix - q else ix - q + n
  }

  ghost function StoredAt<T>(t: Task<T>, ix: nat, q: nat, e: nat): nat
    requires t.Fits() && ix < t.part.nRanks && q < t.part.nRanks && t.part.Has(e)
  {
    var at := RB.Locate(t.part, e);
    t.part.Shape().Index(Locus(at.l, StoringOp(t.part.nRanks, ix, q), at.s))
  }

  lemma StoredOnce<T>(t: Task<T>, ix: nat, q: nat, e: nat, i: nat)
    requires t.Fits() && ix < t.part.nRanks && q < t.part.nRanks && t.part.Has(e)
    ensures var x := t.part.Shape().At(i);
      StoredAt(t, ix, q, e) == i <==> RB.GatherPos(t.part.nRanks, ix, x.op) == q && t.part.Holds(x.l, x.slice, e)
    ensures StoredAt(t, ix, q, e) < t.part.Shape().Total()
  {
    var p, at := t.part.Shape(), RB.Locate(t.part, e);
    var x := Locus(at.l, StoringOp(t.part.nRanks, ix, q), at.s);
    AtOfIndex(p, x);
    IndexOfAt(p, i);
    IndexBound(p, x);
    var y := p.At(i);
    if t.part.Holds(y.l, y.slice, e) { RB.TilesOnce(t.part, y.l, y.slice, e); }
  }

  /** Element `e` of the block of place `q` on place `ix` after `i` slices. */
  ghost function ElementAt<T>(t: Task<T>, ix: nat, i: nat, q: nat, e: nat): T
    requires t.Fits() && ix < t.part.nRanks && q < t.part.nRanks && t.StartOk(ix)
    requires e < |t.start[ix].output[t.order[q]]|
  {
    if t.part.Has(e) && StoredAt(t, ix, q, e) < i then Input(t, q, e) else t.start[ix].output[t.order[q]][e]
  }

  ghost predicate BlockOk<T>(t: Task<T>, ix: nat, i: nat, q: nat, block: seq<T>)
    requires t.Fits() && ix < t.part.nRanks && q < t.part.nRanks
  {
    assert t.StartOk(ix);
    |block| == |t.start[ix].output[t.order[q]]| && forall e :: 0 <= e < |block| ==>
      block[e] == ElementAt(t, ix, i, q, e)
  }

  ghost predicate MemOk<T>(t: Task<T>, ix: nat, i: nat, mem: Buffers<T>)
    requires t.Fits() && ix < t.part.nRanks
  {
    && mem.inPlace == t.start[ix].inPlace && mem.input == t.start[ix].input && |mem.output| == t.part.nRanks
    && forall q :: 0 <= q < t.part.nRanks ==> BlockOk(t, ix, i, q, mem.output[t.order[q]])
  }

  /** The message of slice `i` is the input of the rank whose block it is. */
  ghost predicate OutOk<T>(t: Task<T>, ix: nat, i: nat, out: seq<T>)
    requires t.Fits() && ix < t.part.nRanks
  {
    var x := t.part.Shape().At(i);
    && |out| == t.part.Length(x.l, x.slice)
    && forall e: nat :: t.part.Holds(x.l, x.slice, e) ==>
      Carries(t, RB.GatherPos(t.part.nRanks, ix, x.op), t.part.First(x.l, x.slice), out, e)
  }

  ghost predicate Carries<T>(t: Task<T>, q: nat, first: int, out: seq<T>, e: nat)
    requires t.Fits() && q < t.part.nRanks && first <= e < first + |out|
  {
    t.part.Has(e) && out[e - first] == Input(t, q, e)
  }

  ghost predicate ReceivedOk<T>(t: Task<T>, ix: nat, i: nat, received: Option<seq<T>>)
    requires t.Fits() && ix < t.part.nRanks
  {
    t.part.Shape().Recvs(i) ==> received.Some? && OutOk(t, ix, i, received.value)
  }

  /** The own block holds the own input for ever, so an in-place input can be read at any time. */
  lemma OwnInput<T>(t: Task<T>, ix: nat, i: nat, mem: Buffers<T>, e: nat)
    requires t.Fits() && ix < t.part.nRanks && MemOk(t, ix, i, mem) && t.part.Has(e)
    ensures t.order[ix] < |mem.output| && e < |mem.Source(t.order[ix])| && mem.Source(t.order[ix])[e] == Input(t, ix, e)
  {
    assert t.StartOk(ix) && BlockOk(t, ix, i, ix, mem.output[t.order[ix]]);
  }

  lemma InputInBounds<T>(t: Task<T>, ix: nat, i: nat, mem: Buffers<T>)
    requires t.Fits() && ix < t.part.nRanks && MemOk(t, ix, i, mem)
    ensures forall b :: 0 <= b < t.part.nRanks ==> t.part.gridOffset + t.part.channelCount <= |mem.output[b]|
    ensures t.order[ix] < |mem.output| && t.part.gridOffset + t.part.channelCount <= |mem.Source(t.order[ix])|
  {
    assert t.StartOk(ix);
    forall b: nat | b < t.part.nRanks ensures t.part.gridOffset + t.part.channelCount <= |mem.output[b]| {
      assert b in t.order;
      var q :| 0 <= q < |t.order| && t.order[q] == b;
      assert BlockOk(t, ix, i, q, mem.output[t.order[q]]);
    }
  }

  /** `Move`, element by element, when everything is in bounds. */
  lemma MoveEffect<T>(own: bool, b: nat, self: nat, first: int, len: nat, received: Option<seq<T>>, mem: Buffers<T>)
    requires b < |mem.output| && self < |mem.output| && 0 <= first && (len != 0 ==> first + len <= |mem.output[b]|)
    requires if own then len != 0 ==> first + len <= |mem.Source(self)| else received.Some? && |received.value| == len
    ensures var x := Move(own, b, self, first, len, received, mem);
      && |x.out| == len
        && (forall e :: first <= e < first + len ==>
            x.out[e - first] == if own then mem.Source(self)[e] else received.value[e - first])
      && x.mem.inPlace == mem.inPlace && x.mem.input == mem.input && |x.mem.output| == |mem.output|
      && (forall c :: 0 <= c < |mem.output| && c != b ==> x.mem.output[c] == mem.output[c])
      && |x.mem.output[b]| == |mem.output[b]|
      && forall e :: 0 <= e < |mem.output[b]| ==>
        x.mem.output[b][e] == if first <= e < first + len && !(own && mem.inPlace) then x.out[e - first]
          else mem.output[b][e]
  {
  }

  /** A slice is in bounds and has its message, so `Move` acts on it as intended. */
  lemma MoveReady<T>(t: Task<T>, ix: nat, i: nat, received: Option<seq<T>>, mem: Buffers<T>)
    requires t.Fits() && ix < t.part.nRanks && MemOk(t, ix, i, mem) && ReceivedOk(t, ix, i, received)
    ensures var x, n := t.part.Shape().At(i), t.part.nRanks;
      var b, first, len := t.order[RB.GatherPos(n, ix, x.op)], t.part.First(x.l, x.slice), t.part.Length(x.l, x.slice);
      && b < |mem.output| && t.order[ix] < |mem.output| && 0 <= first && (len != 0 ==> first + len <= |mem.output[b]|)
      && if x.op == 0 then len != 0 ==>
        first + len <= |mem.Source(t.order[ix])| else received.Some? && |received.value| == len
  {
    var x := t.part.Shape().At(i);
    RB.SliceInside(t.part, x.l, x.slice);
    InputInBounds(t, ix, i, mem);
  }

  lemma ExecOut<T>(t: Task<T>, ix: nat, i: nat, received: Option<seq<T>>, mem: Buffers<T>)
    requires t.Fits() && ix < t.part.nRanks && MemOk(t, ix, i, mem) && ReceivedOk(t, ix, i, received)
    ensures OutOk(t, ix, i, Exec(t, ix, i, received, mem).out)
  {
    var x, out := t.part.Shape().At(i), Exec(t, ix, i, received, mem).out;
    var q, first, len := RB.GatherPos(t.part.nRanks, ix, x.op), t.part.First(x.l, x.slice), t.part.Length(x.l, x.slice);
    MoveReady(t, ix, i, received, mem);
    MoveEffect(x.op == 0, t.order[q], t.order[ix], first, len, received, mem);
    forall e: nat | t.part.Holds(x.l, x.slice, e) ensures Carries(t, q, first, out, e) {
      RB.TilesOnce(t.part, x.l, x.slice, e);
      if x.op == 0 { OwnInput(t, ix, i, mem, e); } else { assert Carries(t, q, first, received.value, e); }
    }
  }

  /** A block after one slice more. */
  lemma ExecBlock<T>(t: Task<T>, ix: nat, i: nat, received: Option<seq<T>>, mem: Buffers<T>, q: nat)
    requires t.Fits() && ix < t.part.nRanks && MemOk(t, ix, i, mem) && ReceivedOk(t, ix, i, received)
    requires q < t.part.nRanks
    ensures var mem' := Exec(t, ix, i, received, mem).mem;
      |mem'.output| == t.part.nRanks && BlockOk(t, ix, i + 1, q, mem'.output[t.order[q]])
  {
    var x, e0 := t.part.Shape().At(i), Exec(t, ix, i, received, mem);
    var q0 := RB.GatherPos(t.part.nRanks, ix, x.op);
    var first, len := t.part.First(x.l, x.slice), t.part.Length(x.l, x.slice);
    MoveReady(t, ix, i, received, mem);
    MoveEffect(x.op == 0, t.order[q0], t.order[ix], first, len, received, mem);
    ExecOut(t, ix, i, received, mem);
    assert BlockOk(t, ix, i, q, mem.output[t.order[q]]);
    var block := e0.mem.output[t.order[q]];
    forall e: nat | e < |block| ensures block[e] == ElementAt(t, ix, i + 1, q, e) {
      assert mem.output[t.order[q]][e] == ElementAt(t, ix, i, q, e);
      ElementNext(t, ix, i, q, e, e0.out);
    }
  }

  lemma ElementNext<T>(t: Task<T>, ix: nat, i: nat, q: nat, e: nat, out: seq<T>)
    requires t.Fits() && ix < t.part.nRanks && q < t.part.nRanks && t.StartOk(ix)
    requires e < |t.start[ix].output[t.order[q]]| && OutOk(t, ix, i, out)
    ensures var x := t.part.Shape().At(i);
      if RB.GatherPos(t.part.nRanks, ix, x.op) == q && t.part.Holds(x.l, x.slice, e)
      then ElementAt(t, ix, i + 1, q, e) == out[e - t.part.First(x.l, x.slice)]
        && (x.op == 0 && t.start[ix].inPlace ==> ElementAt(t, ix, i + 1, q, e) == ElementAt(t, ix, i, q, e))
      else ElementAt(t, ix, i + 1, q, e) == ElementAt(t, ix, i, q, e)
  {
    var x := t.part.Shape().At(i);
    if t.part.Holds(x.l, x.slice, e) { RB.TilesOnce(t.part, x.l, x.slice, e); }
    if t.part.Has(e) { StoredOnce(t, ix, q, e, i); }
    if RB.GatherPos(t.part.nRanks, ix, x.op) == q && t.part.Holds(x.l, x.slice, e) {
      assert Carries(t, q, t.part.First(x.l, x.slice), out, e);
    }
  }

  lemma ExecMem<T>(t: Task<T>, ix: nat, i: nat, received: Option<seq<T>>, mem: Buffers<T>)
    requires t.Fits() && ix < t.part.nRanks && MemOk(t, ix, i, mem) && ReceivedOk(t, ix, i, received)
    ensures MemOk(t, ix, i + 1, Exec(t, ix, i, received, mem).mem)
  {
    var x := t.part.Shape().At(i);
    MoveReady(t, ix, i, received, mem);
    MoveEffect(x.op == 0, t.order[RB.GatherPos(t.part.nRanks, ix, x.op)], t.order[ix], t.part.First(x.l, x.slice),
        t.part.Length(x.l, x.slice), received, mem);
    forall q | 0 <= q < t.part.nRanks
      ensures BlockOk(t, ix, i + 1, q, Exec(t, ix, i, received, mem).mem.output[t.order[q]])
    {
      ExecBlock(t, ix, i, received, mem, q);
    }
  }

  /** What the neighbour sent one chunk earlier is for the same block and elements. */
  lemma SamePlace<T>(t: Task<T>, ix: nat, i: nat, out: seq<T>)
    requires t.Fits() && ix < t.part.nRanks && t.part.Shape().Recvs(i) && t.part.slicePerChunk <= i
    requires OutOk(t, t.part.Shape().Prev(ix), i - t.part.slicePerChunk, out)
    ensures OutOk(t, ix, i, out)
  {
    var p := t.part.Shape();
    var x, y := p.At(i), p.At(i - t.part.slicePerChunk);
    ChunkEarlier(p, i);
    assert RB.GatherPos(t.part.nRanks, p.Prev(ix), y.op) == RB.GatherPos(t.part.nRanks, ix, x.op);
  }

  lemma MessageReceived<T>(t: Task<T>, ix: nat, i: nat, out: seq<T>)
    requires t.Fits() && ix < t.part.nRanks && t.part.Shape().Recvs(i) && t.part.slicePerChunk <= i
    requires OutOk(t, t.part.Shape().Prev(ix), i - t.part.slicePerChunk, out)
    ensures ReceivedOk(t, ix, i, Some(out))
  {
    SamePlace(t, ix, i, out);
  }

  lemma OutIsReceived<T>(t: Task<T>, g: Ring<seq<T>, Buffers<T>>, ix: nat, i: nat, out: seq<T>)
    requires t.Fits() && g.Valid() && g.shape == t.part.Shape() && ix < t.part.nRanks && g.shape.Recvs(i)
    requires g.shape.slicePerChunk <= i
    requires out == g.EffectAt(g.shape.Prev(ix), i - g.shape.slicePerChunk).out && ReceivedOk(t, ix, i, Some(out))
    ensures ReceivedOk(t, ix, i, g.Handed(ix, i))
  {
    HandedIs(g, ix, i);
  }

  lemma PassedOn<T>(t: Task<T>, g: Ring<seq<T>, Buffers<T>>, ix: nat, i: nat, prev: nat, j: nat)
    requires t.Fits() && g.Valid() && g.shape == t.part.Shape() && ix < t.part.nRanks && g.shape.Recvs(i)
    requires prev == g.shape.Prev(ix) && i == j + g.shape.slicePerChunk && OutOk(t, prev, j, g.EffectAt(prev, j).out)
    ensures ReceivedOk(t, ix, i, g.Handed(ix, i))
  {
    var out := g.EffectAt(prev, j).out;
    MessageReceived(t, ix, i, out);
    OutIsReceived(t, g, ix, i, out);
  }

  lemma LockStepNext<T>(t: Task<T>, g: Ring<seq<T>, Buffers<T>>, ix: nat, i: nat)
    requires t.Valid() && g == t.Ring() && ix < t.part.nRanks
    requires MemOk(t, ix, i, g.MemAt(ix, i)) && ReceivedOk(t, ix, i, g.Handed(ix, i))
    ensures MemOk(t, ix, i + 1, g.MemAt(ix, i + 1)) && OutOk(t, ix, i, g.EffectAt(ix, i).out)
  {
    var mem, received := g.MemAt(ix, i), g.Handed(ix, i);
    MemAfter(g, ix, i);
    ExecMem(t, ix, i, received, mem);
    ExecOut(t, ix, i, received, mem);
    assert g.exec(ix, i, received, mem) == Exec(t, ix, i, received, mem);
  }

  lemma {:induction false} LockStepMem<T>(t: Task<T>, g: Ring<seq<T>, Buffers<T>>, ix: nat, i: nat)
    requires t.Valid() && g == t.Ring() && ix < t.part.nRanks
    ensures MemOk(t, ix, i, g.MemAt(ix, i))
    decreases i, 0
  {
    if i == 0 {
      assert t.StartOk(ix);
      forall q | 0 <= q < t.part.nRanks ensures BlockOk(t, ix, 0, q, g.MemAt(ix, 0).output[t.order[q]]) {}
    } else {
      LockStepBoth(t, g, ix, i - 1);
    }
  }

  lemma {:induction false} HandedOk<T>(t: Task<T>, g: Ring<seq<T>, Buffers<T>>, ix: nat, i: nat)
    requires t.Valid() && g == t.Ring() && ix < t.part.nRanks
    ensures ReceivedOk(t, ix, i, g.Handed(ix, i))
    decreases i, 1
  {
    var p := t.part.Shape();
    if p.Recvs(i) {
      NotInFirstChunk(p, i);
      var prev: nat, j: nat := p.Prev(ix), i - t.part.slicePerChunk;
      LockStepOut(t, g, prev, j);
      PassedOn(t, g, ix, i, prev, j);
    }
  }

  lemma {:induction false} LockStepBoth<T>(t: Task<T>, g: Ring<seq<T>, Buffers<T>>, ix: nat, i: nat)
    requires t.Valid() && g == t.Ring() && ix < t.part.nRanks
    ensures MemOk(t, ix, i + 1, g.MemAt(ix, i + 1)) && OutOk(t, ix, i, g.EffectAt(ix, i).out)
    decreases i, 2
  {
    LockStepMem(t, g, ix, i);
    HandedOk(t, g, ix, i);
    LockStepNext(t, g, ix, i);
  }

  lemma {:induction false} LockStepOut<T>(t: Task<T>, g: Ring<seq<T>, Buffers<T>>, ix: nat, i: nat)
    requires t.Valid() && g == t.Ring() && ix < t.part.nRanks
    ensures OutOk(t, ix, i, g.EffectAt(ix, i).out)
    decreases i, 3
  {
    LockStepBoth(t, g, ix, i);
  }

  /**
   AllGather is correct in every interleaving: when all ranks are done, every rank's block of rank `order[q]` holds,
   in this channel's part, the input of that rank; outside the part nothing has changed.
   */
  lemma AllGatherCorrect<T>(t: Task<T>, run: seq<State<seq<T>, Buffers<T>>>, ix: nat, q: nat)
    requires t.Valid() && IsRun(t.Ring(), run) && TypeOk(t.Ring(), run[|run| - 1]) && Final(t.Ring(), run[|run| - 1])
    requires ix < t.part.nRanks && q < t.part.nRanks
    ensures var out := run[|run| - 1].ranks[ix].mem.output;
      t.order[q] < |out| == |t.start[ix].output| == t.part.nRanks
      && |out[t.order[q]]| == |t.start[ix].output[t.order[q]]|
    ensures forall e :: 0 <= e < |t.start[ix].output[t.order[q]]| ==>
      run[|run| - 1].ranks[ix].mem.output[t.order[q]][e] == if t.part.Has(e) then Input(t, q, e)
        else t.start[ix].output[t.order[q]][e]
  {
    var s, total := run[|run| - 1], t.part.Shape().Total();
    EveryRunRefinesLockStep(t.Ring(), run, |run| - 1, ix);
    LockStepMem(t, t.Ring(), ix, total);
    assert t.StartOk(ix) && BlockOk(t, ix, total, q, s.ranks[ix].mem.output[t.order[q]]);
    forall e | 0 <= e < |t.start[ix].output[t.order[q]]|
      ensures s.ranks[ix].mem.output[t.order[q]][e] == if t.part.Has(e) then Input(t, q, e)
        else t.start[ix].output[t.order[q]][e]
    {
      assert s.ranks[ix].mem.output[t.order[q]][e] == ElementAt(t, ix, total, q, e);
      if t.part.Has(e) { StoredOnce(t, ix, q, e, 0); }
    }
  }
}
