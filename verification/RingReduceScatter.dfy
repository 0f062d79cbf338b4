/**
 Ring ReduceScatter on the FIFO ring of `RingPipeline`: in every interleaving, every rank ends with
 the reduction of all ranks' contributions to its own block, and nothing else has changed.
 */
module RingReduceScatter {
  import opened Arith
  import opened RingFold
  import opened RingPipeline
  import opened Sequences
  import RB = RingBlocks
  import RP = RingProgram
  import RA = RingAllReduce

  /**
   A rank's buffers; the input has one block for each user rank. When `inPlace`, the output is the own block of the
   input.
   */
  datatype Buffers<T> = Buffers(inPlace: bool, input: seq<seq<T>>, output: seq<T>) {
    function Block(b: nat, self: nat): seq<T>
      requires b < |input|
    {
      if inPlace && b == self then output else input[b]
    }
  }

  /**
   One channel's part; `order[ix]` is the user rank with ring index `ix`, and `start` holds the buffers by ring index.
   */
  datatype Task<!T> = Task(part: RB.Part, op: RA.RedOp<T>, order: seq<nat>, start: seq<Buffers<T>>, base: seq<nat>) {
    ghost predicate Valid() { Fits() && part.Shape().Valid() }

    /** The buffers hold the part. */
    ghost predicate Fits() {
      && part.Valid()
      && |start| == |base| == part.nRanks && Permutation(order, part.nRanks)
      && forall r :: 0 <= r < part.nRanks ==> StartOk(r)
    }

    ghost predicate StartOk(r: nat)
      requires r < |start|
    {
      var m, end := start[r], part.gridOffset + part.channelCount;
      |m.input| == part.nRanks && end <= |m.output| && forall b :: 0 <= b < part.nRanks ==> end <= |m.input[b]|
    }

    ghost function Ring(): Ring<seq<T>, Buffers<T>>
      requires part.Valid()
    {
      RingPipeline.Ring(part.Shape(), base, (ix: nat, i: nat, received: Option<seq<T>>, mem: Buffers<T>) =>
        Exec(this, ix, i, received, mem), start)
    }
  }

  /** What place `q` of the ring contributes to element `e` of the block of place `c`. */
  ghost function Input<T>(t: Task<T>, q: nat, c: nat, e: nat): T
    requires t.Fits() && q < t.part.nRanks && c < t.part.nRanks && t.part.Has(e)
  {
    assert t.StartOk(q);
    t.op.pre(t.start[q].Block(t.order[c], t.order[q])[e])
  }

  ghost function Inputs<T>(t: Task<T>, c: nat, e: nat): (xs: seq<T>)
    requires t.Fits() && c < t.part.nRanks && t.part.Has(e)
    ensures |xs| == t.part.nRanks && forall q :: 0 <= q < |xs| ==> xs[q] == Input(t, q, c, e)
  {
    seq(t.part.nRanks, q requires 0 <= q < t.part.nRanks => Input(t, q, c, e))
  }

  /** What the rank at place `c` ends with. */
  ghost function Result<T>(t: Task<T>, c: nat, e: nat): T
    requires t.Fits() && c < t.part.nRanks && t.part.Has(e)
  {
    t.op.post(Around(t.op.reduce, Inputs(t, c, e), c, t.part.nRanks))
  }

  /** What place `ix` makes of element `e` in its `j`-th primitive. */
  ghost function Sent<T>(t: Task<T>, ix: nat, j: nat, e: nat): T
    requires t.Fits() && ix < t.part.nRanks && j < t.part.nRanks && t.part.Has(e)
  {
    var c := RP.ChunkOf(t.part.nRanks, ix, j);
    if j + 1 < t.part.nRanks then Around(t.op.reduce, Inputs(t, c, e), c, j + 1) else Result(t, c, e)
  }

  // ---- one slice ----

  /** One slice of one primitive: its block is read and reduced with what comes in; the last one stores. */
  ghost function Exec<T>(t: Task<T>, ix: nat, i: nat, received: Option<seq<T>>,
      mem: Buffers<T>): Effect<seq<T>, Buffers<T>> {
    if !(t.Fits() && ix < t.part.nRanks) then Effect([], mem) else
    var x, n := t.part.Shape().At(i), t.part.nRanks;
    Move(t.op, RB.ScatterKind(n, x.op), t.order[RP.ChunkOf(n, ix, x.op)], t.order[ix], t.part.First(x.l, x.slice),
        t.part.Length(x.l, x.slice), received, mem)
  }

  function Combine<T>(op: RA.RedOp<T>, kind: RB.Kind, own: T, got: T): T {
    if kind.Send? then own else if kind.RecvReduceCopy? then op.post(op.reduce(own, got)) else op.reduce(own, got)
  }

  ghost function Move<T>(op: RA.RedOp<T>, kind: RB.Kind, b: nat, self: nat, first: int, len: nat,
      received: Option<seq<T>>, mem: Buffers<T>): Effect<seq<T>, Buffers<T>> {
    if first < 0 || |mem.input| <= b || |mem.Block(b, self)| < first + len
      || |mem.output| < first + len then Effect([], mem) else
    var source := mem.Block(b, self);
    var own := seq(len, k requires 0 <= k < len => op.pre(source[first + k]));
    var got := if kind.Send? || received.None? then own else received.value;
    if |got| != len then Effect([], mem) else
    var out := seq(len, k requires 0 <= k < len => Combine(op, kind, own[k], got[k]));
    Effect(out, if kind.RecvReduceCopy? then mem.(output := RA.Overwrite(mem.output, first, out)) else mem)
  }

  /** The slices a rank runs are those of the primitives that its program calls. */
  lemma SlicesFollowProgram<T>(t: Task<T>, ix: nat, i: nat, calls: seq<seq<RB.Call>>)
    requires t.Fits() && ix < t.part.nRanks && i < t.part.Shape().Total() && |calls| == t.part.NLoops()
    requires forall l :: 0 <= l < |calls| ==> |calls[l]| == t.part.nRanks && forall j :: 0 <= j < t.part.nRanks ==>
      calls[l][j] == RB.ScatterCall(t.part, t.order, ix, l, j)
    ensures var x := t.part.Shape().At(i); x.l < |calls| && x.op < |calls[x.l]|
    ensures var x, p := t.part.Shape().At(i), t.part;
      var call := calls[x.l][x.op];
      var slice := RP.SliceAt(Max(call.nelem, 0), p.slicePerChunk, p.sliceFloor, x.slice);
      && call.kind == RB.ScatterKind(p.nRanks, x.op) && call.rankDest == t.order[RP.ChunkOf(p.nRanks, ix, x.op)]
      && p.First(x.l, x.slice) == call.dataOffset + slice.offset && p.Length(x.l, x.slice) == slice.size
  {
    IndexOfAt(t.part.Shape(), i);
  }

  // ---- the lock-step execution in closed form ----

  ghost function StoredAt<T>(t: Task<T>, e: nat): nat
    requires t.Fits() && t.part.Has(e)
  {
    var at := RB.Locate(t.part, e);
    t.part.Shape().Index(Locus(at.l, t.part.nRanks - 1, at.s))
  }

  lemma StoredOnce<T>(t: Task<T>, e: nat, i: nat)
    requires t.Fits() && t.part.Has(e)
    ensures var x := t.part.Shape().At(i);
      StoredAt(t, e) == i <==> x.op + 1 == t.part.nRanks && t.part.Holds(x.l, x.slice, e)
    ensures StoredAt(t, e) < t.part.Shape().Total()
  {
    var p, at := t.part.Shape(), RB.Locate(t.part, e);
    var x := Locus(at.l, t.part.nRanks - 1, at.s);
    AtOfIndex(p, x);
    IndexOfAt(p, i);
    IndexBound(p, x);
    var y := p.At(i);
    if t.part.Holds(y.l, y.slice, e) { RB.TilesOnce(t.part, y.l, y.slice, e); }
  }

  ghost function ElementAt<T>(t: Task<T>, ix: nat, i: nat, e: nat): T
    requires t.Fits() && ix < t.part.nRanks && e < |t.start[ix].output|
  {
    if t.part.Has(e) && StoredAt(t, e) < i then Result(t, ix, e) else t.start[ix].output[e]
  }

  ghost predicate MemOk<T>(t: Task<T>, ix: nat, i: nat, mem: Buffers<T>)
    requires t.Fits() && ix < t.part.nRanks
  {
    && mem.inPlace == t.start[ix].inPlace && mem.input == t.start[ix].input && |mem.output| == |t.start[ix].output|
    && forall e :: 0 <= e < |mem.output| ==> mem.output[e] == ElementAt(t, ix, i, e)
  }

  ghost predicate OutOk<T>(t: Task<T>, ix: nat, i: nat, out: seq<T>)
    requires t.Fits() && ix < t.part.nRanks
  {
    var x := t.part.Shape().At(i);
    && |out| == t.part.Length(x.l, x.slice)
    && forall e: nat :: t.part.Holds(x.l, x.slice, e) ==> Carries(t, ix, x.op, t.part.First(x.l, x.slice), out, e)
  }

  ghost predicate Carries<T>(t: Task<T>, ix: nat, j: nat, first: int, out: seq<T>, e: nat)
    requires t.Fits() && ix < t.part.nRanks && j < t.part.nRanks && first <= e < first + |out|
  {
    t.part.Has(e) && out[e - first] == Sent(t, ix, j, e)
  }

  /** What slice `i` of place `ix` receives: what its neighbour made of the same elements. */
  ghost predicate ReceivedOk<T>(t: Task<T>, ix: nat, i: nat, received: Option<seq<T>>)
    requires t.Fits() && ix < t.part.nRanks
  {
    var p := t.part.Shape();
    p.Recvs(i) ==> received.Some? && GotOk(t, p.Prev(ix), p.At(i), received.value)
  }

  ghost predicate GotOk<T>(t: Task<T>, prev: nat, x: Locus, got: seq<T>)
    requires t.Fits() && prev < t.part.nRanks && 0 < x.op < t.part.nRanks
  {
    && |got| == t.part.Length(x.l, x.slice)
    && forall e: nat :: t.part.Holds(x.l, x.slice, e) ==> Carries(t, prev, x.op - 1, t.part.First(x.l, x.slice), got, e)
  }

  /** The own block is read for an element only in the slice that stores it: in place, the input is still there. */
  lemma ReadsInput<T>(t: Task<T>, ix: nat, i: nat, mem: Buffers<T>, e: nat)
    requires t.Fits() && ix < t.part.nRanks && MemOk(t, ix, i, mem)
    requires var x := t.part.Shape().At(i); t.part.Holds(x.l, x.slice, e)
    ensures var c := RP.ChunkOf(t.part.nRanks, ix, t.part.Shape().At(i).op);
      && t.part.Has(e) && t.order[c] < |mem.input| && e < |mem.Block(t.order[c], t.order[ix])|
      && t.op.pre(mem.Block(t.order[c], t.order[ix])[e]) == Input(t, ix, c, e)
  {
    var x := t.part.Shape().At(i);
    RB.TilesOnce(t.part, x.l, x.slice, e);
    assert t.StartOk(ix);
    StoredOnce(t, e, i);
    assert mem.output[e] == ElementAt(t, ix, i, e);
    var c := RP.ChunkOf(t.part.nRanks, ix, x.op);
    assert t.order[c] == t.order[ix] ==> c == ix;
    assert c == ix ==> x.op + 1 == t.part.nRanks;
  }

  ghost predicate Does<T>(op: RA.RedOp<T>, kind: RB.Kind, b: nat, self: nat, first: int, len: nat,
      received: Option<seq<T>>, mem: Buffers<T>,
                          y: Effect<seq<T>, Buffers<T>>) {
    && b < |mem.input| && 0 <= first
      && (len != 0 ==> first + len <= |mem.Block(b, self)| && first + len <= |mem.output|)
    && (kind.Send? || (received.Some? && |received.value| == len))
    && |y.out| == len && y.mem.inPlace == mem.inPlace && y.mem.input == mem.input && |y.mem.output| == |mem.output|
    && (forall e :: first <= e < first + len ==> var own := op.pre(mem.Block(b, self)[e]);
      y.out[e - first] == Combine(op, kind, own, if kind.Send? then own else received.value[e - first]))
    && forall e :: 0 <= e < |mem.output| ==>
      y.mem.output[e] == if kind.RecvReduceCopy? && first <= e < first + len then y.out[e - first] else mem.output[e]
  }

  lemma MoveEffect<T>(op: RA.RedOp<T>, kind: RB.Kind, b: nat, self: nat, first: int, len: nat, received: Option<seq<T>>,
      mem: Buffers<T>)
    requires b < |mem.input| && 0 <= first
    requires (len != 0 ==> first + len <= |mem.Block(b, self)| && first + len <= |mem.output|)
    requires kind.Send? || (received.Some? && |received.value| == len)
    ensures Does(op, kind, b, self, first, len, received, mem, Move(op, kind, b, self, first, len, received, mem))
  {
  }

  lemma MoveReady<T>(t: Task<T>, ix: nat, i: nat, received: Option<seq<T>>, mem: Buffers<T>)
    requires t.Fits() && ix < t.part.nRanks && MemOk(t, ix, i, mem) && ReceivedOk(t, ix, i, received)
    ensures var x, n := t.part.Shape().At(i), t.part.nRanks;
      var b, first, len := t.order[RP.ChunkOf(n, ix, x.op)], t.part.First(x.l, x.slice), t.part.Length(x.l, x.slice);
      && b < |mem.input| && 0 <= first
        && (len != 0 ==> first + len <= |mem.Block(b, t.order[ix])| && first + len <= |mem.output|)
      && (RB.ScatterKind(n, x.op).Send? || (received.Some? && |received.value| == len))
  {
    var x := t.part.Shape().At(i);
    RB.SliceInside(t.part, x.l, x.slice);
    assert t.StartOk(ix);
  }

  /** One element through one primitive, given what the neighbour made of it. */
  lemma SentStep<T>(t: Task<T>, ix: nat, j: nat, e: nat)
    requires t.Fits() && ix < t.part.nRanks && j < t.part.nRanks && t.part.Has(e)
    ensures var own := Input(t, ix, RP.ChunkOf(t.part.nRanks, ix, j), e);
      Sent(t, ix, j, e) == Combine(t.op, RB.ScatterKind(t.part.nRanks, j), own,
          if j == 0 then own else Sent(t, t.part.Shape().Prev(ix), j - 1, e))
  {
    var n, c := t.part.nRanks, RP.ChunkOf(t.part.nRanks, ix, j);
    assert Wrap(n, c + j + 1) == ix;
    if 0 < j { assert RP.ChunkOf(n, t.part.Shape().Prev(ix), j - 1) == c; }
  }

  /** What a slice does, element by element. */
  lemma ExecEffect<T>(t: Task<T>, ix: nat, i: nat, received: Option<seq<T>>, mem: Buffers<T>)
    requires t.Fits() && ix < t.part.nRanks && MemOk(t, ix, i, mem) && ReceivedOk(t, ix, i, received)
    ensures var x, n, y := t.part.Shape().At(i), t.part.nRanks, Exec(t, ix, i, received, mem);
      var kind, b, self := RB.ScatterKind(n, x.op), t.order[RP.ChunkOf(n, ix, x.op)], t.order[ix];
      Does(t.op, kind, b, self, t.part.First(x.l, x.slice), t.part.Length(x.l, x.slice), received, mem, y)
  {
    var x, n := t.part.Shape().At(i), t.part.nRanks;
    MoveReady(t, ix, i, received, mem);
    MoveEffect(t.op, RB.ScatterKind(n, x.op), t.order[RP.ChunkOf(n, ix, x.op)], t.order[ix], t.part.First(x.l, x.slice),
      t.part.Length(x.l, x.slice), received, mem);
  }

  /** What a slice makes of one element. */
  ghost predicate Combined<T>(t: Task<T>, ix: nat, x: Locus, received: Option<seq<T>>, out: seq<T>, e: nat)
    requires t.Fits() && ix < t.part.nRanks && x.op < t.part.nRanks && t.part.Holds(x.l, x.slice, e)
  {
    var n, first, kind := t.part.nRanks, t.part.First(x.l, x.slice), RB.ScatterKind(t.part.nRanks, x.op);
    && t.part.Has(e) && |out| == t.part.Length(x.l, x.slice)
      && (kind.Send? || (received.Some? && |received.value| == |out|))
    && var own := Input(t, ix, RP.ChunkOf(n, ix, x.op), e);
      out[e - first] == Combine(t.op, kind, own, if kind.Send? then own else received.value[e - first])
  }

  lemma ExecCombines<T>(t: Task<T>, ix: nat, i: nat, received: Option<seq<T>>, mem: Buffers<T>, e: nat)
    requires t.Fits() && ix < t.part.nRanks && MemOk(t, ix, i, mem) && ReceivedOk(t, ix, i, received)
    requires var x := t.part.Shape().At(i); t.part.Holds(x.l, x.slice, e)
    ensures Combined(t, ix, t.part.Shape().At(i), received, Exec(t, ix, i, received, mem).out, e)
  {
    ExecEffect(t, ix, i, received, mem);
    ReadsInput(t, ix, i, mem, e);
  }

  lemma CombinedCarries<T>(t: Task<T>, ix: nat, x: Locus, received: Option<seq<T>>, out: seq<T>, e: nat)
    requires t.Fits() && ix < t.part.nRanks && x.op < t.part.nRanks && t.part.Holds(x.l, x.slice, e)
    requires Combined(t, ix, x, received, out, e)
    requires 0 < x.op ==> received.Some? && GotOk(t, t.part.Shape().Prev(ix), x, received.value)
    ensures Carries(t, ix, x.op, t.part.First(x.l, x.slice), out, e)
  {
    var first := t.part.First(x.l, x.slice);
    if x.op != 0 { assert Carries(t, t.part.Shape().Prev(ix), x.op - 1, first, received.value, e); }
    CarriesCombined(t, ix, x.op, first, out, received, e);
  }

  lemma CarriesCombined<T>(t: Task<T>, ix: nat, j: nat, first: int, out: seq<T>, received: Option<seq<T>>, e: nat)
    requires t.Fits() && ix < t.part.nRanks && j < t.part.nRanks && t.part.Has(e) && first <= e < first + |out|
    requires 0 < j ==>
      && received.Some? && |received.value| == |out|
      && received.value[e - first] == Sent(t, t.part.Shape().Prev(ix), j - 1, e)
    requires var own := Input(t, ix, RP.ChunkOf(t.part.nRanks, ix, j), e);
      out[e - first] == Combine(t.op, RB.ScatterKind(t.part.nRanks, j), own,
          if j == 0 then own else received.value[e - first])
    ensures Carries(t, ix, j, first, out, e)
  {
    SentStep(t, ix, j, e);
  }

  lemma ExecOut<T>(t: Task<T>, ix: nat, i: nat, received: Option<seq<T>>, mem: Buffers<T>)
    requires t.Fits() && ix < t.part.nRanks && MemOk(t, ix, i, mem) && ReceivedOk(t, ix, i, received)
    ensures OutOk(t, ix, i, Exec(t, ix, i, received, mem).out)
  {
    var x, out := t.part.Shape().At(i), Exec(t, ix, i, received, mem).out;
    ExecEffect(t, ix, i, received, mem);
    forall e: nat | t.part.Holds(x.l, x.slice, e) ensures Carries(t, ix, x.op, t.part.First(x.l, x.slice), out, e) {
      ExecCombines(t, ix, i, received, mem, e);
      CombinedCarries(t, ix, x, received, out, e);
    }
  }

  /** An element of the output after one slice more. */
  lemma ExecElement<T>(t: Task<T>, ix: nat, i: nat, received: Option<seq<T>>, mem: Buffers<T>, e: nat)
    requires t.Fits() && ix < t.part.nRanks && MemOk(t, ix, i, mem) && ReceivedOk(t, ix, i, received)
    requires e < |mem.output|
    ensures var mem' := Exec(t, ix, i, received, mem).mem;
      && mem'.inPlace == mem.inPlace && mem'.input == mem.input && |mem'.output| == |mem.output|
      && mem'.output[e] == ElementAt(t, ix, i + 1, e)
  {
    ExecEffect(t, ix, i, received, mem);
    ExecOut(t, ix, i, received, mem);
    assert mem.output[e] == ElementAt(t, ix, i, e);
    ElementNext(t, ix, i, e, Exec(t, ix, i, received, mem).out);
  }

  lemma ExecMem<T>(t: Task<T>, ix: nat, i: nat, received: Option<seq<T>>, mem: Buffers<T>)
    requires t.Fits() && ix < t.part.nRanks && MemOk(t, ix, i, mem) && ReceivedOk(t, ix, i, received)
    ensures MemOk(t, ix, i + 1, Exec(t, ix, i, received, mem).mem)
  {
    var mem' := Exec(t, ix, i, received, mem).mem;
    assert mem'.inPlace == mem.inPlace && mem'.input == mem.input && |mem'.output| == |mem.output|;
    forall e | 0 <= e < |mem.output| ensures mem'.output[e] == ElementAt(t, ix, i + 1, e) {
      ExecElement(t, ix, i, received, mem, e);
    }
  }

  lemma ElementNext<T>(t: Task<T>, ix: nat, i: nat, e: nat, out: seq<T>)
    requires t.Fits() && ix < t.part.nRanks && e < |t.start[ix].output| && OutOk(t, ix, i, out)
    ensures var x := t.part.Shape().At(i);
      ElementAt(t, ix, i + 1, e) == if x.op + 1 == t.part.nRanks
      && t.part.Holds(x.l, x.slice, e) then out[e - t.part.First(x.l, x.slice)] else ElementAt(t, ix, i, e)
  {
    var x := t.part.Shape().At(i);
    if t.part.Holds(x.l, x.slice, e) {
      RB.TilesOnce(t.part, x.l, x.slice, e);
      assert Carries(t, ix, x.op, t.part.First(x.l, x.slice), out, e);
    }
    if t.part.Has(e) { StoredOnce(t, e, i); }
  }

  /** What the neighbour sent one chunk earlier is for the same block and elements. */
  lemma SamePlace<T>(t: Task<T>, ix: nat, i: nat, out: seq<T>)
    requires t.Fits() && ix < t.part.nRanks && t.part.Shape().Recvs(i) && t.part.slicePerChunk <= i
    requires OutOk(t, t.part.Shape().Prev(ix), i - t.part.slicePerChunk, out)
    ensures GotOk(t, t.part.Shape().Prev(ix), t.part.Shape().At(i), out)
  {
    ChunkEarlier(t.part.Shape(), i);
  }

  lemma MessageReceived<T>(t: Task<T>, ix: nat, i: nat, out: seq<T>)
    requires t.Fits() && ix < t.part.nRanks && t.part.Shape().Recvs(i) && t.part.slicePerChunk <= i
    requires OutOk(t, t.part.Shape().Prev(ix), i - t.part.slicePerChunk, out)
    ensures ReceivedOk(t, ix, i, Some(out))
  {
    SamePlace(t, ix, i, out);
  }

  lemma OutIsReceived<T>(t: Task<T>, g: Ring<seq<T>, Buffers<T>>, ix: nat, i: nat, out: seq<T>)
    requires t.Fits() && g.Valid() && g.shape == t.part.Shape() && ix < t.part.nRanks && g.shape.Recvs(i)
    requires g.shape.slicePerChunk <= i
    requires out == g.EffectAt(g.shape.Prev(ix), i - g.shape.slicePerChunk).out && ReceivedOk(t, ix, i, Some(out))
    ensures ReceivedOk(t, ix, i, g.Handed(ix, i))
  {
    HandedIs(g, ix, i);
  }

  lemma PassedOn<T>(t: Task<T>, g: Ring<seq<T>, Buffers<T>>, ix: nat, i: nat, prev: nat, j: nat)
    requires t.Fits() && g.Valid() && g.shape == t.part.Shape() && ix < t.part.nRanks && g.shape.Recvs(i)
    requires prev == g.shape.Prev(ix) && i == j + g.shape.slicePerChunk && OutOk(t, prev, j, g.EffectAt(prev, j).out)
    ensures ReceivedOk(t, ix, i, g.Handed(ix, i))
  {
    var out := g.EffectAt(prev, j).out;
    MessageReceived(t, ix, i, out);
    OutIsReceived(t, g, ix, i, out);
  }

  lemma LockStepNext<T>(t: Task<T>, g: Ring<seq<T>, Buffers<T>>, ix: nat, i: nat)
    requires t.Valid() && g == t.Ring() && ix < t.part.nRanks
    requires MemOk(t, ix, i, g.MemAt(ix, i)) && ReceivedOk(t, ix, i, g.Handed(ix, i))
    ensures MemOk(t, ix, i + 1, g.MemAt(ix, i + 1)) && OutOk(t, ix, i, g.EffectAt(ix, i).out)
  {
    var mem, received := g.MemAt(ix, i), g.Handed(ix, i);
    MemAfter(g, ix, i);
    ExecMem(t, ix, i, received, mem);
    ExecOut(t, ix, i, received, mem);
    assert g.exec(ix, i, received, mem) == Exec(t, ix, i, received, mem);
  }

  lemma {:induction false} LockStepMem<T>(t: Task<T>, g: Ring<seq<T>, Buffers<T>>, ix: nat, i: nat)
    requires t.Valid() && g == t.Ring() && ix < t.part.nRanks
    ensures MemOk(t, ix, i, g.MemAt(ix, i))
    decreases i, 0
  {
    if i != 0 { LockStepBoth(t, g, ix, i - 1); }
  }

  lemma {:induction false} HandedOk<T>(t: Task<T>, g: Ring<seq<T>, Buffers<T>>, ix: nat, i: nat)
    requires t.Valid() && g == t.Ring() && ix < t.part.nRanks
    ensures ReceivedOk(t, ix, i, g.Handed(ix, i))
    decreases i, 1
  {
    var p := t.part.Shape();
    if p.Recvs(i) {
      NotInFirstChunk(p, i);
      var prev: nat, j: nat := p.Prev(ix), i - t.part.slicePerChunk;
      LockStepOut(t, g, prev, j);
      PassedOn(t, g, ix, i, prev, j);
    }
  }

  lemma {:induction false} LockStepBoth<T>(t: Task<T>, g: Ring<seq<T>, Buffers<T>>, ix: nat, i: nat)
    requires t.Valid() && g == t.Ring() && ix < t.part.nRanks
    ensures MemOk(t, ix, i + 1, g.MemAt(ix, i + 1)) && OutOk(t, ix, i, g.EffectAt(ix, i).out)
    decreases i, 2
  {
    LockStepMem(t, g, ix, i);
    HandedOk(t, g, ix, i);
    LockStepNext(t, g, ix, i);
  }

  lemma {:induction false} LockStepOut<T>(t: Task<T>, g: Ring<seq<T>, Buffers<T>>, ix: nat, i: nat)
    requires t.Valid() && g == t.Ring() && ix < t.part.nRanks
    ensures OutOk(t, ix, i, g.EffectAt(ix, i).out)
    decreases i, 3
  {
    LockStepBoth(t, g, ix, i);
  }

  /**
   ReduceScatter is correct in every interleaving: when all ranks are done, each rank's output holds, in this
   channel's part, the fold of all ranks' contributions to its block; nothing else has changed.
   */
  lemma ReduceScatterCorrect<T>(t: Task<T>, run: seq<State<seq<T>, Buffers<T>>>, ix: nat, e: nat)
    requires t.Valid() && IsRun(t.Ring(), run) && TypeOk(t.Ring(), run[|run| - 1]) && Final(t.Ring(), run[|run| - 1])
    requires ix < t.part.nRanks && e < |t.start[ix].output|
    ensures var mem := run[|run| - 1].ranks[ix].mem;
      && mem.input == t.start[ix].input && |mem.output| == |t.start[ix].output|
      && mem.output[e] == if t.part.Has(e) then Result(t, ix, e) else t.start[ix].output[e]
  {
    var s, total := run[|run| - 1], t.part.Shape().Total();
    EveryRunRefinesLockStep(t.Ring(), run, |run| - 1, ix);
    LockStepMem(t, t.Ring(), ix, total);
    assert s.ranks[ix].mem.output[e] == ElementAt(t, ix, total, e);
    if t.part.Has(e) { StoredOnce(t, e, 0); }
  }

  /** With an operator that allows reordering, that is the plain reduction over the user ranks in order. */
  lemma ResultIsPlainReduction<T(!new)>(t: Task<T>, ix: nat, e: nat, byRank: seq<T>)
    requires t.Fits() && Reorderable(t.op.reduce) && ix < t.part.nRanks && t.part.Has(e)
    requires |byRank| == t.part.nRanks
    requires forall q :: 0 <= q < t.part.nRanks ==> Input(t, q, ix, e) == byRank[t.order[q]]
    ensures Result(t, ix, e) == t.op.post(Plain(t.op.reduce, byRank))
  {
    assert Inputs(t, ix, e) == Pick(byRank, t.order);
    AroundIsPlainByRank(t.op.reduce, Inputs(t, ix, e), ix, byRank, t.order);
  }
}
