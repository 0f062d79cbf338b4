/**
 Ring AllReduce: what the slices of `RingProgram` do to the users' buffers, run on the
 FIFO ring of `RingPipeline`. For every number of ranks, elements and loops, and for every
 interleaving, all ranks end with the same reduction of all inputs.
 */
module RingAllReduce {
  import opened Arith
  import opened RingFold
  import opened RingPipeline
  import opened Sequences
  import RP = RingProgram

  /** A rank's user buffers. When `inPlace`, the input is the output buffer itself. */
  datatype Buffers<T> = Buffers(inPlace: bool, input: seq<T>, output: seq<T>) {
    function Source(): seq<T> { if inPlace then output else input }
  }

  datatype RedOp<!T> = RedOp(pre: T -> T, reduce: (T, T) -> T, post: T -> T)

  /** One channel's part of an AllReduce; `start` holds the buffers by ring index. */
  datatype Task<!T> = Task(
    part: RP.Part, op: RedOp<T>, start: seq<Buffers<T>>, base: seq<nat>, stepPerSlice: nat, fifoSteps: nat)
  {
    function Shape(): Shape
      requires part.Valid()
    {
      RingPipeline.Shape(part.nRanks, 2 * part.nRanks - 1, part.NLoops(), part.slicePerChunk, stepPerSlice, fifoSteps)
    }

    ghost predicate Valid() { Fits() && Shape().Valid() }

    /** The buffers hold the part. */
    ghost predicate Fits() {
      && part.Valid()
      && |start| == part.nRanks
      && |base| == part.nRanks
      && forall r :: 0 <= r < part.nRanks ==>
        part.gridOffset + part.channelCount <= |start[r].Source()| <= |start[r].output|
    }

    function PlaceOf(ix: nat, i: nat): (at: RP.Place)
      requires part.Valid() && ix < part.nRanks
    {
      var x := Shape().At(i);
      RP.Place(x.l, RP.ChunkOf(part.nRanks, ix, x.op), x.slice)
    }

    ghost function Ring(): Ring<seq<T>, Buffers<T>>
      requires part.Valid()
    {
      RingPipeline.Ring(Shape(), base, (ix: nat, i: nat, received: Option<seq<T>>, mem: Buffers<T>) =>
        Exec(this, ix, i, received, mem), start)
    }
  }

  function Overwrite<T>(s: seq<T>, at: nat, data: seq<T>): (r: seq<T>)
    requires at + |data| <= |s|
    ensures |r| == |s|
    ensures forall e :: 0 <= e < |s| ==> r[e] == if at <= e < at + |data| then data[e - at] else s[e]
  {
    s[..at] + data + s[at + |data|..]
  }

  /** What a primitive makes of one element of its own and one it received. */
  function Combine<T>(op: RedOp<T>, kind: RP.Kind, own: T, got: T): T {
    match kind
    case Send => own
    case RecvReduceSend => op.reduce(own, got)
    case RecvReduceCopySend => op.post(op.reduce(own, got))
    case RecvCopySend => got
    case Recv => got
  }

  predicate Stores(kind: RP.Kind) { kind.RecvReduceCopySend? || kind.RecvCopySend? || kind.Recv? }

  /** One slice of one primitive: read, reduce, send and store as the primitive's kind says. */
  ghost function Exec<T>(t: Task<T>, ix: nat, i: nat, received: Option<seq<T>>,
      mem: Buffers<T>): Effect<seq<T>, Buffers<T>> {
    if !(t.part.Valid() && ix < t.part.nRanks) then Effect([], mem) else
    var at := t.PlaceOf(ix, i);
    var first, len := RP.First(t.part, at), RP.Length(t.part, at);
    Move(t.op, t.part.OpKind(t.Shape().OpOf(i)), first, len, received, mem)
  }

  ghost function Move<T>(op: RedOp<T>, kind: RP.Kind, first: int, len: nat, received: Option<seq<T>>,
      mem: Buffers<T>): (x: Effect<seq<T>, Buffers<T>>)
    ensures x.mem.inPlace == mem.inPlace && x.mem.input == mem.input && |x.mem.output| == |mem.output|
  {
    var source := mem.Source();
    if first < 0 || |source| < first + len || |mem.output| < first + len then Effect([], mem) else
    var own := seq(len, k requires 0 <= k < len => op.pre(source[first + k]));
    var got := if kind.Send? || received.None? then own else received.value;
    if |got| != len then Effect([], mem) else
    var out := seq(len, k requires 0 <= k < len => Combine(op, kind, own[k], got[k]));
    Effect(out, if Stores(kind) then mem.(output := Overwrite(mem.output, first, out)) else mem)
  }

  /** The i-th slice a rank runs is a slice of the primitive that the ring program has there. */
  lemma SlicesFollowProgram<T>(t: Task<T>, ix: nat, i: nat)
    requires t.Fits() && ix < t.part.nRanks && i < t.Shape().Total()
    ensures var x, ops, calls := t.Shape().At(i), 2 * t.part.nRanks - 1, t.part.Program(ix, t.part.NLoops());
      && 0 <= x.l * ops + x.op < |calls|
      && var call := calls[x.l * ops + x.op];
      && call.kind == t.part.OpKind(t.Shape().OpOf(i))
      && var slice := RP.SliceAt(Max(call.nelem, 0), t.part.slicePerChunk, t.part.sliceFloor, x.slice);
      && RP.First(t.part, t.PlaceOf(ix, i)) == call.offset + slice.offset
      && RP.Length(t.part, t.PlaceOf(ix, i)) == slice.size
  {
    CallOfSlice(t, ix, i);
  }

  lemma CallOfSlice<T>(t: Task<T>, ix: nat, i: nat)
    requires t.Fits() && ix < t.part.nRanks && i < t.Shape().Total()
    ensures var x, ops, calls := t.Shape().At(i), 2 * t.part.nRanks - 1, t.part.Program(ix, t.part.NLoops());
      0 <= x.l * ops + x.op < |calls| && calls[x.l * ops + x.op] == t.part.CallAt(ix, x.l, x.op)
  {
    var x := t.Shape().At(i);
    IndexOfAt(t.Shape(), i);
    RP.ProgramAt(t.part, ix, t.part.NLoops(), x.l, x.op);
  }

  /** `Move`, element by element, when everything is in bounds. */
  lemma MoveElement<T>(op: RedOp<T>, kind: RP.Kind, first: int, len: nat, received: Option<seq<T>>, mem: Buffers<T>,
      e: nat)
    requires len != 0 ==> 0 <= first && first + len <= |mem.Source()| && first + len <= |mem.output|
    requires kind.Send? || (received.Some? && |received.value| == len)
    requires e < |mem.output|
    ensures var x := Move(op, kind, first, len, received, mem);
      && |x.out| == len
      && (first <= e < first + len ==> var own := op.pre(mem.Source()[e]);
        x.out[e - first] == Combine(op, kind, own, if kind.Send? then own else received.value[e - first]))
      && x.mem.output[e] == if Stores(kind) && first <= e < first + len then x.out[e - first] else mem.output[e]
  {
  }

  // ---- what each element goes through ----

  ghost function Input<T>(t: Task<T>, r: nat, e: nat): T
    requires t.Fits() && r < t.part.nRanks && e < t.part.gridOffset + t.part.channelCount
  {
    t.op.pre(t.start[r].Source()[e])
  }

  ghost function Inputs<T>(t: Task<T>, e: nat): (xs: seq<T>)
    requires t.Fits() && e < t.part.gridOffset + t.part.channelCount
    ensures |xs| == t.part.nRanks && forall r :: 0 <= r < |xs| ==> xs[r] == Input(t, r, e)
  {
    seq(t.part.nRanks, r requires 0 <= r < t.part.nRanks => Input(t, r, e))
  }

  /** The reduction of element `e` over `k` ring neighbours, starting behind index `c` and going round. */
  ghost function Partial<T>(t: Task<T>, c: nat, k: nat, e: nat): T
    requires t.Fits() && c < t.part.nRanks && 1 <= k <= t.part.nRanks && e < t.part.gridOffset + t.part.channelCount
  {
    Around(t.op.reduce, Inputs(t, e), c, k)
  }

  /** The value every rank ends with: the fold that ends at the ring index of the element's chunk. */
  ghost function Result<T>(t: Task<T>, e: nat): T
    requires t.Fits() && t.part.gridOffset <= e < t.part.gridOffset + t.part.channelCount
  {
    t.op.post(Partial(t, RP.Locate(t.part, e).c, t.part.nRanks, e))
  }

  /** What rank `ix` sends for element `e` in its `j`-th primitive. */
  ghost function Sent<T>(t: Task<T>, ix: nat, j: nat, e: nat): T
    requires t.Fits() && ix < t.part.nRanks && j < 2 * t.part.nRanks - 1
    requires t.part.gridOffset <= e < t.part.gridOffset + t.part.channelCount
  {
    if j + 1 < t.part.nRanks then Partial(t, RP.ChunkOf(t.part.nRanks, ix, j), j + 1, e) else Result(t, e)
  }

  /** The primitive in which rank `ix` stores chunk `c`. */
  function StoringOp(n: nat, ix: nat, c: nat): (j: nat)
    requires ix < n && c < n
    ensures n - 1 <= j < 2 * n - 1 && RP.ChunkOf(n, ix, j) == c
    ensures forall j' :: n - 1 <= j' < 2 * n - 1 && RP.ChunkOf(n, ix, j') == c ==> j' == j
  {
    if c == ix then n - 1 else if c < ix then ix - 1 - c + n else ix - 1 - c + 2 * n
  }

  /** The slice in which rank `ix` stores element `e`. */
  ghost function StoredAt<T>(t: Task<T>, ix: nat, e: nat): (i: nat)
    requires t.Fits() && ix < t.part.nRanks
    requires t.part.gridOffset <= e < t.part.gridOffset + t.part.channelCount
  {
    var at := RP.Locate(t.part, e);
    t.Shape().Index(Locus(at.l, StoringOp(t.part.nRanks, ix, at.c), at.s))
  }

  /** Rank `ix` stores an element in exactly one slice: a late one that handles the element's place. */
  lemma StoredOnce<T>(t: Task<T>, ix: nat, e: nat, i: nat)
    requires t.Fits() && ix < t.part.nRanks
    requires t.part.gridOffset <= e < t.part.gridOffset + t.part.channelCount
    ensures StoredAt(t, ix, e) == i <==> t.part.nRanks <= t.Shape().OpOf(i) + 1 && RP.Holds(t.part, t.PlaceOf(ix, i), e)
    ensures StoredAt(t, ix, e) < t.Shape().Total()
  {
    var at := RP.Locate(t.part, e);
    var x := Locus(at.l, StoringOp(t.part.nRanks, ix, at.c), at.s);
    AtOfIndex(t.Shape(), x);
    IndexOfAt(t.Shape(), i);
    IndexBound(t.Shape(), x);
    if RP.Holds(t.part, t.PlaceOf(ix, i), e) { RP.TilesOnce(t.part, t.PlaceOf(ix, i), e); }
  }

  /** Before its storing slice an element is read: in place, the input is still there. */
  lemma ReadBeforeStored<T>(t: Task<T>, ix: nat, e: nat, i: nat)
    requires t.Fits() && ix < t.part.nRanks
    requires t.part.gridOffset <= e < t.part.gridOffset + t.part.channelCount
    requires t.Shape().OpOf(i) < t.part.nRanks && RP.Holds(t.part, t.PlaceOf(ix, i), e)
    ensures i <= StoredAt(t, ix, e)
  {
    var p, x := t.Shape(), t.Shape().At(i);
    RP.TilesOnce(t.part, t.PlaceOf(ix, i), e);
    IndexOfAt(p, i);
    var j := StoringOp(t.part.nRanks, ix, RP.Locate(t.part, e).c);
    assert x.op <= j;
    MulLe(p.slicePerChunk, x.l * p.opsPerLoop + x.op, x.l * p.opsPerLoop + j);
  }

  // ---- the lock-step execution in closed form ----

  /** Rank `ix` after `i` slices: exactly the elements whose storing slice is past hold their result. */
  ghost predicate MemOk<T>(t: Task<T>, ix: nat, i: nat, mem: Buffers<T>)
    requires t.Fits() && ix < t.part.nRanks
  {
    && mem.inPlace == t.start[ix].inPlace
    && mem.input == t.start[ix].input
    && |mem.output| == |t.start[ix].output|
    && forall e :: 0 <= e < |mem.output| ==> mem.output[e] == ElementAt(t, ix, i, e)
  }

  ghost function ElementAt<T>(t: Task<T>, ix: nat, i: nat, e: nat): T
    requires t.Fits() && ix < t.part.nRanks && e < |t.start[ix].output|
  {
    if t.part.gridOffset <= e < t.part.gridOffset + t.part.channelCount && StoredAt(t, ix, e) < i
    then Result(t, e) else t.start[ix].output[e]
  }

  /** The message of slice `i` carries, for each element of the slice, the value `Sent` names. */
  ghost predicate OutOk<T>(t: Task<T>, ix: nat, i: nat, out: seq<T>)
    requires t.Fits() && ix < t.part.nRanks
  {
    && |out| == RP.Length(t.part, t.PlaceOf(ix, i))
    && forall e: nat :: RP.Holds(t.part, t.PlaceOf(ix, i), e) ==> Carries(t, ix, i, out, e)
  }

  ghost predicate Carries<T>(t: Task<T>, ix: nat, i: nat, out: seq<T>, e: nat)
    requires t.Fits() && ix < t.part.nRanks
    requires |out| == RP.Length(t.part, t.PlaceOf(ix, i)) && RP.Holds(t.part, t.PlaceOf(ix, i), e)
  {
    && t.part.gridOffset <= e < t.part.gridOffset + t.part.channelCount
    && out[e - RP.First(t.part, t.PlaceOf(ix, i))] == Sent(t, ix, t.Shape().OpOf(i), e)
  }

  /** What a rank reads for an element of an early slice is its original input. */
  lemma ReadsInput<T>(t: Task<T>, ix: nat, i: nat, mem: Buffers<T>, e: nat)
    requires t.Fits() && ix < t.part.nRanks && MemOk(t, ix, i, mem)
    requires RP.Holds(t.part, t.PlaceOf(ix, i), e)
    ensures t.part.gridOffset <= e < t.part.gridOffset + t.part.channelCount
    ensures t.Shape().OpOf(i) < t.part.nRanks ==> t.op.pre(mem.Source()[e]) == Input(t, ix, e)
  {
    RP.TilesOnce(t.part, t.PlaceOf(ix, i), e);
    if t.Shape().OpOf(i) < t.part.nRanks {
      ReadBeforeStored(t, ix, e, i);
      assert mem.output[e] == ElementAt(t, ix, i, e);
    }
  }

  /** A non-empty slice lies inside the part, hence inside the buffers. */
  lemma SliceInside<T>(t: Task<T>, ix: nat, i: nat)
    requires t.Fits() && ix < t.part.nRanks
    ensures var first, len := RP.First(t.part, t.PlaceOf(ix, i)), RP.Length(t.part, t.PlaceOf(ix, i));
      len != 0 ==> t.part.gridOffset <= first && first + len <= t.part.gridOffset + t.part.channelCount
  {
    var at := t.PlaceOf(ix, i);
    var first, len := RP.First(t.part, at), RP.Length(t.part, at);
    if len != 0 {
      RP.TilesOnce(t.part, at, first);
      RP.TilesOnce(t.part, at, first + len - 1);
    }
  }

  /** The neighbour's slice one chunk earlier is about the same elements. */
  lemma SamePlace<T>(t: Task<T>, ix: nat, i: nat)
    requires t.Fits() && ix < t.part.nRanks && t.Shape().Recvs(i) && t.part.slicePerChunk <= i
    ensures t.PlaceOf(t.Shape().Prev(ix), i - t.part.slicePerChunk) == t.PlaceOf(ix, i)
    ensures t.Shape().OpOf(i - t.part.slicePerChunk) == t.Shape().OpOf(i) - 1
  {
    ChunkEarlier(t.Shape(), i);
  }

  /** One element through one primitive, given what the neighbour sent for it. */
  lemma SentStep<T>(t: Task<T>, ix: nat, j: nat, e: nat)
    requires t.Fits() && ix < t.part.nRanks && j < 2 * t.part.nRanks - 1
    requires t.part.gridOffset <= e < t.part.gridOffset + t.part.channelCount
    requires RP.Locate(t.part, e).c == RP.ChunkOf(t.part.nRanks, ix, j)
    ensures var own := if j < t.part.nRanks then Input(t, ix, e) else t.start[ix].Source()[e];
      Sent(t, ix, j, e) == Combine(t.op, t.part.OpKind(j), own,
          if j == 0 then own else Sent(t, t.Shape().Prev(ix), j - 1, e))
  {
    var n, c := t.part.nRanks, RP.ChunkOf(t.part.nRanks, ix, j);
    if j < n { assert Wrap(n, c + j + 1) == ix; }
    if 0 < j < n { assert RP.ChunkOf(n, t.Shape().Prev(ix), j - 1) == c; }
  }

  /** What slice `i` of rank `ix` receives, if anything, is what its neighbour should have sent. */
  ghost predicate ReceivedOk<T>(t: Task<T>, ix: nat, i: nat, received: Option<seq<T>>)
    requires t.Fits() && ix < t.part.nRanks
  {
    t.Shape().Recvs(i) ==>
      t.part.slicePerChunk <= i && received.Some?
      && OutOk(t, t.Shape().Prev(ix), i - t.part.slicePerChunk, received.value)
  }

  lemma ReceivedElement<T>(t: Task<T>, ix: nat, i: nat, received: Option<seq<T>>, e: nat)
    requires t.Fits() && ix < t.part.nRanks && ReceivedOk(t, ix, i, received) && t.Shape().Recvs(i)
    requires RP.Holds(t.part, t.PlaceOf(ix, i), e)
    ensures |received.value| == RP.Length(t.part, t.PlaceOf(ix, i))
    ensures t.part.gridOffset <= e < t.part.gridOffset + t.part.channelCount
    ensures received.value[e - RP.First(t.part, t.PlaceOf(ix, i))]
       == Sent(t, t.Shape().Prev(ix), t.Shape().OpOf(i) - 1, e)
  {
    SamePlace(t, ix, i);
    assert Carries(t, t.Shape().Prev(ix), i - t.part.slicePerChunk, received.value, e);
  }

  /** A slice is in bounds and has its message, so `Move` acts on it as intended. */
  lemma MoveReady<T>(t: Task<T>, ix: nat, i: nat, received: Option<seq<T>>, mem: Buffers<T>)
    requires t.Fits() && ix < t.part.nRanks && MemOk(t, ix, i, mem) && ReceivedOk(t, ix, i, received)
    ensures var first, len := RP.First(t.part, t.PlaceOf(ix, i)), RP.Length(t.part, t.PlaceOf(ix, i));
      && (len != 0 ==> 0 <= first && first + len <= |mem.Source()| && first + len <= |mem.output|)
      && (t.part.OpKind(t.Shape().OpOf(i)).Send? || (received.Some? && |received.value| == len))
      && |Exec(t, ix, i, received, mem).out| == len
  {
    SliceInside(t, ix, i);
    if t.Shape().Recvs(i) { SamePlace(t, ix, i); }
  }

  /** What a slice makes of one element. */
  lemma ExecCombines<T>(t: Task<T>, ix: nat, i: nat, received: Option<seq<T>>, mem: Buffers<T>, e: nat)
    requires t.Fits() && ix < t.part.nRanks && MemOk(t, ix, i, mem) && ReceivedOk(t, ix, i, received)
    requires RP.Holds(t.part, t.PlaceOf(ix, i), e) && e < |mem.output| && e < |mem.Source()|
    ensures var kind, at, own := t.part.OpKind(t.Shape().OpOf(i)), t.PlaceOf(ix, i), t.op.pre(mem.Source()[e]);
      var out, first := Exec(t, ix, i, received, mem).out, RP.First(t.part, at);
      && |out| == RP.Length(t.part, at) && (kind.Send? || (received.Some? && |received.value| == |out|))
      && out[e - first] == Combine(t.op, kind, own, if kind.Send? then own else received.value[e - first])
  {
    var at := t.PlaceOf(ix, i);
    MoveReady(t, ix, i, received, mem);
    MoveElement(t.op, t.part.OpKind(t.Shape().OpOf(i)), RP.First(t.part, at), RP.Length(t.part, at), received, mem, e);
  }

  lemma ExecCarries<T>(t: Task<T>, ix: nat, i: nat, received: Option<seq<T>>, mem: Buffers<T>, e: nat)
    requires t.Fits() && ix < t.part.nRanks && MemOk(t, ix, i, mem) && ReceivedOk(t, ix, i, received)
    requires |Exec(t, ix, i, received, mem).out| == RP.Length(t.part, t.PlaceOf(ix, i))
    requires RP.Holds(t.part, t.PlaceOf(ix, i), e)
    ensures Carries(t, ix, i, Exec(t, ix, i, received, mem).out, e)
  {
    RP.TilesOnce(t.part, t.PlaceOf(ix, i), e);
    ReadsInput(t, ix, i, mem, e);
    ExecCombines(t, ix, i, received, mem, e);
    SentStep(t, ix, t.Shape().OpOf(i), e);
    if t.Shape().Recvs(i) { ReceivedElement(t, ix, i, received, e); }
  }

  lemma ExecOut<T>(t: Task<T>, ix: nat, i: nat, received: Option<seq<T>>, mem: Buffers<T>)
    requires t.Fits() && ix < t.part.nRanks && MemOk(t, ix, i, mem) && ReceivedOk(t, ix, i, received)
    ensures OutOk(t, ix, i, Exec(t, ix, i, received, mem).out)
  {
    MoveReady(t, ix, i, received, mem);
    forall e: nat | RP.Holds(t.part, t.PlaceOf(ix, i), e)
      ensures Carries(t, ix, i, Exec(t, ix, i, received, mem).out, e)
    {
      ExecCarries(t, ix, i, received, mem, e);
    }
  }

  /** A late slice stores its elements' results. */
  lemma StoresResult<T>(t: Task<T>, ix: nat, i: nat, out: seq<T>, e: nat)
    requires t.Fits() && ix < t.part.nRanks && OutOk(t, ix, i, out)
    requires RP.Holds(t.part, t.PlaceOf(ix, i), e) && t.part.nRanks <= t.Shape().OpOf(i) + 1
    ensures t.part.gridOffset <= e < t.part.gridOffset + t.part.channelCount
    ensures out[e - RP.First(t.part, t.PlaceOf(ix, i))] == Result(t, e)
  {
    assert Carries(t, ix, i, out, e);
  }

  lemma ExecMem<T>(t: Task<T>, ix: nat, i: nat, received: Option<seq<T>>, mem: Buffers<T>)
    requires t.Fits() && ix < t.part.nRanks && MemOk(t, ix, i, mem) && ReceivedOk(t, ix, i, received)
    ensures MemOk(t, ix, i + 1, Exec(t, ix, i, received, mem).mem)
  {
    var mem' := Exec(t, ix, i, received, mem).mem;
    assert mem'.inPlace == mem.inPlace && mem'.input == mem.input && |mem'.output| == |mem.output|;
    forall e | 0 <= e < |mem.output| ensures mem'.output[e] == ElementAt(t, ix, i + 1, e) {
      ExecElement(t, ix, i, received, mem, e);
    }
  }

  lemma ExecElement<T>(t: Task<T>, ix: nat, i: nat, received: Option<seq<T>>, mem: Buffers<T>, e: nat)
    requires t.Fits() && ix < t.part.nRanks && MemOk(t, ix, i, mem) && ReceivedOk(t, ix, i, received)
    requires e < |mem.output|
    ensures Exec(t, ix, i, received, mem).mem.output[e] == ElementAt(t, ix, i + 1, e)
  {
    var x, at := Exec(t, ix, i, received, mem), t.PlaceOf(ix, i);
    MoveReady(t, ix, i, received, mem);
    ExecOut(t, ix, i, received, mem);
    MoveElement(t.op, t.part.OpKind(t.Shape().OpOf(i)), RP.First(t.part, at), RP.Length(t.part, at), received, mem, e);
    ElementStep(t, ix, i, x.out, mem, e);
  }

  lemma ElementStep<T>(t: Task<T>, ix: nat, i: nat, out: seq<T>, mem: Buffers<T>, e: nat)
    requires t.Fits() && ix < t.part.nRanks && MemOk(t, ix, i, mem) && OutOk(t, ix, i, out) && e < |mem.output|
    ensures ElementAt(t, ix, i + 1, e) ==
      if t.part.nRanks <= t.Shape().OpOf(i) + 1 && RP.Holds(t.part, t.PlaceOf(ix, i), e)
      then out[e - RP.First(t.part, t.PlaceOf(ix, i))] else mem.output[e]
  {
    assert mem.output[e] == ElementAt(t, ix, i, e);
    if RP.Holds(t.part, t.PlaceOf(ix, i), e) { RP.TilesOnce(t.part, t.PlaceOf(ix, i), e); }
    if t.part.gridOffset <= e < t.part.gridOffset + t.part.channelCount {
      StoredOnce(t, ix, e, i);
      if StoredAt(t, ix, e) == i { StoresResult(t, ix, i, out, e); }
    }
  }

  lemma LockStepNext<T>(t: Task<T>, g: Ring<seq<T>, Buffers<T>>, ix: nat, i: nat)
    requires t.Valid() && g == t.Ring() && ix < t.part.nRanks
    requires MemOk(t, ix, i, g.MemAt(ix, i)) && ReceivedOk(t, ix, i, g.Handed(ix, i))
    ensures MemOk(t, ix, i + 1, g.MemAt(ix, i + 1))
    ensures OutOk(t, ix, i, g.EffectAt(ix, i).out)
  {
    var mem, received := g.MemAt(ix, i), g.Handed(ix, i);
    MemAfter(g, ix, i);
    ExecMem(t, ix, i, received, mem);
    ExecOut(t, ix, i, received, mem);
    assert g.exec(ix, i, received, mem) == Exec(t, ix, i, received, mem);
  }

  /** What the neighbour should have sent is what the lock-step execution hands over. */
  lemma MessageReceived<T>(t: Task<T>, ix: nat, i: nat, out: seq<T>)
    requires t.Fits() && ix < t.part.nRanks && t.Shape().Recvs(i) && t.part.slicePerChunk <= i
    requires OutOk(t, t.Shape().Prev(ix), i - t.part.slicePerChunk, out)
    ensures ReceivedOk(t, ix, i, Some(out))
  {
  }

  lemma OutIsReceived<T>(t: Task<T>, g: Ring<seq<T>, Buffers<T>>, ix: nat, i: nat, out: seq<T>)
    requires t.Fits() && g.Valid() && g.shape == t.Shape() && ix < t.part.nRanks && g.shape.Recvs(i)
    requires g.shape.slicePerChunk <= i
    requires out == g.EffectAt(g.shape.Prev(ix), i - g.shape.slicePerChunk).out && ReceivedOk(t, ix, i, Some(out))
    ensures ReceivedOk(t, ix, i, g.Handed(ix, i))
  {
    HandedIs(g, ix, i);
  }

  lemma PassedOn<T>(t: Task<T>, g: Ring<seq<T>, Buffers<T>>, ix: nat, i: nat, prev: nat, j: nat)
    requires t.Fits() && g.Valid() && g.shape == t.Shape() && ix < t.part.nRanks && g.shape.Recvs(i)
    requires prev == g.shape.Prev(ix) && i == j + g.shape.slicePerChunk && OutOk(t, prev, j, g.EffectAt(prev, j).out)
    ensures ReceivedOk(t, ix, i, g.Handed(ix, i))
  {
    var out := g.EffectAt(prev, j).out;
    MessageReceived(t, ix, i, out);
    OutIsReceived(t, g, ix, i, out);
  }

  /** The lock-step execution in closed form, for every rank and slice. */
  lemma {:induction false} LockStepMem<T>(t: Task<T>, g: Ring<seq<T>, Buffers<T>>, ix: nat, i: nat)
    requires t.Valid() && g == t.Ring() && ix < t.part.nRanks
    ensures MemOk(t, ix, i, g.MemAt(ix, i))
    decreases i, 0
  {
    if i != 0 { LockStepBoth(t, g, ix, i - 1); }
  }

  lemma {:induction false} HandedOk<T>(t: Task<T>, g: Ring<seq<T>, Buffers<T>>, ix: nat, i: nat)
    requires t.Valid() && g == t.Ring() && ix < t.part.nRanks
    ensures ReceivedOk(t, ix, i, g.Handed(ix, i))
    decreases i, 1
  {
    if t.Shape().Recvs(i) {
      NotInFirstChunk(t.Shape(), i);
      var prev: nat, j: nat := t.Shape().Prev(ix), i - t.part.slicePerChunk;
      LockStepOut(t, g, prev, j);
      PassedOn(t, g, ix, i, prev, j);
    }
  }

  lemma {:induction false} LockStepBoth<T>(t: Task<T>, g: Ring<seq<T>, Buffers<T>>, ix: nat, i: nat)
    requires t.Valid() && g == t.Ring() && ix < t.part.nRanks
    ensures MemOk(t, ix, i + 1, g.MemAt(ix, i + 1)) && OutOk(t, ix, i, g.EffectAt(ix, i).out)
    decreases i, 2
  {
    LockStepMem(t, g, ix, i);
    HandedOk(t, g, ix, i);
    LockStepNext(t, g, ix, i);
  }

  lemma {:induction false} LockStepOut<T>(t: Task<T>, g: Ring<seq<T>, Buffers<T>>, ix: nat, i: nat)
    requires t.Valid() && g == t.Ring() && ix < t.part.nRanks
    ensures OutOk(t, ix, i, g.EffectAt(ix, i).out)
    decreases i, 3
  {
    LockStepBoth(t, g, ix, i);
  }

  /**
   AllReduce is correct in every interleaving: when all ranks are done, element `e` has on every
   rank the same value, the fold of all ranks' inputs around the ring; nothing else has changed.
   */
  lemma AllReduceCorrect<T>(t: Task<T>, run: seq<State<seq<T>, Buffers<T>>>, ix: nat, e: nat)
    requires t.Valid() && IsRun(t.Ring(), run) && TypeOk(t.Ring(), run[|run| - 1]) && Final(t.Ring(), run[|run| - 1])
    requires ix < t.part.nRanks && e < |t.start[ix].output|
    ensures var out := run[|run| - 1].ranks[ix].mem.output;
      && |out| == |t.start[ix].output|
      && out[e] == if t.part.gridOffset <= e < t.part.gridOffset + t.part.channelCount then Result(t, e)
        else t.start[ix].output[e]
  {
    var s, total := run[|run| - 1], t.Shape().Total();
    EveryRunRefinesLockStep(t.Ring(), run, |run| - 1, ix);
    LockStepMem(t, t.Ring(), ix, total);
    assert s.ranks[ix].mem.output[e] == ElementAt(t, ix, total, e);
    if t.part.gridOffset <= e < t.part.gridOffset + t.part.channelCount { StoredOnce(t, ix, e, 0); }
  }

  /**
   With an operator that allows reordering, the result is the plain reduction over the user ranks in order;
   `ranks[ix]` is the user rank with ring index `ix`.
   */
  lemma ResultIsPlainReduction<T(!new)>(t: Task<T>, e: nat, ranks: seq<nat>, byRank: seq<T>)
    requires t.Fits() && Reorderable(t.op.reduce) && t.part.gridOffset <= e < t.part.gridOffset + t.part.channelCount
    requires |byRank| == t.part.nRanks && Permutation(ranks, |byRank|)
    requires forall ix :: 0 <= ix < t.part.nRanks ==> Input(t, ix, e) == byRank[ranks[ix]]
    ensures Result(t, e) == t.op.post(Plain(t.op.reduce, byRank))
  {
    assert Inputs(t, e) == Pick(byRank, ranks);
    AroundIsPlainByRank(t.op.reduce, Inputs(t, e), RP.Locate(t.part, e).c, byRank, ranks);
  }
}
