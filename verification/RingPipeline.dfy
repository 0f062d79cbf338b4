/**
 Ranks on a ring that exchange slices through bounded credit FIFOs.

 Every ring collective issues, per loop, one send-only primitive, some
 receive-and-send primitives and one receive-only primitive. A primitive call is
 cut into `slicePerChunk` slices; each slice waits for its peers, moves data and
 posts. The module models all ranks at once, with every interleaving of polls,
 copies and posts, and shows that the result never depends on the interleaving,
 that no unread slot is overwritten and that the ring cannot get stuck.

 What a slice does to the data is a parameter (`exec`), so the theorems below
 serve AllReduce, AllGather and ReduceScatter alike.
 */
module RingPipeline {
  import opened Arith

  datatype Option<+T> = None | Some(value: T)

  datatype Locus = Locus(l: nat, op: nat, slice: nat)

  datatype Shape = Shape(
    nRanks: nat,
    opsPerLoop: nat,     // primitive calls per loop
    nLoops: nat,
    slicePerChunk: nat,
    stepPerSlice: nat,
    fifoSteps: nat)      // NCCL_STEPS
  {
    /** A loop has a first primitive, which sends, and a last one, which receives. */
    predicate Sized() { 2 <= opsPerLoop && 1 <= slicePerChunk }

    /** What the protocol needs to be safe; `Roomy` is what it needs to be live. */
    ghost predicate Valid() {
      && 1 <= nRanks
      && Sized()
      && 1 <= stepPerSlice
      && 1 <= fifoSteps
      && fifoSteps % stepPerSlice == 0
    }

    /** A FIFO must hold a chunk, and one slice more if a loop has a primitive that receives and sends. */
    ghost predicate Roomy() {
      (slicePerChunk + if 3 <= opsPerLoop then 1 else 0) * stepPerSlice <= fifoSteps
    }

    function Total(): nat { nLoops * opsPerLoop * slicePerChunk }

    /** Which loop, primitive and slice the `i`-th slice of a rank's program is. */
    function At(i: nat): (at: Locus)
      requires opsPerLoop != 0 && slicePerChunk != 0
      ensures at.op < opsPerLoop && at.slice < slicePerChunk
    {
      if i < slicePerChunk then Locus(0, 0, i) else
      var before := At(i - slicePerChunk);
      if before.op + 1 == opsPerLoop then Locus(before.l + 1, 0, before.slice)
      else before.(op := before.op + 1)
    }

    function OpOf(i: nat): nat
      requires opsPerLoop != 0 && slicePerChunk != 0
    {
      At(i).op
    }

    /** The inverse of `At`. */
    function Index(at: Locus): nat {
      MulNonneg(at.l, opsPerLoop);
      MulNonneg(at.l * opsPerLoop + at.op, slicePerChunk);
      (at.l * opsPerLoop + at.op) * slicePerChunk + at.slice
    }

    predicate Sends(i: nat)
      requires opsPerLoop != 0 && slicePerChunk != 0
    {
      OpOf(i) + 1 < opsPerLoop
    }

    predicate Recvs(i: nat)
      requires opsPerLoop != 0 && slicePerChunk != 0
    {
      0 < OpOf(i)
    }

    /** Slices sent, respectively received, by the first `i` slices of a rank's program. */
    ghost function SendCount(i: nat): nat
      requires opsPerLoop != 0 && slicePerChunk != 0
    {
      if i == 0 then 0 else SendCount(i - 1) + if Sends(i - 1) then 1 else 0
    }

    ghost function RecvCount(i: nat): nat
      requires opsPerLoop != 0 && slicePerChunk != 0
    {
      if i == 0 then 0 else RecvCount(i - 1) + if Recvs(i - 1) then 1 else 0
    }

    function Prev(r: nat): (p: nat)
      requires r < nRanks
      ensures p < nRanks
    {
      if r == 0 then nRanks - 1 else r - 1
    }

    function NextOf(r: nat): (p: nat)
      requires r < nRanks
      ensures p < nRanks
    {
      if r == nRanks - 1 then 0 else r + 1
    }
  }

  /** The effect of one slice: what it puts in the next rank's FIFO and the rank's new memory. */
  datatype Effect<Msg, Mem> = Effect(out: Msg, mem: Mem)

  datatype Ring<!Msg, !Mem> = Ring(
    shape: Shape,
    base: seq<nat>,      // per connection (by sender): its step counter when the collective starts
    exec: (nat, nat, Option<Msg>, Mem) -> Effect<Msg, Mem>,
    start: seq<Mem>)
  {
    ghost predicate Valid() {
      && shape.Valid()
      && |base| == shape.nRanks
      && |start| == shape.nRanks
    }

    /** The step counter of connection `r` once `k` slices went through it. */
    function Step(r: nat, k: nat): nat
      requires r < |base|
    {
      if k == 0 then base[r] else Step(r, k - 1) + shape.stepPerSlice
    }

    function Slot(r: nat, k: nat): (q: nat)
      requires r < |base| && shape.fifoSteps != 0
      ensures q < shape.fifoSteps
    {
      Step(r, k) % shape.fifoSteps
    }

    // The reference: all ranks in lock step, message passing without any FIFO.

    ghost function MemAt(r: nat, i: nat): Mem
      requires Valid() && r < shape.nRanks
      decreases i, 0
    {
      if i == 0 then start[r] else EffectAt(r, i - 1).mem
    }

    /** The message for slice `i`: what the previous rank sent one chunk of slices earlier. */
    ghost function Handed(r: nat, i: nat): Option<Msg>
      requires Valid() && r < shape.nRanks
      decreases i, 1
    {
      if shape.Recvs(i) && shape.slicePerChunk <= i
      then Some(EffectAt(shape.Prev(r), i - shape.slicePerChunk).out)
      else None
    }

    ghost function EffectAt(r: nat, i: nat): Effect<Msg, Mem>
      requires Valid() && r < shape.nRanks
      decreases i, 2
    {
      exec(r, i, Handed(r, i), MemAt(r, i))
    }
  }

  /**
   One rank. Counters are in slices; `Ring.Step` turns them into the step values
   that the shared words hold. `tail` and `head` are what the rank has published,
   `tailSeen` and `headSeen` the neighbours' values it last polled.
   */
  datatype Rank<Mem> = Rank(pc: nat, tail: nat, head: nat, tailSeen: nat, headSeen: nat, mem: Mem)

  datatype State<Msg, Mem> = State(ranks: seq<Rank<Mem>>, fifos: seq<seq<Option<Msg>>>)

  datatype Action = PollTail(r: nat) | PollHead(r: nat) | Copy(r: nat) | PostSend(r: nat) | PostRecv(r: nat)

  ghost predicate TypeOk<Msg, Mem>(g: Ring<Msg, Mem>, s: State<Msg, Mem>) {
    && g.Valid()
    && |s.ranks| == g.shape.nRanks
    && |s.fifos| == g.shape.nRanks
    && forall r :: 0 <= r < g.shape.nRanks ==> |s.fifos[r]| == g.shape.fifoSteps
  }

  ghost predicate Init<Msg, Mem>(g: Ring<Msg, Mem>, s: State<Msg, Mem>) {
    && TypeOk(g, s)
    && forall r :: 0 <= r < g.shape.nRanks ==> s.ranks[r] == Rank(0, 0, 0, 0, 0, g.start[r])
  }

  /** The receive wait of waitPeer: the polled tail covers the slice about to be read. */
  ghost predicate RecvReady<Msg, Mem>(g: Ring<Msg, Mem>, s: State<Msg, Mem>, r: nat)
    requires TypeOk(g, s) && r < g.shape.nRanks
  {
    var k, c := s.ranks[r], g.shape.Prev(r);
    g.Step(c, g.shape.RecvCount(k.pc)) + g.shape.stepPerSlice <= g.Step(c, k.tailSeen)
  }

  /** The send wait of waitPeer: the polled head leaves room for one more slice. */
  ghost predicate SendReady<Msg, Mem>(g: Ring<Msg, Mem>, s: State<Msg, Mem>, r: nat)
    requires TypeOk(g, s) && r < g.shape.nRanks
  {
    var k := s.ranks[r];
    g.Step(r, g.shape.SendCount(k.pc)) + g.shape.stepPerSlice <= g.Step(r, k.headSeen) + g.shape.fifoSteps
  }

  /** A poll happens only inside a wait loop; it is enabled when it would bring news. */
  ghost predicate Enabled<Msg, Mem>(g: Ring<Msg, Mem>, s: State<Msg, Mem>, a: Action)
    requires TypeOk(g, s)
  {
    && a.r < g.shape.nRanks
    && var k := s.ranks[a.r];
    match a
    case PollTail(r) =>
      k.pc < g.shape.Total() && g.shape.Recvs(k.pc) && !RecvReady(g, s, r)
      && k.tailSeen != s.ranks[g.shape.Prev(r)].tail
    case PollHead(r) =>
      k.pc < g.shape.Total() && g.shape.Sends(k.pc) && !SendReady(g, s, r)
      && k.headSeen != s.ranks[g.shape.NextOf(r)].head
    case Copy(r) =>
      k.pc < g.shape.Total()
      && (g.shape.Recvs(k.pc) ==> RecvReady(g, s, r))
      && (g.shape.Sends(k.pc) ==> SendReady(g, s, r))
    case PostSend(r) => k.tail < g.shape.SendCount(k.pc)
    case PostRecv(r) => k.head < g.shape.RecvCount(k.pc)
  }

  /** What rank `r` reads for its next slice: the slot the step counter selects, whatever is in it. */
  ghost function Received<Msg, Mem>(g: Ring<Msg, Mem>, s: State<Msg, Mem>, r: nat): Option<Msg>
    requires TypeOk(g, s) && r < g.shape.nRanks
  {
    var c, i := g.shape.Prev(r), s.ranks[r].pc;
    if g.shape.Recvs(i) then s.fifos[c][g.Slot(c, g.shape.RecvCount(i))] else None
  }

  ghost function Apply<Msg, Mem>(g: Ring<Msg, Mem>, s: State<Msg, Mem>, a: Action): (s': State<Msg, Mem>)
    requires TypeOk(g, s) && a.r < g.shape.nRanks
    ensures TypeOk(g, s')
  {
    var k := s.ranks[a.r];
    match a
    case PollTail(r) => s.(ranks := s.ranks[r := k.(tailSeen := s.ranks[g.shape.Prev(r)].tail)])
    case PollHead(r) => s.(ranks := s.ranks[r := k.(headSeen := s.ranks[g.shape.NextOf(r)].head)])
    case Copy(r) =>
      var e := g.exec(r, k.pc, Received(g, s, r), k.mem);
      var q := g.Slot(r, g.shape.SendCount(k.pc));
      State(
        s.ranks[r := k.(pc := k.pc + 1, mem := e.mem)],
        if g.shape.Sends(k.pc) then s.fifos[r := s.fifos[r][q := Some(e.out)]] else s.fifos)
    case PostSend(r) => s.(ranks := s.ranks[r := k.(tail := k.tail + 1)])
    case PostRecv(r) => s.(ranks := s.ranks[r := k.(head := k.head + 1)])
  }

  ghost predicate Next<Msg, Mem>(g: Ring<Msg, Mem>, s: State<Msg, Mem>, s': State<Msg, Mem>)
  {
    TypeOk(g, s) && exists a: Action :: Enabled(g, s, a) && s' == Apply(g, s, a)
  }

  ghost predicate IsRun<Msg, Mem>(g: Ring<Msg, Mem>, run: seq<State<Msg, Mem>>) {
    && 0 < |run|
    && Init(g, run[0])
    && forall t :: 0 <= t < |run| - 1 ==> Next(g, run[t], run[t + 1])
  }

  ghost predicate Final<Msg, Mem>(g: Ring<Msg, Mem>, s: State<Msg, Mem>)
    requires TypeOk(g, s)
  {
    forall r :: 0 <= r < g.shape.nRanks ==>
      var k := s.ranks[r];
      && k.pc == g.shape.Total()
      && k.tail == g.shape.SendCount(k.pc)
      && k.head == g.shape.RecvCount(k.pc)
  }

  /** The reference, one slice further. */
  lemma MemAfter<Msg, Mem>(g: Ring<Msg, Mem>, r: nat, i: nat)
    requires g.Valid() && r < g.shape.nRanks
    ensures g.MemAt(r, i + 1) == g.exec(r, i, g.Handed(r, i), g.MemAt(r, i)).mem
    ensures g.EffectAt(r, i) == g.exec(r, i, g.Handed(r, i), g.MemAt(r, i))
  {
  }

  lemma NotInFirstChunk(p: Shape, i: nat)
    requires p.Sized() && p.Recvs(i)
    ensures p.slicePerChunk <= i
  {
  }

  /** A receiving slice is handed the message of the previous rank's slice one chunk earlier. */
  lemma HandedIs<Msg, Mem>(g: Ring<Msg, Mem>, r: nat, i: nat)
    requires g.Valid() && r < g.shape.nRanks && g.shape.Recvs(i)
    ensures g.shape.slicePerChunk <= i
    ensures g.Handed(r, i) == Some(g.EffectAt(g.shape.Prev(r), i - g.shape.slicePerChunk).out)
  {
    NotInFirstChunk(g.shape, i);
  }

  // ---- counting ----

  lemma {:induction false} CountsMonotone(p: Shape, i: nat, j: nat)
    requires p.Sized() && i <= j
    ensures p.SendCount(i) <= p.SendCount(j) <= p.SendCount(i) + (j - i)
    ensures p.RecvCount(i) <= p.RecvCount(j)
    ensures i < j && p.Sends(i) ==> p.SendCount(i) < p.SendCount(j)
    decreases j
  {
    if i < j { CountsMonotone(p, i, j - 1); }
  }

  /** A slice receives exactly what the previous rank sent `slicePerChunk` slices earlier. */
  lemma RecvMirrorsSend(p: Shape, i: nat)
    requires p.Sized()
    ensures p.Recvs(i + p.slicePerChunk) == p.Sends(i)
    ensures i < p.slicePerChunk ==> !p.Recvs(i)
  {
  }

  /** A slice that receives is about what the slice a chunk earlier was about, one primitive on. */
  lemma ChunkEarlier(p: Shape, i: nat)
    requires p.Sized() && p.Recvs(i)
    ensures p.slicePerChunk <= i && p.At(i) == p.At(i - p.slicePerChunk).(op := p.At(i - p.slicePerChunk).op + 1)
  {
  }

  lemma {:induction false} RecvCountShifted(p: Shape, i: nat)
    requires p.Sized()
    ensures p.RecvCount(i + p.slicePerChunk) == p.SendCount(i)
    decreases i
  {
    if i == 0 {
      NoEarlyRecv(p, p.slicePerChunk);
    } else {
      RecvCountShifted(p, i - 1);
      RecvMirrorsSend(p, i - 1);
    }
  }

  lemma {:induction false} NoEarlyRecv(p: Shape, i: nat)
    requires p.Sized() && i <= p.slicePerChunk
    ensures p.RecvCount(i) == 0
  {
    if 0 < i {
      NoEarlyRecv(p, i - 1);
      RecvMirrorsSend(p, i - 1);
    }
  }

  lemma SentSoFar(p: Shape, i: nat)
    requires p.Sized() && i < p.slicePerChunk
    ensures p.RecvCount(i) == 0 && p.SendCount(i) <= i && !p.Recvs(i)
  {
    NoEarlyRecv(p, i);
    CountsMonotone(p, 0, i);
    RecvMirrorsSend(p, i);
  }

  /** Of a chunk of slices at least one sends if its first one does, and not all if that does not. */
  lemma SentInOneChunk(p: Shape, j: nat)
    requires p.Sized()
    ensures var n := p.SendCount(j + p.slicePerChunk) - p.SendCount(j);
      if p.Sends(j) then 1 <= n <= p.slicePerChunk else 0 <= n < p.slicePerChunk
  {
    CountsMonotone(p, j + 1, j + p.slicePerChunk);
    OneSlice(p, j);
  }

  lemma OneSlice(p: Shape, j: nat)
    requires p.Sized()
    ensures p.SendCount(j + 1) == p.SendCount(j) + if p.Sends(j) then 1 else 0
  {
  }

  /**
   A rank is never more than one chunk of sends ahead of its own receives, and ahead by one when it has to receive.
   */
  lemma SendLead(p: Shape, i: nat)
    requires p.Sized()
    ensures p.RecvCount(i) <= p.SendCount(i) <= p.RecvCount(i) + p.slicePerChunk
    ensures p.Recvs(i) ==> p.RecvCount(i) < p.SendCount(i)
    ensures !p.Recvs(i) ==> p.SendCount(i) < p.RecvCount(i) + p.slicePerChunk
  {
    if i < p.slicePerChunk {
      SentSoFar(p, i);
    } else {
      var j := i - p.slicePerChunk;
      RecvCountShifted(p, j);
      RecvMirrorsSend(p, j);
      SentInOneChunk(p, j);
      assert j + p.slicePerChunk == i;
    }
  }

  lemma {:induction false} IndexOfAt(p: Shape, i: nat)
    requires p.Sized()
    ensures p.Index(p.At(i)) == i
    ensures i < p.Total() <==> p.At(i).l < p.nLoops
  {
    var at, c := p.At(i), p.slicePerChunk;
    if i < c {
      assert p.Index(at) == i;
    } else {
      IndexOfAt(p, i - c);
      var before := p.At(i - c);
      MulDistributes(p.opsPerLoop, before.l, 1);
      MulDistributes(c, before.l * p.opsPerLoop + before.op, 1);
    }
    IndexBound(p, at);
  }

  lemma IndexBound(p: Shape, at: Locus)
    requires p.Sized() && at.op < p.opsPerLoop && at.slice < p.slicePerChunk
    ensures p.Index(at) < p.Total() <==> at.l < p.nLoops
  {
    var c, m, n := p.slicePerChunk, at.l * p.opsPerLoop + at.op, p.nLoops * p.opsPerLoop;
    if at.l < p.nLoops {
      MulLt(p.opsPerLoop, at.l, p.nLoops);
      MulLt(c, m, n);
    } else {
      MulLe(p.opsPerLoop, p.nLoops, at.l);
      MulLe(c, n, m);
    }
  }

  lemma {:induction false} AtOfIndex(p: Shape, at: Locus)
    requires p.Sized() && at.op < p.opsPerLoop && at.slice < p.slicePerChunk
    ensures p.At(p.Index(at)) == at
    decreases at.l, at.op
  {
    var c := p.slicePerChunk;
    if at.op != 0 {
      AtOfIndex(p, at.(op := at.op - 1));
      MulDistributes(c, at.l * p.opsPerLoop + at.op, 1);
    } else if at.l != 0 {
      AtOfIndex(p, Locus(at.l - 1, p.opsPerLoop - 1, at.slice));
      MulDistributes(p.opsPerLoop, at.l, 1);
      MulDistributes(c, at.l * p.opsPerLoop, 1);
    }
  }

  // ---- slices of a whole program ----

  lemma {:induction false} SentInChunk(p: Shape, at: Locus, s: nat)
    requires p.Sized() && at.op < p.opsPerLoop && at.slice == 0 && s <= p.slicePerChunk
    ensures p.SendCount(p.Index(at) + s) == p.SendCount(p.Index(at)) + if at.op + 1 < p.opsPerLoop then s else 0
    decreases s
  {
    if 0 < s {
      SentInChunk(p, at, s - 1);
      AtOfIndex(p, at.(slice := s - 1));
    }
  }

  lemma NextPrimitive(p: Shape, l: nat, op: nat)
    requires 0 < op
    ensures p.Index(Locus(l, op, 0)) == p.Index(Locus(l, op - 1, 0)) + p.slicePerChunk
  {
    MulDistributes(p.slicePerChunk, l * p.opsPerLoop + op, -1);
  }

  lemma NextLoop(p: Shape, l: nat)
    requires 0 < l && 0 < p.opsPerLoop
    ensures p.Index(Locus(l, 0, 0)) == p.Index(Locus(l - 1, p.opsPerLoop - 1, 0)) + p.slicePerChunk
  {
    MulDistributes(p.opsPerLoop, l, -1);
    MulDistributes(p.slicePerChunk, l * p.opsPerLoop, -1);
  }

  /** Every primitive but the last one of a loop sends a chunk of slices. */
  lemma {:induction false} SentUpTo(p: Shape, l: nat, op: nat)
    requires p.Sized() && op < p.opsPerLoop
    ensures p.SendCount(p.Index(Locus(l, op, 0))) == (l * (p.opsPerLoop - 1) + op) * p.slicePerChunk
    decreases l, op
  {
    var c, ops := p.slicePerChunk, p.opsPerLoop;
    if op != 0 {
      SentUpTo(p, l, op - 1);
      SentInChunk(p, Locus(l, op - 1, 0), c);
      NextPrimitive(p, l, op);
      MulDistributes(c, l * (ops - 1) + op, -1);
    } else if l != 0 {
      SentUpTo(p, l - 1, ops - 1);
      SentInChunk(p, Locus(l - 1, ops - 1, 0), c);
      NextLoop(p, l);
      MulDistributes(ops - 1, l, -1);
    }
  }

  /** What a rank's whole program sends and receives. */
  lemma ProgramCounts(p: Shape)
    requires p.Sized()
    ensures p.SendCount(p.Total()) == p.RecvCount(p.Total()) == p.nLoops * (p.opsPerLoop - 1) * p.slicePerChunk
  {
    SentUpTo(p, p.nLoops, 0);
    if p.nLoops != 0 {
      var last := Locus(p.nLoops - 1, p.opsPerLoop - 1, 0);
      SentInChunk(p, last, p.slicePerChunk);
      RecvCountShifted(p, p.Index(last));
      NextLoop(p, p.nLoops);
    }
  }

  // ---- step arithmetic ----

  /** Slices that fit in a FIFO. */
  function Capacity(p: Shape): nat
    requires p.stepPerSlice != 0
  {
    p.fifoSteps / p.stepPerSlice
  }

  lemma CapacityExact(p: Shape)
    requires p.Valid()
    ensures p.fifoSteps == p.stepPerSlice * Capacity(p)
    ensures 1 <= Capacity(p)
  {
  }

  lemma {:induction false} StepIsLinear<Msg, Mem>(g: Ring<Msg, Mem>, r: nat, k: nat)
    requires g.Valid() && r < g.shape.nRanks
    ensures g.Step(r, k) == g.base[r] + g.shape.stepPerSlice * k
  {
    if 0 < k {
      StepIsLinear(g, r, k - 1);
      MulDistributes(g.shape.stepPerSlice, k, 1);
    }
  }

  /** Comparing steps is comparing slices; a FIFO is `Capacity` slices long. */
  lemma StepOrder<Msg, Mem>(g: Ring<Msg, Mem>, r: nat, x: nat, y: nat)
    requires g.Valid() && r < g.shape.nRanks
    ensures g.Step(r, x) + g.shape.stepPerSlice <= g.Step(r, y) <==> x < y
    ensures g.Step(r, x) + g.shape.stepPerSlice <= g.Step(r, y) + g.shape.fifoSteps <==> x < y + Capacity(g.shape)
    ensures g.Step(r, x) <= g.Step(r, y) + g.shape.fifoSteps <==> x <= y + Capacity(g.shape)
  {
    var c, m := g.shape.stepPerSlice, Capacity(g.shape);
    CapacityExact(g.shape);
    StepIsLinear(g, r, x);
    StepIsLinear(g, r, y);
    MulDistributes(c, x, 1);
    MulDistributes(c, y, m);
    ScaledOrder(c, x + 1, y);
    ScaledOrder(c, x + 1, y + m);
    ScaledOrder(c, x, y + m);
  }

  lemma ScaledOrder(c: nat, x: int, y: int)
    requires 1 <= c
    ensures c * x <= c * y <==> x <= y
  {
    if x <= y { MulLe(c, x, y); } else { MulLt(c, y, x); }
  }

  lemma RoomyMeans(p: Shape)
    requires p.Valid() && p.Roomy()
    ensures p.slicePerChunk + (if 3 <= p.opsPerLoop then 1 else 0) <= Capacity(p)
  {
    CapacityExact(p);
    ScaledOrder(p.stepPerSlice, p.slicePerChunk + if 3 <= p.opsPerLoop then 1 else 0, Capacity(p));
  }

  lemma ReadyMeans<Msg, Mem>(g: Ring<Msg, Mem>, s: State<Msg, Mem>, r: nat)
    requires TypeOk(g, s) && r < g.shape.nRanks
    ensures RecvReady(g, s, r) <==> g.shape.RecvCount(s.ranks[r].pc) < s.ranks[r].tailSeen
    ensures SendReady(g, s, r) <==> g.shape.SendCount(s.ranks[r].pc) + 1 <= s.ranks[r].headSeen + Capacity(g.shape)
  {
    var p, k := g.shape, s.ranks[r];
    StepOrder(g, p.Prev(r), p.RecvCount(k.pc), k.tailSeen);
    StepOrder(g, r, p.SendCount(k.pc), k.headSeen);
  }

  /** Two slices less than a FIFO apart use different slots. */
  lemma SlotsDiffer<Msg, Mem>(g: Ring<Msg, Mem>, r: nat, k: nat, k': nat)
    requires g.Valid() && r < g.shape.nRanks
    requires k < k' < k + Capacity(g.shape)
    ensures g.Slot(r, k) != g.Slot(r, k')
  {
    var n, c := g.shape.fifoSteps, g.shape.stepPerSlice;
    CapacityExact(g.shape);
    var x, y := g.Step(r, k), g.Step(r, k');
    StepIsLinear(g, r, k);
    StepIsLinear(g, r, k');
    MulDistributes(c, k', k);
    MulLt(c, k' - k, Capacity(g.shape));
    MulLe(c, 1, k' - k);
    if x % n == y % n { ModApart(x, y, n); }
  }

  // ---- safety ----

  ghost predicate RankInv<Msg, Mem>(g: Ring<Msg, Mem>, s: State<Msg, Mem>, r: nat)
    requires TypeOk(g, s) && r < g.shape.nRanks
  {
    var p, k := g.shape, s.ranks[r];
    && k.pc <= p.Total()
    && k.tail <= p.SendCount(k.pc)
    && k.head <= p.RecvCount(k.pc)
    && k.tailSeen <= s.ranks[p.Prev(r)].tail
    && k.headSeen <= s.ranks[p.NextOf(r)].head
    // the sender never runs more than the FIFO's size ahead of the receiver
    && p.SendCount(k.pc) <= s.ranks[p.NextOf(r)].head + Capacity(p)
    && k.mem == g.MemAt(r, k.pc)
  }

  /** If slice `i` was a send that the receiver has not released yet, it is intact in its slot. */
  ghost predicate Intact<Msg, Mem>(g: Ring<Msg, Mem>, s: State<Msg, Mem>, r: nat, i: nat)
    requires TypeOk(g, s) && r < g.shape.nRanks
  {
    var k := g.shape.SendCount(i);
    g.shape.Sends(i) && s.ranks[g.shape.NextOf(r)].head <= k ==>
      s.fifos[r][g.Slot(r, k)] == Some(g.EffectAt(r, i).out)
  }

  ghost predicate FifoInv<Msg, Mem>(g: Ring<Msg, Mem>, s: State<Msg, Mem>, r: nat)
    requires TypeOk(g, s) && r < g.shape.nRanks
  {
    forall i: nat :: i < s.ranks[r].pc ==> Intact(g, s, r, i)
  }

  ghost predicate Inv<Msg, Mem>(g: Ring<Msg, Mem>, s: State<Msg, Mem>) {
    && TypeOk(g, s)
    && (forall r :: 0 <= r < g.shape.nRanks ==> RankInv(g, s, r))
    && (forall r :: 0 <= r < g.shape.nRanks ==> FifoInv(g, s, r))
  }

  /** A slice whose waits succeeded reads exactly what the lock-step reference would hand it. */
  lemma ReceivedIsExpected<Msg, Mem>(g: Ring<Msg, Mem>, s: State<Msg, Mem>, r: nat)
    requires Inv(g, s) && Enabled(g, s, Copy(r))
    ensures g.exec(r, s.ranks[r].pc, Received(g, s, r), s.ranks[r].mem) == g.EffectAt(r, s.ranks[r].pc)
  {
    var p, k := g.shape, s.ranks[r];
    var c := p.Prev(r);
    assert p.NextOf(c) == r;
    assert RankInv(g, s, r) && RankInv(g, s, c) && FifoInv(g, s, c);
    if p.Recvs(k.pc) {
      ReadyMeans(g, s, r);
      RecvMirrorsSend(p, k.pc);
      var i := k.pc - p.slicePerChunk;
      RecvMirrorsSend(p, i);
      RecvCountShifted(p, i);
      if s.ranks[c].pc <= i { CountsMonotone(p, s.ranks[c].pc, i); }
      assert Intact(g, s, c, i);
    }
  }

  lemma CopyKeepsFifo<Msg, Mem>(g: Ring<Msg, Mem>, s: State<Msg, Mem>, r: nat)
    requires Inv(g, s) && Enabled(g, s, Copy(r))
    ensures FifoInv(g, Apply(g, s, Copy(r)), r)
  {
    var p, k := g.shape, s.ranks[r];
    var s' := Apply(g, s, Copy(r));
    ReceivedIsExpected(g, s, r);
    ReadyMeans(g, s, r);
    assert RankInv(g, s, r) && RankInv(g, s, p.NextOf(r)) && FifoInv(g, s, r);
    assert s'.ranks[p.NextOf(r)].head == s.ranks[p.NextOf(r)].head;
    forall i: nat | i < s'.ranks[r].pc ensures Intact(g, s', r, i) {
      if i < k.pc {
        assert Intact(g, s, r, i);
        CountsMonotone(p, i, k.pc);
        if p.Sends(k.pc) && p.Sends(i) && s.ranks[p.NextOf(r)].head <= p.SendCount(i) {
          SlotsDiffer(g, r, p.SendCount(i), p.SendCount(k.pc));
        }
      }
    }
  }

  lemma CopyKeepsRank<Msg, Mem>(g: Ring<Msg, Mem>, s: State<Msg, Mem>, r: nat)
    requires Inv(g, s) && Enabled(g, s, Copy(r))
    ensures RankInv(g, Apply(g, s, Copy(r)), r)
  {
    assert RankInv(g, s, r);
    ReceivedIsExpected(g, s, r);
    ReadyMeans(g, s, r);
    CountsMonotone(g.shape, s.ranks[r].pc, s.ranks[r].pc + 1);
  }

  lemma StepKeepsRank<Msg, Mem>(g: Ring<Msg, Mem>, s: State<Msg, Mem>, a: Action, r: nat)
    requires Inv(g, s) && Enabled(g, s, a) && r < g.shape.nRanks
    ensures RankInv(g, Apply(g, s, a), r)
  {
    if a == Copy(r) {
      CopyKeepsRank(g, s, r);
    } else {
      assert RankInv(g, s, r);
    }
  }

  lemma StepKeepsInv<Msg, Mem>(g: Ring<Msg, Mem>, s: State<Msg, Mem>, a: Action)
    requires Inv(g, s) && Enabled(g, s, a)
    ensures Inv(g, Apply(g, s, a))
  {
    var s' := Apply(g, s, a);
    forall r | 0 <= r < g.shape.nRanks ensures RankInv(g, s', r) && FifoInv(g, s', r) {
      StepKeepsRank(g, s, a, r);
      if a == Copy(r) {
        CopyKeepsFifo(g, s, r);
      } else {
        assert FifoInv(g, s, r);
        forall i: nat | i < s'.ranks[r].pc ensures Intact(g, s', r, i) { assert Intact(g, s, r, i); }
      }
    }
  }

  lemma {:induction false} RunsKeepInv<Msg, Mem>(g: Ring<Msg, Mem>, run: seq<State<Msg, Mem>>, t: nat)
    requires IsRun(g, run) && t < |run|
    ensures Inv(g, run[t])
  {
    if t == 0 {
      forall r | 0 <= r < g.shape.nRanks ensures RankInv(g, run[0], r) && FifoInv(g, run[0], r) {
        assert run[0].ranks[g.shape.Prev(r)].tail == 0;
        assert run[0].ranks[g.shape.NextOf(r)].head == 0;
      }
    } else {
      RunsKeepInv(g, run, t - 1);
      assert Next(g, run[t - 1], run[t - 1 + 1]);
      var a: Action :| Enabled(g, run[t - 1], a) && run[t] == Apply(g, run[t - 1], a);
      StepKeepsInv(g, run[t - 1], a);
    }
  }

  /**
   Determinacy: in every interleaving, a rank that has done `pc` slices holds the memory
   that the lock-step reference gives it after `pc` slices.
   */
  lemma EveryRunRefinesLockStep<Msg, Mem>(g: Ring<Msg, Mem>, run: seq<State<Msg, Mem>>, t: nat, r: nat)
    requires IsRun(g, run) && t < |run| && r < g.shape.nRanks
    ensures TypeOk(g, run[t])
    ensures run[t].ranks[r].mem == g.MemAt(r, run[t].ranks[r].pc)
    ensures Final(g, run[t]) ==> run[t].ranks[r].mem == g.MemAt(r, g.shape.Total())
    ensures g.Step(r, g.shape.SendCount(run[t].ranks[r].pc))
         <= g.Step(r, run[t].ranks[g.shape.NextOf(r)].head) + g.shape.fifoSteps
  {
    RunsKeepInv(g, run, t);
    var p, s := g.shape, run[t];
    assert RankInv(g, s, r);
    StepOrder(g, r, p.SendCount(s.ranks[r].pc), s.ranks[p.NextOf(r)].head);
  }

  /** When all ranks are done, every connection has advanced by the steps of a whole program. */
  lemma StepsWhenDone<Msg, Mem>(g: Ring<Msg, Mem>, s: State<Msg, Mem>, r: nat)
    requires TypeOk(g, s) && Final(g, s) && r < g.shape.nRanks
    ensures var p := g.shape; var steps := p.stepPerSlice * (p.nLoops * (p.opsPerLoop - 1) * p.slicePerChunk);
      && g.Step(r, s.ranks[r].tail) == g.base[r] + steps
      && g.Step(r, s.ranks[p.NextOf(r)].head) == g.base[r] + steps
  {
    ProgramCounts(g.shape);
    StepIsLinear(g, r, s.ranks[r].tail);
    StepIsLinear(g, r, s.ranks[g.shape.NextOf(r)].head);
  }

  // ---- liveness ----

  ghost function {:induction false} Slowest<Mem>(ranks: seq<Rank<Mem>>): (m: nat)
    requires 0 < |ranks|
    ensures m < |ranks|
    ensures forall r :: 0 <= r < |ranks| ==> ranks[m].pc <= ranks[r].pc
  {
    if |ranks| == 1 then 0 else
    var m := Slowest(ranks[..|ranks| - 1]);
    if ranks[|ranks| - 1].pc < ranks[m].pc then |ranks| - 1 else m
  }

  /** The slowest rank, once all posts are out, can copy or has news to poll. */
  lemma SlowestCanMove<Msg, Mem>(g: Ring<Msg, Mem>, s: State<Msg, Mem>, m: nat) returns (a: Action)
    requires Inv(g, s) && g.shape.Roomy() && m < g.shape.nRanks
    requires forall r :: 0 <= r < g.shape.nRanks ==> s.ranks[m].pc <= s.ranks[r].pc
    requires forall r :: 0 <= r < g.shape.nRanks ==>
      !Enabled(g, s, PostSend(r)) && !Enabled(g, s, PostRecv(r))
    requires s.ranks[m].pc < g.shape.Total()
    ensures Enabled(g, s, a)
  {
    var p, k := g.shape, s.ranks[m];
    ReadyMeans(g, s, m);
    SendLead(p, k.pc);
    var c, n := p.Prev(m), p.NextOf(m);
    assert RankInv(g, s, m) && RankInv(g, s, c) && RankInv(g, s, n);
    assert !Enabled(g, s, PostSend(c)) && !Enabled(g, s, PostRecv(n));
    CountsMonotone(p, k.pc, s.ranks[c].pc);
    CountsMonotone(p, k.pc, s.ranks[n].pc);
    RoomyMeans(p);
    if p.Recvs(k.pc) && !RecvReady(g, s, m) {
      a := PollTail(m);
    } else if p.Sends(k.pc) && !SendReady(g, s, m) {
      a := PollHead(m);
    } else {
      a := Copy(m);
    }
  }

  ghost predicate CanProceed<Msg, Mem>(g: Ring<Msg, Mem>, s: State<Msg, Mem>) {
    TypeOk(g, s) && (Final(g, s) || exists a: Action :: Enabled(g, s, a))
  }

  /** No reachable state is stuck before the end, if the FIFO is large enough. */
  lemma NeverStuck<Msg, Mem>(g: Ring<Msg, Mem>, run: seq<State<Msg, Mem>>, t: nat)
    requires IsRun(g, run) && t < |run| && g.shape.Roomy()
    ensures CanProceed(g, run[t])
  {
    RunsKeepInv(g, run, t);
    var s := run[t];
    if !Final(g, s) {
      var a: Action;
      if r :| 0 <= r < g.shape.nRanks && Enabled(g, s, PostSend(r)) {
        a := PostSend(r);
      } else if r :| 0 <= r < g.shape.nRanks && Enabled(g, s, PostRecv(r)) {
        a := PostRecv(r);
      } else {
        var m := Slowest(s.ranks);
        if s.ranks[m].pc == g.shape.Total() {
          forall r | 0 <= r < g.shape.nRanks
            ensures s.ranks[r].pc == g.shape.Total()
            ensures s.ranks[r].tail == g.shape.SendCount(s.ranks[r].pc)
            ensures s.ranks[r].head == g.shape.RecvCount(s.ranks[r].pc)
          {
            assert RankInv(g, s, r);
            assert !Enabled(g, s, PostSend(r)) && !Enabled(g, s, PostRecv(r));
          }
          assert false;
        }
        assert RankInv(g, s, m);
        a := SlowestCanMove(g, s, m);
      }
      assert Enabled(g, s, a);
    }
  }

  ghost function Effort<Mem>(k: Rank<Mem>): nat { k.pc + k.tail + k.head + k.tailSeen + k.headSeen }

  ghost function Efforts<Mem>(ranks: seq<Rank<Mem>>): nat {
    if ranks == [] then 0 else Efforts(ranks[..|ranks| - 1]) + Effort(ranks[|ranks| - 1])
  }

  lemma {:induction false} EffortsGrow<Mem>(ranks: seq<Rank<Mem>>, r: nat, k: Rank<Mem>)
    requires r < |ranks| && Effort(ranks[r]) < Effort(k)
    ensures Efforts(ranks) < Efforts(ranks[r := k])
  {
    var n := |ranks| - 1;
    if r < n {
      EffortsGrow(ranks[..n], r, k);
      assert ranks[r := k][..n] == ranks[..n][r := k];
    } else {
      assert ranks[r := k][..n] == ranks[..n];
    }
  }

  lemma {:induction false} EffortsBounded<Mem>(ranks: seq<Rank<Mem>>, b: nat)
    requires forall r :: 0 <= r < |ranks| ==> Effort(ranks[r]) <= b
    ensures Efforts(ranks) <= |ranks| * b
  {
    if ranks != [] {
      EffortsBounded(ranks[..|ranks| - 1], b);
      MulDistributes(b, |ranks|, 1);
    }
  }

  lemma EffortAtMost<Msg, Mem>(g: Ring<Msg, Mem>, s: State<Msg, Mem>)
    requires Inv(g, s)
    ensures Efforts(s.ranks) <= g.shape.nRanks * (5 * g.shape.Total())
  {
    var p := g.shape;
    forall r | 0 <= r < p.nRanks ensures Effort(s.ranks[r]) <= 5 * p.Total() {
      assert RankInv(g, s, r) && RankInv(g, s, p.Prev(r)) && RankInv(g, s, p.NextOf(r));
      BelowTotal(g, s, r); BelowTotal(g, s, p.Prev(r)); BelowTotal(g, s, p.NextOf(r));
    }
    EffortsBounded(s.ranks, 5 * p.Total());
  }

  lemma BelowTotal<Msg, Mem>(g: Ring<Msg, Mem>, s: State<Msg, Mem>, r: nat)
    requires Inv(g, s) && r < g.shape.nRanks
    ensures s.ranks[r].tail <= g.shape.Total() && s.ranks[r].head <= g.shape.Total()
  {
    assert RankInv(g, s, r);
    CountsMonotone(g.shape, 0, s.ranks[r].pc);
    SendLead(g.shape, s.ranks[r].pc);
  }

  /** Every run is short: together with `NeverStuck`, every maximal run ends with all ranks done. */
  lemma {:induction false} RunsAreBounded<Msg, Mem>(g: Ring<Msg, Mem>, run: seq<State<Msg, Mem>>, t: nat)
    requires IsRun(g, run) && t < |run|
    ensures t <= Efforts(run[t].ranks) <= g.shape.nRanks * (5 * g.shape.Total())
  {
    RunsKeepInv(g, run, t);
    EffortAtMost(g, run[t]);
    if 0 < t {
      RunsAreBounded(g, run, t - 1);
      RunsKeepInv(g, run, t - 1);
      assert Next(g, run[t - 1], run[t - 1 + 1]);
      var s := run[t - 1];
      var a: Action :| Enabled(g, s, a) && run[t] == Apply(g, s, a);
      assert RankInv(g, s, a.r);
      EffortsGrow(s.ranks, a.r, run[t].ranks[a.r]);
    }
  }

  // ---- the FIFO size is exactly what liveness needs ----

  /** A rank that has published its first `k` slices and received nothing; `seen` is its last poll of the tail. */
  ghost predicate AtFront<Mem>(x: Rank<Mem>, k: nat, seen: nat) {
    x.pc == k && x.tail == k && x.head == 0 && x.tailSeen == seen && x.headSeen == 0
  }

  /** Ranks below `m` are at (`k`, `seen`), the others at (`k'`, `seen'`). */
  ghost predicate Front<Msg, Mem>(g: Ring<Msg, Mem>, s: State<Msg, Mem>, m: nat, k: nat, seen: nat, k': nat,
      seen': nat) {
    && TypeOk(g, s)
    && forall r :: 0 <= r < g.shape.nRanks ==>
      (r < m ==> AtFront(s.ranks[r], k, seen)) && (m <= r ==> AtFront(s.ranks[r], k', seen'))
  }

  lemma {:induction false} FirstChunk(p: Shape, k: nat)
    requires p.Sized() && k <= p.slicePerChunk
    ensures p.SendCount(k) == k && p.RecvCount(k) == 0
    ensures k < p.slicePerChunk ==> p.Sends(k) && !p.Recvs(k)
    ensures k == p.slicePerChunk && 3 <= p.opsPerLoop ==> p.Sends(k) && p.Recvs(k)
  {
    if 0 < k { FirstChunk(p, k - 1); }
    if k == p.slicePerChunk { assert p.OpOf(0) == 0; }
  }

  lemma FirstChunkIsShort(p: Shape)
    requires p.Sized() && 1 <= p.nLoops
    ensures p.slicePerChunk < p.Total()
  {
    MulLe(p.opsPerLoop, 1, p.nLoops);
    MulLe(p.slicePerChunk, 2, p.nLoops * p.opsPerLoop);
  }

  lemma Take<Msg, Mem>(g: Ring<Msg, Mem>, run: seq<State<Msg, Mem>>, a: Action) returns (run': seq<State<Msg, Mem>>)
    requires IsRun(g, run) && TypeOk(g, run[|run| - 1]) && Enabled(g, run[|run| - 1], a)
    ensures IsRun(g, run') && |run'| == |run| + 1 && run'[|run|] == Apply(g, run[|run| - 1], a)
  {
    run' := run + [Apply(g, run[|run| - 1], a)];
    forall t | 0 <= t < |run'| - 1 ensures Next(g, run'[t], run'[t + 1]) {
      if t < |run| - 1 { assert Next(g, run[t], run[t + 1]); }
    }
  }

  /** Ranks `m` and up publish slice `k`; nobody needs a receive for it. */
  lemma {:induction false} PublishSlice<Msg, Mem>(g: Ring<Msg, Mem>, run: seq<State<Msg, Mem>>, k: nat, m: nat)
    returns (run': seq<State<Msg, Mem>>)
    requires IsRun(g, run) && Front(g, run[|run| - 1], m, k + 1, 0, k, 0)
    requires m <= g.shape.nRanks
    requires k < g.shape.slicePerChunk && k < Capacity(g.shape) && k < g.shape.Total()
    ensures IsRun(g, run') && Front(g, run'[|run'| - 1], 0, k + 1, 0, k + 1, 0)
    decreases g.shape.nRanks - m
  {
    if m == g.shape.nRanks {
      run' := run;
    } else {
      FirstChunk(g.shape, k);
      FirstChunk(g.shape, k + 1);
      ReadyMeans(g, run[|run| - 1], m);
      var mid := Take(g, run, Copy(m));
      mid := Take(g, mid, PostSend(m));
      run' := PublishSlice(g, mid, k, m + 1);
    }
  }

  lemma {:induction false} PublishSlices<Msg, Mem>(g: Ring<Msg, Mem>, k: nat) returns (run: seq<State<Msg, Mem>>)
    requires g.Valid() && k <= g.shape.slicePerChunk && k <= Capacity(g.shape) && k <= g.shape.Total()
    ensures IsRun(g, run) && Front(g, run[|run| - 1], 0, k, 0, k, 0)
  {
    if k == 0 {
      var p := g.shape;
      var empty: seq<Option<Msg>> := seq(p.fifoSteps, _ => None);
      run := [State(seq(p.nRanks, r requires 0 <= r < p.nRanks => Rank(0, 0, 0, 0, 0, g.start[r])),
          seq(p.nRanks, _ => empty))];
    } else {
      run := PublishSlices(g, k - 1);
      run := PublishSlice(g, run, k - 1, 0);
    }
  }

  /** Ranks `m` and up poll the tail of a full first chunk. */
  lemma {:induction false} PollAll<Msg, Mem>(g: Ring<Msg, Mem>, run: seq<State<Msg, Mem>>, m: nat)
    returns (run': seq<State<Msg, Mem>>)
    requires var c := g.shape.slicePerChunk; IsRun(g, run) && Front(g, run[|run| - 1], m, c, c, c, 0)
    requires m <= g.shape.nRanks
    requires 3 <= g.shape.opsPerLoop && g.shape.slicePerChunk < g.shape.Total()
    ensures var c := g.shape.slicePerChunk; IsRun(g, run') && Front(g, run'[|run'| - 1], 0, c, c, c, c)
    decreases g.shape.nRanks - m
  {
    if m == g.shape.nRanks {
      run' := run;
    } else {
      FirstChunk(g.shape, g.shape.slicePerChunk);
      ReadyMeans(g, run[|run| - 1], m);
      var mid := Take(g, run, PollTail(m));
      run' := PollAll(g, mid, m + 1);
    }
  }

  /** With a smaller FIFO some interleaving gets stuck: all ranks fill their FIFO and wait for each other. */
  lemma TooSmallFifoDeadlocks<Msg, Mem>(g: Ring<Msg, Mem>) returns (run: seq<State<Msg, Mem>>)
    requires g.Valid() && 1 <= g.shape.nLoops && !g.shape.Roomy()
    ensures IsRun(g, run) && !CanProceed(g, run[|run| - 1])
  {
    var p := g.shape;
    var full := Min(Capacity(p), p.slicePerChunk);
    CapacityExact(p);
    ScaledOrder(p.stepPerSlice, p.slicePerChunk + if 3 <= p.opsPerLoop then 1 else 0, Capacity(p));
    FirstChunkIsShort(p);
    run := PublishSlices(g, full);
    if full == p.slicePerChunk { run := PollAll(g, run, 0); }
    FrontIsStuck(g, run[|run| - 1], full, if full == p.slicePerChunk then full else 0);
  }

  /** Nobody can move once all ranks have filled their FIFO, or the first chunk if that has the size of the FIFO. */
  lemma FrontIsStuck<Msg, Mem>(g: Ring<Msg, Mem>, s: State<Msg, Mem>, full: nat, seen: nat)
    requires Front(g, s, 0, full, seen, full, seen) && full < g.shape.Total() && full <= g.shape.slicePerChunk
    requires if full < g.shape.slicePerChunk then seen == 0 && full == Capacity(g.shape)
      else seen == full && 3 <= g.shape.opsPerLoop && full == Capacity(g.shape)
    ensures !CanProceed(g, s)
  {
    var p := g.shape;
    FirstChunk(p, full);
    forall a: Action ensures !Enabled(g, s, a) {
      if a.r < p.nRanks {
        assert AtFront(s.ranks[a.r], full, seen) && AtFront(s.ranks[p.Prev(a.r)], full, seen)
          && AtFront(s.ranks[p.NextOf(a.r)], full, seen);
        ReadyMeans(g, s, a.r);
      }
    }
    assert s.ranks[0].pc == full;
  }

  /** The exact liveness condition, for every ring program with something to do. */
  lemma LiveIffRoomy<Msg, Mem>(g: Ring<Msg, Mem>)
    requires g.Valid() && 1 <= g.shape.nLoops
    ensures g.shape.Roomy() <==> forall run :: IsRun(g, run) ==> CanProceed(g, run[|run| - 1])
  {
    if g.shape.Roomy() {
      forall run | IsRun(g, run) ensures CanProceed(g, run[|run| - 1]) {
        NeverStuck(g, run, |run| - 1);
      }
    } else {
      var run := TooSmallFifoDeadlocks(g);
    }
  }
}
