/**
 Ranks on a chain that hand slices on through bounded credit FIFOs. Broadcast and Reduce cut the ring
 at the root: the first place only sends, the last one only receives, and every other place receives
 and sends in each primitive. The places wait, copy and post as on the ring of `RingPipeline`. In every
 interleaving the result is the same, and one slice of room in each FIFO is enough to get to the end.
 */
module ChainPipeline {
  import opened Arith
  import opened RingPipeline

  datatype Chain<!Msg, !Mem> = Chain(
    nPlaces: nat,
    total: nat,          // slices of each place
    stepPerSlice: nat,
    fifoSteps: nat,      // NCCL_STEPS
    base: seq<nat>,      // per connection (by sender): its step counter when the collective starts
    exec: (nat, nat, Option<Msg>, Mem) -> Effect<Msg, Mem>,
    start: seq<Mem>)
  {
    ghost predicate Valid() {
      && 1 <= nPlaces == |base| == |start|
      && 1 <= stepPerSlice && 1 <= fifoSteps && fifoSteps % stepPerSlice == 0
    }

    predicate Sends(r: nat) { r + 1 < nPlaces }

    predicate Recvs(r: nat) { 0 < r }

    /** The step counter of connection `r` once `k` slices went through it. */
    function Step(r: nat, k: nat): nat
      requires r < |base|
    {
      MulNonneg(stepPerSlice, k);
      base[r] + stepPerSlice * k
    }

    function Slot(r: nat, k: nat): (q: nat)
      requires r < |base| && fifoSteps != 0
      ensures q < fifoSteps
    {
      Step(r, k) % fifoSteps
    }

    function Room(): nat
      requires stepPerSlice != 0
    {
      fifoSteps / stepPerSlice
    }

    // The reference: the places in turn, message passing without any FIFO.

    ghost function MemAt(r: nat, i: nat): Mem
      requires Valid() && r < nPlaces
      decreases r, i, 0
    {
      if i == 0 then start[r] else EffectAt(r, i - 1).mem
    }

    ghost function Handed(r: nat, i: nat): Option<Msg>
      requires Valid() && r < nPlaces
      decreases r, i, 0
    {
      if Recvs(r) then Some(EffectAt(r - 1, i).out) else None
    }

    ghost function EffectAt(r: nat, i: nat): Effect<Msg, Mem>
      requires Valid() && r < nPlaces
      decreases r, i, 1
    {
      exec(r, i, Handed(r, i), MemAt(r, i))
    }
  }

  ghost predicate ChainOk<Msg, Mem>(g: Chain<Msg, Mem>, s: State<Msg, Mem>) {
    && g.Valid() && |s.ranks| == |s.fifos| == g.nPlaces
    && forall r :: 0 <= r < g.nPlaces ==> |s.fifos[r]| == g.fifoSteps
  }

  ghost predicate ChainInit<Msg, Mem>(g: Chain<Msg, Mem>, s: State<Msg, Mem>) {
    ChainOk(g, s) && forall r :: 0 <= r < g.nPlaces ==> s.ranks[r] == Rank(0, 0, 0, 0, 0, g.start[r])
  }

  /** The waits of waitPeer: the polled tail covers the slice, and the polled head leaves room for it. */
  ghost predicate HasData<Msg, Mem>(g: Chain<Msg, Mem>, s: State<Msg, Mem>, r: nat)
    requires ChainOk(g, s) && 0 < r < g.nPlaces
  {
    g.Step(r - 1, s.ranks[r].pc) + g.stepPerSlice <= g.Step(r - 1, s.ranks[r].tailSeen)
  }

  ghost predicate HasRoom<Msg, Mem>(g: Chain<Msg, Mem>, s: State<Msg, Mem>, r: nat)
    requires ChainOk(g, s) && r < g.nPlaces
  {
    g.Step(r, s.ranks[r].pc) + g.stepPerSlice <= g.Step(r, s.ranks[r].headSeen) + g.fifoSteps
  }

  ghost predicate Can<Msg, Mem>(g: Chain<Msg, Mem>, s: State<Msg, Mem>, a: Action)
    requires ChainOk(g, s)
  {
    && a.r < g.nPlaces
    && var k := s.ranks[a.r];
    match a
    case PollTail(r) => k.pc < g.total && g.Recvs(r) && !HasData(g, s, r) && k.tailSeen != s.ranks[r - 1].tail
    case PollHead(r) => k.pc < g.total && g.Sends(r) && !HasRoom(g, s, r) && k.headSeen != s.ranks[r + 1].head
    case Copy(r) => k.pc < g.total && (g.Recvs(r) ==> HasData(g, s, r)) && (g.Sends(r) ==> HasRoom(g, s, r))
    case PostSend(r) => g.Sends(r) && k.tail < k.pc
    case PostRecv(r) => g.Recvs(r) && k.head < k.pc
  }

  /** What place `r` reads for its next slice: the slot the step counter selects, whatever is in it. */
  ghost function Read<Msg, Mem>(g: Chain<Msg, Mem>, s: State<Msg, Mem>, r: nat): Option<Msg>
    requires ChainOk(g, s) && r < g.nPlaces
  {
    if g.Recvs(r) then s.fifos[r - 1][g.Slot(r - 1, s.ranks[r].pc)] else None
  }

  ghost function Do<Msg, Mem>(g: Chain<Msg, Mem>, s: State<Msg, Mem>, a: Action): (s': State<Msg, Mem>)
    requires ChainOk(g, s) && Can(g, s, a)
    ensures ChainOk(g, s')
  {
    var k := s.ranks[a.r];
    match a
    case PollTail(r) => s.(ranks := s.ranks[r := k.(tailSeen := s.ranks[r - 1].tail)])
    case PollHead(r) => s.(ranks := s.ranks[r := k.(headSeen := s.ranks[r + 1].head)])
    case Copy(r) =>
      var e := g.exec(r, k.pc, Read(g, s, r), k.mem);
      State(
        s.ranks[r := k.(pc := k.pc + 1, mem := e.mem)],
        if g.Sends(r) then s.fifos[r := s.fifos[r][g.Slot(r, k.pc) := Some(e.out)]] else s.fifos)
    case PostSend(r) => s.(ranks := s.ranks[r := k.(tail := k.tail + 1)])
    case PostRecv(r) => s.(ranks := s.ranks[r := k.(head := k.head + 1)])
  }

  ghost predicate ChainNext<Msg, Mem>(g: Chain<Msg, Mem>, s: State<Msg, Mem>, s': State<Msg, Mem>) {
    ChainOk(g, s) && exists a: Action :: Can(g, s, a) && s' == Do(g, s, a)
  }

  ghost predicate IsChainRun<Msg, Mem>(g: Chain<Msg, Mem>, run: seq<State<Msg, Mem>>) {
    && 0 < |run| && ChainInit(g, run[0])
    && forall t :: 0 <= t < |run| - 1 ==> ChainNext(g, run[t], run[t + 1])
  }

  /** Everything is copied and posted. */
  ghost predicate PlaceDone<Msg, Mem>(g: Chain<Msg, Mem>, s: State<Msg, Mem>, r: nat)
    requires ChainOk(g, s) && r < g.nPlaces
  {
    var k := s.ranks[r];
    k.pc == g.total && (g.Sends(r) ==> k.tail == g.total) && (g.Recvs(r) ==> k.head == g.total)
  }

  ghost predicate ChainDone<Msg, Mem>(g: Chain<Msg, Mem>, s: State<Msg, Mem>)
    requires ChainOk(g, s)
  {
    forall r :: 0 <= r < g.nPlaces ==> PlaceDone(g, s, r)
  }

  /** The reference, one slice further. */
  lemma ChainMemAfter<Msg, Mem>(g: Chain<Msg, Mem>, r: nat, i: nat)
    requires g.Valid() && r < g.nPlaces
    ensures g.EffectAt(r, i) == g.exec(r, i, g.Handed(r, i), g.MemAt(r, i)) && g.MemAt(r, i + 1) == g.EffectAt(r, i).mem
  {
  }

  // ---- step arithmetic ----

  lemma RoomExact<Msg, Mem>(g: Chain<Msg, Mem>)
    requires g.Valid()
    ensures g.fifoSteps == g.stepPerSlice * g.Room() && 1 <= g.Room()
  {
    DivMod(g.fifoSteps, g.stepPerSlice);
  }

  lemma StepsCompare<Msg, Mem>(g: Chain<Msg, Mem>, r: nat, x: nat, y: nat)
    requires g.Valid() && r < g.nPlaces
    ensures g.Step(r, x) + g.stepPerSlice <= g.Step(r, y) <==> x < y
    ensures g.Step(r, x) + g.stepPerSlice <= g.Step(r, y) + g.fifoSteps <==> x < y + g.Room()
  {
    RoomExact(g);
    MulDistributes(g.stepPerSlice, x, 1);
    MulDistributes(g.stepPerSlice, y, g.Room());
    ScaledOrder(g.stepPerSlice, x + 1, y);
    ScaledOrder(g.stepPerSlice, x + 1, y + g.Room());
  }

  lemma WaitsMean<Msg, Mem>(g: Chain<Msg, Mem>, s: State<Msg, Mem>, r: nat)
    requires ChainOk(g, s) && r < g.nPlaces
    ensures 0 < r ==> (HasData(g, s, r) <==> s.ranks[r].pc < s.ranks[r].tailSeen)
    ensures HasRoom(g, s, r) <==> s.ranks[r].pc < s.ranks[r].headSeen + g.Room()
  {
    if 0 < r { StepsCompare(g, r - 1, s.ranks[r].pc, s.ranks[r].tailSeen); }
    StepsCompare(g, r, s.ranks[r].pc, s.ranks[r].headSeen);
  }

  lemma SlotsApart<Msg, Mem>(g: Chain<Msg, Mem>, r: nat, k: nat, k': nat)
    requires g.Valid() && r < g.nPlaces && k < k' < k + g.Room()
    ensures g.Slot(r, k) != g.Slot(r, k')
  {
    RoomExact(g);
    MulDistributes(g.stepPerSlice, k', k);
    MulLt(g.stepPerSlice, k' - k, g.Room());
    MulLe(g.stepPerSlice, 1, k' - k);
    if g.Slot(r, k) == g.Slot(r, k') { ModApart(g.Step(r, k), g.Step(r, k'), g.fifoSteps); }
  }

  // ---- safety ----

  ghost predicate PlaceInv<Msg, Mem>(g: Chain<Msg, Mem>, s: State<Msg, Mem>, r: nat)
    requires ChainOk(g, s) && r < g.nPlaces
  {
    var k := s.ranks[r];
    && k.pc <= g.total && k.tail <= k.pc && k.head <= k.pc && k.mem == g.MemAt(r, k.pc)
    && (g.Recvs(r) ==> k.tailSeen <= s.ranks[r - 1].tail)
    && (g.Sends(r) ==> k.headSeen <= s.ranks[r + 1].head && k.pc <= s.ranks[r + 1].head + g.Room())
    && (!g.Recvs(r) ==> k.head == k.tailSeen == 0) && (!g.Sends(r) ==> k.tail == k.headSeen == 0)
  }

  /** A slice that its receiver has not released is intact. */
  ghost predicate Kept<Msg, Mem>(g: Chain<Msg, Mem>, s: State<Msg, Mem>, r: nat, i: nat)
    requires ChainOk(g, s) && r < g.nPlaces && g.Sends(r)
  {
    s.ranks[r + 1].head <= i ==> s.fifos[r][g.Slot(r, i)] == Some(g.EffectAt(r, i).out)
  }

  ghost predicate LinkInv<Msg, Mem>(g: Chain<Msg, Mem>, s: State<Msg, Mem>, r: nat)
    requires ChainOk(g, s) && r < g.nPlaces
  {
    g.Sends(r) ==> forall i: nat :: i < s.ranks[r].pc ==> Kept(g, s, r, i)
  }

  ghost predicate ChainInv<Msg, Mem>(g: Chain<Msg, Mem>, s: State<Msg, Mem>) {
    && ChainOk(g, s)
    && (forall r :: 0 <= r < g.nPlaces ==> PlaceInv(g, s, r))
    && (forall r :: 0 <= r < g.nPlaces ==> LinkInv(g, s, r))
  }

  /** A slice whose waits succeeded reads what the reference hands it. */
  lemma ReadIsHanded<Msg, Mem>(g: Chain<Msg, Mem>, s: State<Msg, Mem>, r: nat)
    requires ChainInv(g, s) && Can(g, s, Copy(r))
    ensures Read(g, s, r) == g.Handed(r, s.ranks[r].pc)
    ensures g.exec(r, s.ranks[r].pc, Read(g, s, r), s.ranks[r].mem) == g.EffectAt(r, s.ranks[r].pc)
  {
    assert PlaceInv(g, s, r);
    if g.Recvs(r) {
      WaitsMean(g, s, r);
      assert PlaceInv(g, s, r - 1) && LinkInv(g, s, r - 1);
      assert Kept(g, s, r - 1, s.ranks[r].pc);
    }
  }

  lemma CopyKeepsLink<Msg, Mem>(g: Chain<Msg, Mem>, s: State<Msg, Mem>, r: nat)
    requires ChainInv(g, s) && Can(g, s, Copy(r))
    ensures LinkInv(g, Do(g, s, Copy(r)), r)
  {
    var k, s' := s.ranks[r], Do(g, s, Copy(r));
    if g.Sends(r) {
      ReadIsHanded(g, s, r);
      WaitsMean(g, s, r);
      assert PlaceInv(g, s, r) && LinkInv(g, s, r);
      forall i: nat | i < s'.ranks[r].pc ensures Kept(g, s', r, i) {
        if i < k.pc {
          assert Kept(g, s, r, i);
          if s.ranks[r + 1].head <= i { SlotsApart(g, r, i, k.pc); }
        }
      }
    }
  }

  lemma CopyKeepsPlace<Msg, Mem>(g: Chain<Msg, Mem>, s: State<Msg, Mem>, r: nat)
    requires ChainInv(g, s) && Can(g, s, Copy(r))
    ensures PlaceInv(g, Do(g, s, Copy(r)), r)
  {
    assert PlaceInv(g, s, r);
    ReadIsHanded(g, s, r);
    WaitsMean(g, s, r);
  }

  lemma StepKeepsPlace<Msg, Mem>(g: Chain<Msg, Mem>, s: State<Msg, Mem>, a: Action, r: nat)
    requires ChainInv(g, s) && Can(g, s, a) && r < g.nPlaces
    ensures PlaceInv(g, Do(g, s, a), r)
  {
    if a == Copy(r) { CopyKeepsPlace(g, s, r); } else { assert PlaceInv(g, s, r); }
  }

  lemma StepKeepsLink<Msg, Mem>(g: Chain<Msg, Mem>, s: State<Msg, Mem>, a: Action, r: nat)
    requires ChainInv(g, s) && Can(g, s, a) && r < g.nPlaces
    ensures LinkInv(g, Do(g, s, a), r)
  {
    var s' := Do(g, s, a);
    if a == Copy(r) {
      CopyKeepsLink(g, s, r);
    } else if g.Sends(r) {
      assert LinkInv(g, s, r);
      forall i: nat | i < s'.ranks[r].pc ensures Kept(g, s', r, i) { assert Kept(g, s, r, i); }
    }
  }

  lemma {:induction false} ChainRunsKeepInv<Msg, Mem>(g: Chain<Msg, Mem>, run: seq<State<Msg, Mem>>, t: nat)
    requires IsChainRun(g, run) && t < |run|
    ensures ChainInv(g, run[t])
  {
    if t == 0 {
      forall r | 0 <= r < g.nPlaces ensures PlaceInv(g, run[0], r) && LinkInv(g, run[0], r) {}
    } else {
      ChainRunsKeepInv(g, run, t - 1);
      assert ChainNext(g, run[t - 1], run[t - 1 + 1]);
      var a: Action :| Can(g, run[t - 1], a) && run[t] == Do(g, run[t - 1], a);
      forall r | 0 <= r < g.nPlaces ensures PlaceInv(g, run[t], r) && LinkInv(g, run[t], r) {
        StepKeepsPlace(g, run[t - 1], a, r);
        StepKeepsLink(g, run[t - 1], a, r);
      }
    }
  }

  /** Determinacy: in every interleaving a place that has done `pc` slices holds what the reference gives it. */
  lemma EveryChainRunRefines<Msg, Mem>(g: Chain<Msg, Mem>, run: seq<State<Msg, Mem>>, t: nat, r: nat)
    requires IsChainRun(g, run) && t < |run| && r < g.nPlaces
    ensures ChainOk(g, run[t]) && run[t].ranks[r].mem == g.MemAt(r, run[t].ranks[r].pc)
    ensures ChainDone(g, run[t]) ==> run[t].ranks[r].mem == g.MemAt(r, g.total)
  {
    ChainRunsKeepInv(g, run, t);
    assert PlaceInv(g, run[t], r);
    assert ChainDone(g, run[t]) ==> PlaceDone(g, run[t], r);
  }

  /** When all places are done, both ends of every connection have advanced by all slices. */
  lemma ChainStepsWhenDone<Msg, Mem>(g: Chain<Msg, Mem>, s: State<Msg, Mem>, r: nat)
    requires ChainOk(g, s) && ChainDone(g, s) && r < g.nPlaces && g.Sends(r)
    ensures g.Step(r, s.ranks[r].tail) == g.Step(r, s.ranks[r + 1].head) == g.base[r] + g.stepPerSlice * g.total
  {
    assert PlaceDone(g, s, r) && PlaceDone(g, s, r + 1);
  }

  // ---- liveness ----

  /** The place that is furthest behind and, among those, first. Everyone before it is ahead of it. */
  ghost function {:induction false} FirstBehind<Mem>(ranks: seq<Rank<Mem>>): (m: nat)
    requires 0 < |ranks|
    ensures m < |ranks| && forall r :: 0 <= r < |ranks| ==> ranks[m].pc <= ranks[r].pc
    ensures forall r :: 0 <= r < m ==> ranks[m].pc < ranks[r].pc
  {
    if |ranks| == 1 then 0 else
    var m := FirstBehind(ranks[..|ranks| - 1]);
    if ranks[|ranks| - 1].pc < ranks[m].pc then |ranks| - 1 else m
  }

  /** Once all posts are out, the first place that is behind can copy or has news to poll. */
  lemma BehindCanMove<Msg, Mem>(g: Chain<Msg, Mem>, s: State<Msg, Mem>, m: nat) returns (a: Action)
    requires ChainInv(g, s) && m < g.nPlaces && s.ranks[m].pc < g.total
    requires forall r :: 0 <= r < g.nPlaces ==> s.ranks[m].pc <= s.ranks[r].pc
    requires forall r :: 0 <= r < m ==> s.ranks[m].pc < s.ranks[r].pc
    requires forall r :: 0 <= r < g.nPlaces ==> !Can(g, s, PostSend(r)) && !Can(g, s, PostRecv(r))
    ensures Can(g, s, a)
  {
    WaitsMean(g, s, m);
    RoomExact(g);
    assert PlaceInv(g, s, m);
    a := Copy(m);
    if g.Recvs(m) {
      assert PlaceInv(g, s, m - 1) && !Can(g, s, PostSend(m - 1));
      if !HasData(g, s, m) { a := PollTail(m); }
    }
    if a == Copy(m) && g.Sends(m) {
      assert PlaceInv(g, s, m + 1) && !Can(g, s, PostRecv(m + 1));
      if !HasRoom(g, s, m) { a := PollHead(m); }
    }
  }

  ghost predicate ChainCanProceed<Msg, Mem>(g: Chain<Msg, Mem>, s: State<Msg, Mem>) {
    ChainOk(g, s) && (ChainDone(g, s) || exists a: Action :: Can(g, s, a))
  }

  lemma AllPosted<Msg, Mem>(g: Chain<Msg, Mem>, s: State<Msg, Mem>, m: nat)
    requires ChainInv(g, s) && m < g.nPlaces && s.ranks[m].pc == g.total
    requires forall r :: 0 <= r < g.nPlaces ==> s.ranks[m].pc <= s.ranks[r].pc
    requires forall r :: 0 <= r < g.nPlaces ==> !Can(g, s, PostSend(r)) && !Can(g, s, PostRecv(r))
    ensures ChainDone(g, s)
  {
    forall r | 0 <= r < g.nPlaces ensures PlaceDone(g, s, r) {
      assert PlaceInv(g, s, r) && !Can(g, s, PostSend(r)) && !Can(g, s, PostRecv(r));
    }
  }

  /** No reachable state is stuck before the end, however small the FIFO: a chain has no cycle to wait in. */
  lemma ChainNeverStuck<Msg, Mem>(g: Chain<Msg, Mem>, run: seq<State<Msg, Mem>>, t: nat)
    requires IsChainRun(g, run) && t < |run|
    ensures ChainCanProceed(g, run[t])
  {
    ChainRunsKeepInv(g, run, t);
    var s, a: Action := run[t], Copy(0);
    if r :| 0 <= r < g.nPlaces && Can(g, s, PostSend(r)) {
      a := PostSend(r);
    } else if r :| 0 <= r < g.nPlaces && Can(g, s, PostRecv(r)) {
      a := PostRecv(r);
    } else {
      var m := FirstBehind(s.ranks);
      assert PlaceInv(g, s, m);
      if s.ranks[m].pc == g.total { AllPosted(g, s, m); } else { a := BehindCanMove(g, s, m); }
    }
    assert ChainDone(g, s) || Can(g, s, a);
  }

  lemma ChainEffort<Msg, Mem>(g: Chain<Msg, Mem>, s: State<Msg, Mem>)
    requires ChainInv(g, s)
    ensures Efforts(s.ranks) <= g.nPlaces * (5 * g.total)
  {
    forall r | 0 <= r < g.nPlaces ensures Effort(s.ranks[r]) <= 5 * g.total {
      assert PlaceInv(g, s, r);
      if g.Recvs(r) { assert PlaceInv(g, s, r - 1); }
      if g.Sends(r) { assert PlaceInv(g, s, r + 1); }
    }
    EffortsBounded(s.ranks, 5 * g.total);
  }

  /** Every run is short: together with `ChainNeverStuck`, every maximal run ends with all places done. */
  lemma {:induction false} ChainRunsAreBounded<Msg, Mem>(g: Chain<Msg, Mem>, run: seq<State<Msg, Mem>>, t: nat)
    requires IsChainRun(g, run) && t < |run|
    ensures t <= Efforts(run[t].ranks) <= g.nPlaces * (5 * g.total)
  {
    ChainRunsKeepInv(g, run, t);
    ChainEffort(g, run[t]);
    if 0 < t {
      ChainRunsAreBounded(g, run, t - 1);
      ChainRunsKeepInv(g, run, t - 1);
      assert ChainNext(g, run[t - 1], run[t - 1 + 1]);
      var s := run[t - 1];
      var a: Action :| Can(g, s, a) && run[t] == Do(g, s, a);
      assert PlaceInv(g, s, a.r);
      EffortsGrow(s.ranks, a.r, run[t].ranks[a.r]);
    }
  }
}
