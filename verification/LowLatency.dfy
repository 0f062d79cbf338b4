/**
 The LL protocol on one connection. Each line carries its data together with a flag derived from
 the step number; the reader spins until it sees the flag of the step it wants. Flags wrap around,
 and a step may use only some lines of its slot, so once in a while the sender cleans a slot by
 writing the current flag to all its lines. The other protocols count their steps on the same
 counter but have buffers of their own, and do not clean.
 */
module LowLatency {
  import opened Arith

  /** Who uses a step of the connection. The reader of another protocol may or may not have to wait for the sender. */
  datatype Carrier = LL | Other(waits: bool)

  /**
   `steps` is NCCL_STEPS, `modulus` the number of different flags, `period` how often the clean
   mask selects a run of `steps` steps. `nLines` and `data` say what each step transfers; a reader
   passes a step without lines without waiting, and `lead` bounds how far it gets ahead that way.
   */
  datatype Config<!V> = Config(
    steps: nat,
    stepLines: nat,
    period: nat,
    modulus: nat,
    lead: nat,
    carrier: nat -> Carrier,
    nLines: nat -> nat,
    data: (nat, nat) -> V)
  {
    ghost predicate Valid() {
      && 1 <= steps <= period && 1 <= lead && 1 <= modulus
      && period % steps == 0
      && (forall s :: nLines(s) <= stepLines)
      && forall s :: 0 < nLines(s) ==> carrier(s) == LL
    }

    function Flag(step: nat): nat
      requires modulus != 0
    {
      step % modulus
    }

    /** The mask selects the step. */
    predicate Selected(s: nat)
      requires period != 0
    {
      period - steps <= s % period
    }

    /** The sender cleans the slot in this step. */
    predicate Clean(s: nat)
      requires period != 0
    {
      carrier(s) == LL && Selected(s)
    }

    predicate Waits(s: nat) { carrier(s) == Other(true) }

    /** The reader can be at step `r` while the sender is at step `s`. */
    ghost predicate CanBe(s: nat, r: nat) { r <= s + lead && forall t :: s <= t < r ==> !Waits(t) }

    /** Steps `w` and `r` use one slot and one flag; -1 stands for the memory as it starts. */
    predicate Alike(w: int, r: nat)
      requires steps != 0 && modulus != 0
    {
      -1 <= w < r && Flag(w + 1) == Flag(r + 1) && carrier(r) == LL
      && (0 <= w ==> carrier(w) == LL && w % steps == r % steps)
    }

    /** After step `w` the slot of step `r` has been cleaned before the sender is at step `s`. */
    ghost predicate Cleaned(w: int, r: nat, s: nat)
      requires steps != 0 && period != 0
    {
      exists c: nat :: w < c < s && c % steps == r % steps && Clean(c)
    }

    /**
     Between two steps with the same slot and flag the slot is cleaned, and that before the reader can be at the second
     one.
     */
    ghost predicate Covered()
      requires steps != 0 && period != 0 && modulus != 0
    {
      forall w: int, r: nat, s: nat :: Alike(w, r) && s <= r && CanBe(s, r) ==> Cleaned(w, r, s)
    }
  }

  /** NCCL_LL_CLEAN_MASK selects the last eight of every 2^31 steps. */
  lemma MaskSelectsRuns(s: bv64)
    ensures s & 0x7fff_fff8 == 0x7fff_fff8 <==> 0x8000_0000 - 8 <= s % 0x8000_0000
  {
    assert s % 0x8000_0000 == s & 0x7fff_ffff;
  }

  /** A line's flag and value; `step` remembers who wrote it (-1: nobody, memory starts as zeros). */
  datatype Line<V> = Line(flag: nat, value: V, step: int)

  datatype State<V> = State(
    slots: seq<seq<Line<V>>>,
    sendStep: nat, writing: bool, written: set<nat>, headSeen: nat,
    recvStep: nat, read: set<nat>, head: nat)

  datatype Action = PollHead | BeginSend | Write(l: nat) | EndSend | Read(l: nat) | EndRecv | PostHead

  ghost predicate TypeOk<V>(g: Config<V>, s: State<V>) {
    g.Valid() && |s.slots| == g.steps && forall j :: 0 <= j < g.steps ==> |s.slots[j]| == g.stepLines
  }

  function SlotOf(steps: nat, s: nat): (j: nat)
    requires 0 < steps
    ensures j < steps
  {
    s % steps
  }

  /** Lines a step writes: its data lines, and all of them when it cleans. */
  ghost predicate Writes<V>(g: Config<V>, s: nat, l: nat)
    requires g.Valid()
  {
    l < g.nLines(s) || (g.Clean(s) && l < g.stepLines)
  }

  ghost predicate Enabled<V>(g: Config<V>, s: State<V>, a: Action)
    requires TypeOk(g, s)
  {
    match a
    case PollHead => !s.writing && s.headSeen + g.steps < s.sendStep + 1 && s.headSeen != s.head
    case BeginSend => !s.writing && s.sendStep + 1 <= s.headSeen + g.steps
    case Write(l) => s.writing && Writes(g, s.sendStep, l) && l !in s.written
    case EndSend => s.writing && forall l: nat :: Writes(g, s.sendStep, l) ==> l in s.written
    case Read(l) => Readable(g, s, l)
    case EndRecv => s.recvStep < s.sendStep + g.lead && MayPass(g, s)
    case PostHead => s.head < s.recvStep
  }

  /** The reader has all lines of its step, or sees that the sender of another protocol is done with it. */
  ghost predicate MayPass<V>(g: Config<V>, s: State<V>) {
    && (forall l: nat :: l < g.nLines(s.recvStep) ==> l in s.read)
    && (g.Waits(s.recvStep) ==> s.recvStep < s.sendStep)
  }

  /** The reader's spin loop on line `l` ends: the flag is the one of its step. */
  ghost predicate Readable<V>(g: Config<V>, s: State<V>, l: nat)
    requires TypeOk(g, s)
  {
    && l < g.nLines(s.recvStep) && l !in s.read
    && s.slots[SlotOf(g.steps, s.recvStep)][l].flag == g.Flag(s.recvStep + 1)
  }

  ghost function Apply<V>(g: Config<V>, s: State<V>, a: Action, zero: V): (s': State<V>)
    requires TypeOk(g, s) && Enabled(g, s, a)
    ensures TypeOk(g, s')
  {
    match a
    case PollHead => s.(headSeen := s.head)
    case BeginSend => s.(writing := true, written := {})
    case Write(l) =>
      var j := SlotOf(g.steps, s.sendStep);
      var value := if l < g.nLines(s.sendStep) then g.data(s.sendStep, l) else zero;
      s.(slots := s.slots[j := s.slots[j][l := Line(g.Flag(s.sendStep + 1), value, s.sendStep)]],
          written := s.written + {l})
    case EndSend => s.(writing := false, sendStep := s.sendStep + 1)
    case Read(l) => s.(read := s.read + {l})
    case EndRecv => s.(recvStep := s.recvStep + 1, read := {})
    case PostHead => s.(head := s.head + 1)
  }

  ghost predicate Init<V>(g: Config<V>, s: State<V>) {
    && TypeOk(g, s)
    && s.sendStep == 0 && !s.writing && s.headSeen == 0 && s.recvStep == 0 && s.read == {} && s.head == 0
    && forall j, l :: 0 <= j < g.steps && 0 <= l < g.stepLines ==> s.slots[j][l].flag == 0 && s.slots[j][l].step == -1
  }

  ghost predicate Next<V>(g: Config<V>, zero: V, s: State<V>, s': State<V>) {
    TypeOk(g, s) && exists a :: Enabled(g, s, a) && s' == Apply(g, s, a, zero)
  }

  ghost predicate IsRun<V>(g: Config<V>, zero: V, run: seq<State<V>>) {
    && 0 < |run| && Init(g, run[0])
    && forall t :: 0 <= t < |run| - 1 ==> Next(g, zero, run[t], run[t + 1])
  }

  // ---- invariant ----

  /**
   One line: its flag belongs to the step that wrote it, that step used this slot, and the last clean-up of the slot
   rewrote it.
   */
  ghost predicate LineInv<V>(g: Config<V>, s: State<V>, j: nat, l: nat)
    requires TypeOk(g, s) && j < g.steps && l < g.stepLines
  {
    var x := s.slots[j][l];
    && -1 <= x.step
    && x.flag == g.Flag(x.step + 1)
    && (0 <= x.step ==>
      && x.step % g.steps == j && g.carrier(x.step) == LL
      && x.step <= s.sendStep && (x.step == s.sendStep ==> s.writing && l in s.written)
      && (l < g.nLines(x.step) ==> x.value == g.data(x.step, l)))
    && (forall c: nat :: c < s.sendStep && c % g.steps == j && g.Clean(c) ==> c <= x.step)
  }

  /** Steps sent and not yet read are complete in their slots. */
  ghost predicate Ready<V>(g: Config<V>, s: State<V>, t: nat, l: nat)
    requires TypeOk(g, s) && l < g.nLines(t)
  {
    s.slots[SlotOf(g.steps, t)][l].step == t
  }

  ghost predicate Inv<V>(g: Config<V>, s: State<V>) {
    && TypeOk(g, s)
    && s.headSeen <= s.head <= s.recvStep && g.CanBe(s.sendStep, s.recvStep)
    && s.sendStep <= s.head + g.steps
    && (s.writing ==> s.sendStep + 1 <= s.head + g.steps)
    && (forall j, l :: 0 <= j < g.steps && 0 <= l < g.stepLines ==> LineInv(g, s, j, l))
    && (s.writing ==> forall l: nat :: l in s.written ==> Fresh(g, s, l))
    && (forall t: nat, l: nat :: s.recvStep <= t < s.sendStep && l < g.nLines(t) ==> Ready(g, s, t, l))
  }

  /** A line written in the current step still is that step's. */
  ghost predicate Fresh<V>(g: Config<V>, s: State<V>, l: nat)
    requires TypeOk(g, s)
  {
    l < g.stepLines && s.slots[SlotOf(g.steps, s.sendStep)][l].step == s.sendStep
  }

  // ---- stale flags ----

  /** The last step of slot `j` before step `s` that the mask selects is at most a period away. */
  lemma CleanedRecently<V>(g: Config<V>, s: nat, j: nat) returns (c: int)
    requires g.Valid() && j < g.steps
    ensures c < s <= c + g.period
    ensures c == -1 || (0 <= c && c % g.steps == j && g.Selected(c))
  {
    var p, n := g.period, g.steps;
    var q, x, y := s / p, s % p, p - n + j;
    DivMod(s, p);
    DivNonneg(s, p);
    if q == 0 && x <= y {
      c := -1;
      MulLe(p, q, 0);
    } else {
      var k := if y < x then q else q - 1;
      c := p * k + y;
      MulNonneg(p, k);
      MulDistributes(p, q, 1);
      DivModUnique(c, p, k, y);
      SameSlot(c, y, k, p, n);
      SlotOfLast(y, j, p, n);
    }
  }

  lemma SameSlot(r: int, x: int, q: int, p: nat, n: nat)
    requires 0 < n && p % n == 0 && r == p * q + x
    ensures r % n == x % n
  {
    DivMod(p, n);
    assert p * q == n * (p / n * q);
    ModAddMultiple(x, n, p / n * q);
  }

  lemma SlotOfLast(y: int, j: int, p: nat, n: nat)
    requires 0 < n && p % n == 0 && 0 <= j < n && y == p - n + j
    ensures y % n == j
  {
    DivMod(p, n);
    MulDistributes(n, p / n, 1);
    DivModUnique(y, n, p / n - 1, j);
  }

  /** If every selected step is an LL step, a clean-up is never older than a period. */
  lemma CleanStepsCover<V>(g: Config<V>)
    requires g.Valid() && g.period + g.lead < g.modulus && forall c: nat :: g.Selected(c) ==> g.carrier(c) == LL
    ensures g.Covered()
  {
    forall w: int, r: nat, s: nat | g.Alike(w, r) && s <= r && g.CanBe(s, r) ensures g.Cleaned(w, r, s) {
      if r - w < g.modulus { ModApart(w + 1, r + 1, g.modulus); }
      var c := CleanedRecently(g, s, r % g.steps);
      assert w < c && g.Clean(c);
    }
  }

  /** A line of the reader's slot whose flag matches was written in the reader's step. */
  lemma FlagMatchesOnlyItsStep<V>(g: Config<V>, s: State<V>, l: nat)
    requires Inv(g, s) && g.Covered() && l < g.stepLines && g.carrier(s.recvStep) == LL
    requires s.slots[SlotOf(g.steps, s.recvStep)][l].flag == g.Flag(s.recvStep + 1)
    ensures s.slots[SlotOf(g.steps, s.recvStep)][l].step == s.recvStep
  {
    var r, j := s.recvStep, SlotOf(g.steps, s.recvStep);
    var w := s.slots[j][l].step;
    assert LineInv(g, s, j, l);
    if r < w {
      ModApart(r, w, g.steps);
    } else if w < r {
      var at := Min(s.sendStep, r);
      assert g.Alike(w, r) && g.CanBe(at, r);
      NothingNewer(g, s, l, at);
    }
  }

  /** The last clean-up of the reader's slot is not newer than any of its lines. */
  lemma NothingNewer<V>(g: Config<V>, s: State<V>, l: nat, at: nat)
    requires Inv(g, s) && l < g.stepLines && at <= s.sendStep
    ensures !g.Cleaned(s.slots[SlotOf(g.steps, s.recvStep)][l].step, s.recvStep, at)
  {
    assert LineInv(g, s, SlotOf(g.steps, s.recvStep), l);
  }

  /** What the reader accepts is what was sent for that very step and line. */
  lemma AcceptedIsSent<V>(g: Config<V>, s: State<V>, l: nat)
    requires Inv(g, s) && g.Covered() && Readable(g, s, l)
    ensures s.slots[SlotOf(g.steps, s.recvStep)][l].value == g.data(s.recvStep, l)
    ensures s.recvStep <= s.sendStep
  {
    FlagMatchesOnlyItsStep(g, s, l);
    assert LineInv(g, s, SlotOf(g.steps, s.recvStep), l);
  }

  // ---- every step keeps the invariant ----

  lemma WriteKeepsInv<V>(g: Config<V>, s: State<V>, l: nat, zero: V)
    requires Inv(g, s) && Enabled(g, s, Write(l))
    ensures Inv(g, Apply(g, s, Write(l), zero))
  {
    var s', j0 := Apply(g, s, Write(l), zero), SlotOf(g.steps, s.sendStep);
    forall j, k | 0 <= j < g.steps && 0 <= k < g.stepLines ensures LineInv(g, s', j, k) { assert LineInv(g, s, j, k); }
    forall t: nat, k: nat | s'.recvStep <= t < s'.sendStep && k < g.nLines(t) ensures Ready(g, s', t, k) {
      assert Ready(g, s, t, k);
      if SlotOf(g.steps, t) == j0 { ModApart(t, s.sendStep, g.steps); }
    }
    forall k: nat | k in s'.written ensures Fresh(g, s', k) { if k != l { assert Fresh(g, s, k); } }
  }

  lemma EndSendKeepsInv<V>(g: Config<V>, s: State<V>, zero: V)
    requires Inv(g, s) && Enabled(g, s, EndSend)
    ensures Inv(g, Apply(g, s, EndSend, zero))
  {
    var s' := Apply(g, s, EndSend, zero);
    forall j, l | 0 <= j < g.steps && 0 <= l < g.stepLines ensures LineInv(g, s', j, l) {
      assert LineInv(g, s, j, l);
      forall c: nat | c < s'.sendStep && c % g.steps == j && g.Clean(c) ensures c <= s'.slots[j][l].step {
        if c == s.sendStep {
          assert Writes(g, c, l);
          assert Fresh(g, s, l);
        }
      }
    }
    forall t: nat, l: nat | s'.recvStep <= t < s'.sendStep && l < g.nLines(t) ensures Ready(g, s', t, l) {
      if t == s.sendStep {
        assert Writes(g, t, l);
        assert Fresh(g, s, l);
      } else {
        assert Ready(g, s, t, l);
      }
    }
  }

  lemma OtherKeepsInv<V>(g: Config<V>, s: State<V>, a: Action, zero: V)
    requires Inv(g, s) && Enabled(g, s, a) && !a.Write? && !a.EndSend?
    ensures Inv(g, Apply(g, s, a, zero))
  {
    var s' := Apply(g, s, a, zero);
    forall j, l | 0 <= j < g.steps && 0 <= l < g.stepLines ensures LineInv(g, s', j, l) { assert LineInv(g, s, j, l); }
    forall t: nat, l: nat | s'.recvStep <= t < s'.sendStep && l < g.nLines(t)
      ensures Ready(g, s', t, l)
    {
      assert Ready(g, s, t, l);
    }
    if s'.writing { forall l: nat | l in s'.written ensures Fresh(g, s', l) { assert Fresh(g, s, l); } }
  }

  lemma {:induction false} RunsKeepInv<V>(g: Config<V>, zero: V, run: seq<State<V>>, t: nat)
    requires IsRun(g, zero, run) && t < |run|
    ensures Inv(g, run[t])
  {
    if t == 0 {
      ModSmall(0, g.modulus);
      forall j, l | 0 <= j < g.steps && 0 <= l < g.stepLines ensures LineInv(g, run[0], j, l) {}
    } else {
      RunsKeepInv(g, zero, run, t - 1);
      var s := run[t - 1];
      assert Next(g, zero, s, run[t - 1 + 1]);
      var a :| Enabled(g, s, a) && run[t] == Apply(g, s, a, zero);
      if a.Write? { WriteKeepsInv(g, s, a.l, zero); }
      else if a.EndSend? { EndSendKeepsInv(g, s, zero); }
      else { OtherKeepsInv(g, s, a, zero); }
    }
  }

  /** A writer has a line left to write or is done with its step. */
  lemma WriterCanMove<V>(g: Config<V>, s: State<V>) returns (a: Action)
    requires TypeOk(g, s) && s.writing
    ensures Enabled(g, s, a)
  {
    if l: nat :| Writes(g, s.sendStep, l) && l !in s.written { a := Write(l); } else { a := EndSend; }
  }

  /** A reader behind the sender has a line ready to read or is done with its step. */
  lemma ReaderCanMove<V>(g: Config<V>, s: State<V>) returns (a: Action)
    requires Inv(g, s) && s.recvStep < s.sendStep
    ensures Enabled(g, s, a)
  {
    if l: nat :| l < g.nLines(s.recvStep) && l !in s.read {
      assert Ready(g, s, s.recvStep, l);
      assert LineInv(g, s, SlotOf(g.steps, s.recvStep), l);
      a := Read(l);
    } else {
      a := EndRecv;
    }
  }

  /** Neither side waits for ever: in every reachable state some step is possible. */
  lemma NeverStuck<V>(g: Config<V>, zero: V, run: seq<State<V>>, t: nat) returns (a: Action)
    requires IsRun(g, zero, run) && t < |run|
    ensures TypeOk(g, run[t]) && Enabled(g, run[t], a)
  {
    RunsKeepInv(g, zero, run, t);
    var s := run[t];
    if s.writing { a := WriterCanMove(g, s); }
    else if s.recvStep < s.sendStep { a := ReaderCanMove(g, s); }
    else if s.sendStep + 1 <= s.headSeen + g.steps { a := BeginSend; }
    else if s.headSeen != s.head { a := PollHead; }
    else { a := PostHead; }
  }

  // ---- the condition is exact ----

  ghost predicate ReadsRight<V>(g: Config<V>, s: State<V>)
    requires TypeOk(g, s)
  {
    forall l: nat :: Readable(g, s, l) ==> s.slots[SlotOf(g.steps, s.recvStep)][l].value == g.data(s.recvStep, l)
  }

  ghost predicate Safe<V(!new)>(g: Config<V>) {
    forall zero: V, run: seq<State<V>> :: IsRun(g, zero, run) ==>
      TypeOk(g, run[|run| - 1]) && ReadsRight(g, run[|run| - 1])
  }

  lemma Take<V>(g: Config<V>, zero: V, run: seq<State<V>>, a: Action) returns (run': seq<State<V>>)
    requires IsRun(g, zero, run) && TypeOk(g, run[|run| - 1]) && Enabled(g, run[|run| - 1], a)
    ensures IsRun(g, zero, run') && |run'| == |run| + 1 && run'[|run|] == Apply(g, run[|run| - 1], a, zero)
  {
    run' := run + [Apply(g, run[|run| - 1], a, zero)];
    forall t | 0 <= t < |run'| - 1 ensures Next(g, zero, run'[t], run'[t + 1]) {
      if t < |run| - 1 { assert Next(g, zero, run[t], run[t + 1]); }
    }
  }

  // ---- a run in lock step ----

  /** Slot and line of a line to follow, and the step that wrote it last. */
  datatype Mark = Mark(j: nat, l: nat, w: int)

  /** The value that the step left in the line. */
  function Left(g: Config<nat>, m: Mark): nat { if 0 <= m.w && m.l < g.nLines(m.w) then g.data(m.w, m.l) else 0 }

  ghost predicate MarkOk(g: Config<nat>, m: Mark, end: nat) {
    && g.Valid() && m.j < g.steps && m.l < g.stepLines && -1 <= m.w
    && (0 <= m.w ==> m.w % g.steps == m.j && Writes(g, m.w, m.l))
    && forall c: nat :: m.w < c < end && c % g.steps == m.j ==> !Writes(g, c, m.l)
  }

  /** The marked line, once its writer is done with step `t - 1`. */
  ghost predicate Holds(g: Config<nat>, s: State<nat>, m: Mark, t: nat)
    requires TypeOk(g, s) && m.j < g.steps && m.l < g.stepLines && -1 <= m.w
  {
    m.w < t ==> s.slots[m.j][m.l] == Line(g.Flag(m.w + 1), Left(g, m), m.w)
  }

  /** Both sides at step `t`, nobody in the middle of anything. */
  ghost predicate AtStep(g: Config<nat>, s: State<nat>, m: Mark, t: nat) {
    && TypeOk(g, s) && m.j < g.steps && m.l < g.stepLines && -1 <= m.w
    && s.sendStep == s.recvStep == s.head == t && s.headSeen <= t && !s.writing && s.read == {}
    && Holds(g, s, m, t)
  }

  /** The sender in step `t` with all its lines below `k` written. */
  ghost predicate Writing(g: Config<nat>, s: State<nat>, m: Mark, t: nat, k: nat) {
    && TypeOk(g, s) && m.j < g.steps && m.l < g.stepLines && -1 <= m.w
    && s.sendStep == s.recvStep == s.head == t && s.headSeen <= t && s.writing && s.read == {}
    && (forall l: nat :: l in s.written <==> l < k && Writes(g, t, l))
    && (forall l: nat :: l in s.written ==> l < g.stepLines && s.slots[SlotOf(g.steps, t)][l].flag == g.Flag(t + 1))
    && (if m.w == t then m.l < k ==> Holds(g, s, m, t + 1) else Holds(g, s, m, t))
  }

  lemma Begin(g: Config<nat>, run: seq<State<nat>>, m: Mark, t: nat) returns (run': seq<State<nat>>)
    requires IsRun(g, 0, run) && AtStep(g, run[|run| - 1], m, t)
    ensures IsRun(g, 0, run') && Writing(g, run'[|run'| - 1], m, t, 0)
  {
    run' := run;
    if run[|run| - 1].headSeen + g.steps < t + 1 { run' := Take(g, 0, run', PollHead); }
    run' := Take(g, 0, run', BeginSend);
  }

  lemma WriteOne(g: Config<nat>, s: State<nat>, m: Mark, t: nat, k: nat, end: nat)
    requires MarkOk(g, m, end) && t < end && Writing(g, s, m, t, k) && k < g.stepLines && Writes(g, t, k)
    ensures Enabled(g, s, Write(k)) && Writing(g, Apply(g, s, Write(k), 0), m, t, k + 1)
  {
    var s' := Apply(g, s, Write(k), 0);
    if m.j == SlotOf(g.steps, t) && m.l == k { assert t <= m.w; }
  }

  lemma SkipOne(g: Config<nat>, s: State<nat>, m: Mark, t: nat, k: nat, end: nat)
    requires MarkOk(g, m, end) && Writing(g, s, m, t, k) && !Writes(g, t, k)
    ensures Writing(g, s, m, t, k + 1)
  {
  }

  lemma {:induction false} WriteAll(g: Config<nat>, run: seq<State<nat>>, m: Mark, t: nat, k: nat, end: nat)
    returns (run': seq<State<nat>>)
    requires MarkOk(g, m, end) && t < end && k <= g.stepLines && IsRun(g, 0, run) && Writing(g, run[|run| - 1], m, t, k)
    ensures IsRun(g, 0, run') && Writing(g, run'[|run'| - 1], m, t, g.stepLines)
    decreases g.stepLines - k
  {
    run' := run;
    if k < g.stepLines {
      if Writes(g, t, k) {
        WriteOne(g, run[|run| - 1], m, t, k, end);
        run' := Take(g, 0, run, Write(k));
      } else {
        SkipOne(g, run[|run| - 1], m, t, k, end);
      }
      run' := WriteAll(g, run', m, t, k + 1, end);
    }
  }

  /** The reader in step `t` with all its lines below `k` read; the sender is done with the step. */
  ghost predicate Reading(g: Config<nat>, s: State<nat>, m: Mark, t: nat, k: nat) {
    && TypeOk(g, s) && m.j < g.steps && m.l < g.stepLines && -1 <= m.w
    && s.sendStep == t + 1 && s.recvStep == s.head == t && s.headSeen <= t && !s.writing
    && (forall l: nat :: l in s.read <==> l < k)
    && (forall l: nat :: l < g.nLines(t) ==> l < g.stepLines && s.slots[SlotOf(g.steps, t)][l].flag == g.Flag(t + 1))
    && Holds(g, s, m, t + 1)
  }

  lemma End(g: Config<nat>, run: seq<State<nat>>, m: Mark, t: nat) returns (run': seq<State<nat>>)
    requires IsRun(g, 0, run) && Writing(g, run[|run| - 1], m, t, g.stepLines)
    ensures IsRun(g, 0, run') && Reading(g, run'[|run'| - 1], m, t, 0)
  {
    var s := run[|run| - 1];
    forall l: nat | Writes(g, t, l) ensures l in s.written {}
    forall l: nat | l < g.nLines(t)
      ensures l < g.stepLines && s.slots[SlotOf(g.steps, t)][l].flag == g.Flag(t + 1)
    {
      assert Writes(g, t, l);
    }
    run' := Take(g, 0, run, EndSend);
  }

  lemma {:induction false} ReadAll(g: Config<nat>, run: seq<State<nat>>, m: Mark, t: nat, k: nat)
    returns (run': seq<State<nat>>)
    requires k <= g.nLines(t) && IsRun(g, 0, run) && Reading(g, run[|run| - 1], m, t, k)
    ensures IsRun(g, 0, run') && Reading(g, run'[|run'| - 1], m, t, g.nLines(t))
    decreases g.nLines(t) - k
  {
    run' := run;
    if k < g.nLines(t) {
      run' := Take(g, 0, run, Read(k));
      run' := ReadAll(g, run', m, t, k + 1);
    }
  }

  lemma Leave(g: Config<nat>, run: seq<State<nat>>, m: Mark, t: nat) returns (run': seq<State<nat>>)
    requires IsRun(g, 0, run) && Reading(g, run[|run| - 1], m, t, g.nLines(t))
    ensures IsRun(g, 0, run') && AtStep(g, run'[|run'| - 1], m, t + 1)
  {
    run' := Take(g, 0, run, EndRecv);
    run' := Take(g, 0, run', PostHead);
  }

  /** Sender and reader step by step up to step `t`. */
  lemma {:induction false} RunTo(g: Config<nat>, m: Mark, t: nat) returns (run: seq<State<nat>>)
    requires MarkOk(g, m, t)
    ensures IsRun(g, 0, run) && AtStep(g, run[|run| - 1], m, t)
  {
    if t == 0 {
      ModSmall(0, g.modulus);
      var slot := seq(g.stepLines, _ => Line(0, 0, -1));
      run := [State(seq(g.steps, _ => slot), 0, false, {}, 0, 0, {}, 0)];
    } else {
      run := RunTo(g, m, t - 1);
      run := Begin(g, run, m, t - 1);
      run := WriteAll(g, run, m, t - 1, 0, t);
      run := End(g, run, m, t - 1);
      run := ReadAll(g, run, m, t - 1, 0);
      run := Leave(g, run, m, t - 1);
    }
  }

  ghost predicate Ahead(g: Config<nat>, s: State<nat>, m: Mark, t: nat, r: nat) {
    && TypeOk(g, s) && m.j < g.steps && m.l < g.stepLines && -1 <= m.w
    && s.recvStep == r && s.sendStep == t && s.read == {} && Holds(g, s, m, t)
  }

  /** Then the reader runs ahead over steps it need not wait for, to step `r`. */
  lemma {:induction false} RunAhead(g: Config<nat>, m: Mark, t: nat, r: nat) returns (run: seq<State<nat>>)
    requires MarkOk(g, m, t) && t <= r && g.CanBe(t, r) && forall k: nat :: t <= k < r ==> g.nLines(k) == 0
    ensures IsRun(g, 0, run) && Ahead(g, run[|run| - 1], m, t, r)
    decreases r
  {
    if r == t {
      run := RunTo(g, m, t);
    } else {
      run := RunAhead(g, m, t, r - 1);
      run := Take(g, 0, run, EndRecv);
    }
  }

  /** A line that nobody has rewritten when a reader with the same flag can be there is accepted, and is wrong. */
  lemma StaleLineIsAccepted(g: Config<nat>, w: int, r: nat, s: nat, l: nat) returns (run: seq<State<nat>>)
    requires g.Valid() && l < g.nLines(r) && g.Alike(w, r) && w < s <= r && g.CanBe(s, r)
    requires MarkOk(g, Mark(r % g.steps, l, w), s)
    requires (forall k: nat :: s <= k < r ==> g.nLines(k) == 0) && g.data(r, l) != Left(g, Mark(r % g.steps, l, w))
    ensures IsRun(g, 0, run) && TypeOk(g, run[|run| - 1]) && !ReadsRight(g, run[|run| - 1])
  {
    run := RunAhead(g, Mark(r % g.steps, l, w), s, r);
    assert Readable(g, run[|run| - 1], l);
  }

  // ---- the condition is exact ----

  /**
   Over runs of any length, with flags wrapping around any number of times, a reader gets the data of its own step.
   */
  lemma RunReadsRight<V>(g: Config<V>, zero: V, run: seq<State<V>>)
    requires IsRun(g, zero, run) && g.Covered()
    ensures TypeOk(g, run[|run| - 1]) && ReadsRight(g, run[|run| - 1])
  {
    var s := run[|run| - 1];
    RunsKeepInv(g, zero, run, |run| - 1);
    forall l: nat | Readable(g, s, l) ensures s.slots[SlotOf(g.steps, s.recvStep)][l].value == g.data(s.recvStep, l) {
      AcceptedIsSent(g, s, l);
    }
  }

  /** Traffic of one line in steps `w` and `r` and nothing else. */
  ghost function Sparse(g: Config<nat>, w: int, r: nat): Config<nat> {
    g.(stepLines := 1, nLines := (t: nat) => if t == w || t == r then 1 else 0, data := (t: nat, l: nat) => t + 1)
  }

  /** Without a clean-up in time, an explicit run makes a reader accept a line that was never sent to it. */
  lemma LateReaderIsFooled(g: Config<nat>, w: int, r: nat, s: nat) returns (run: seq<State<nat>>)
    requires g.Valid() && g.Alike(w, r) && s <= r && g.CanBe(s, r) && !g.Cleaned(w, r, s)
    ensures var g' := Sparse(g, w, r);
      g'.Valid() && IsRun(g', 0, run) && TypeOk(g', run[|run| - 1]) && !ReadsRight(g', run[|run| - 1])
  {
    var g', at, m := Sparse(g, w, r), Max(s, w + 1), Mark(r % g.steps, 0, w);
    SameSteps(g, g', w, r, s);
    assert g'.Valid() && g'.CanBe(at, r);
    forall c: nat | w < c < at && c % g.steps == m.j ensures !Writes(g', c, 0) { assert !g.Clean(c); }
    run := StaleLineIsAccepted(g', w, r, at, 0);
  }

  /** What the condition speaks of does not depend on sizes and data. */
  lemma SameSteps(g: Config<nat>, g': Config<nat>, w: int, r: nat, s: nat)
    requires g.steps != 0 && g.period != 0 && g.modulus != 0
    requires g' == g.(stepLines := g'.stepLines, nLines := g'.nLines, data := g'.data)
    ensures (g.Alike(w, r) <==> g'.Alike(w, r)) && (g.CanBe(s, r) <==> g'.CanBe(s, r))
    ensures (g.Cleaned(w, r, s) <==> g'.Cleaned(w, r, s))
  {
    assert forall t :: s <= t < r ==> (g.Waits(t) <==> g'.Waits(t));
    assert forall c: nat :: g.Clean(c) <==> g'.Clean(c);
  }

  /** Whatever the sizes of the LL steps and their data. */
  ghost predicate SafeForAll(g: Config<nat>) {
    forall stepLines: nat, nLines: nat -> nat, data: (nat, nat) -> nat ::
      var g' := g.(stepLines := stepLines, nLines := nLines, data := data); g'.Valid() ==> Safe(g')
  }

  /**
   The exact condition, for every mix of protocols on the connection: reads are right for all sizes and data if and only
   if two LL steps with the same slot and flag always have a clean-up of the slot between them, early enough.
   */
  lemma SafeIffCovered(g: Config<nat>)
    requires g.Valid()
    ensures g.Covered() <==> SafeForAll(g)
  {
    if g.Covered() {
      forall stepLines: nat, nLines: nat -> nat, data: (nat, nat) -> nat
        | g.(stepLines := stepLines, nLines := nLines, data := data).Valid()
        ensures Safe(g.(stepLines := stepLines, nLines := nLines, data := data))
      {
        CoveredIsSafe(g, g.(stepLines := stepLines, nLines := nLines, data := data));
      }
    } else {
      var w: int, r: nat, s: nat :| g.Alike(w, r) && s <= r && g.CanBe(s, r) && !g.Cleaned(w, r, s);
      var run := LateReaderIsFooled(g, w, r, s);
      var g' := Sparse(g, w, r);
      assert g' == g.(stepLines := g'.stepLines, nLines := g'.nLines, data := g'.data) && !Safe(g');
    }
  }

  lemma CoveredIsSafe(g: Config<nat>, g': Config<nat>)
    requires g.Valid() && g.Covered() && g'.Valid()
    requires g' == g.(stepLines := g'.stepLines, nLines := g'.nLines, data := g'.data)
    ensures Safe(g')
  {
    forall w: int, r: nat, s: nat | g'.Alike(w, r) && s <= r && g'.CanBe(s, r) ensures g'.Cleaned(w, r, s) {
      SameSteps(g, g', w, r, s);
    }
    forall zero: nat, run: seq<State<nat>> | IsRun(g', zero, run)
      ensures TypeOk(g', run[|run| - 1]) && ReadsRight(g', run[|run| - 1])
    {
      RunReadsRight(g', zero, run);
    }
  }

  /** On a connection that only LL uses, that is when clean-ups and lead together stay below one turn of the flags. */
  lemma SafeIffDistinguishes(g: Config<nat>)
    requires g.Valid() && g.period <= g.modulus && g.modulus % g.steps == 0 && forall s: nat :: g.carrier(s) == LL
    ensures g.period + g.lead < g.modulus <==> SafeForAll(g)
  {
    SafeIffCovered(g);
    if g.period + g.lead < g.modulus {
      CleanStepsCover(g);
    } else {
      NotCleanedInTime(g);
    }
  }

  lemma NotCleanedInTime<V>(g: Config<V>)
    requires g.Valid() && g.period <= g.modulus <= g.period + g.lead && g.modulus % g.steps == 0
    requires forall s: nat :: g.carrier(s) == LL
    ensures !g.Covered()
  {
    var w := g.period - g.steps;
    var r, s := w + g.modulus, w + g.period;
    ModAddMultiple(w + 1, g.modulus, 1);
    SameSlot(r, w, 1, g.modulus, g.steps);
    assert g.Alike(w, r) && g.CanBe(s, r);
    forall c: nat | w < c < s && c % g.steps == r % g.steps ensures !g.Clean(c) { CleansOnce(g, c); }
    assert !g.Cleaned(w, r, s);
  }

  /** Slot 0 is selected in step period - steps and not again for a period. */
  lemma CleansOnce<V>(g: Config<V>, k: nat)
    requires g.Valid() && k < 2 * g.period - g.steps
    ensures g.Selected(k) && k % g.steps == 0 <==> k == g.period - g.steps
    ensures (g.period - g.steps) % g.steps == 0
  {
    var p, n := g.period, g.steps;
    SlotOfLast(p - n, 0, p, n);
    if k < p { ModSmall(k, p); } else { DivModUnique(k, p, 1, k - p); }
    if g.Selected(k) && k % n == 0 { ModApart(k, p - n, n); }
  }

  // ---- the constants of the library ----

  const STEPS: nat := 8
  const CLEAN_PERIOD: nat := 0x8000_0000
  const FLAGS: nat := 0x1_0000_0000

  /**
   They are enough for a reader almost 2^31 steps ahead if all selected steps are LL steps; so are those of the test
   build.
   */
  lemma SourceConstants<V>(g: Config<V>)
    requires g.Valid() && forall c: nat :: g.Selected(c) ==> g.carrier(c) == LL
    requires || (g.steps == STEPS && g.period == CLEAN_PERIOD && g.modulus == FLAGS && g.lead < CLEAN_PERIOD)
             || (g.steps == STEPS && g.period == 0x80 && g.modulus == 0x100 && g.lead < 0x80)
    ensures g.Covered()
  {
    CleanStepsCover(g);
  }

  // ---- a reader that nothing holds back ----

  /** Among any `lead` steps in a row the reader waits in some step. */
  ghost predicate Paced<V>(g: Config<V>) { forall s: nat :: HasStop(g, s) }

  ghost predicate HasStop<V>(g: Config<V>, s: nat) {
    exists t :: s <= t < s + g.lead && (0 < g.nLines(t) || g.Waits(t))
  }

  /** A step of the source, where only lines or another protocol's data hold the reader back. */
  ghost predicate FreeNext<V>(g: Config<V>, zero: V, s: State<V>, s': State<V>) {
    TypeOk(g, s) && (Next(g, zero, s, s') || (MayPass(g, s) && s' == s.(recvStep := s.recvStep + 1, read := {})))
  }

  ghost predicate IsFreeRun<V>(g: Config<V>, zero: V, run: seq<State<V>>) {
    && 0 < |run| && Init(g, run[0])
    && forall t :: 0 <= t < |run| - 1 ==> FreeNext(g, zero, run[t], run[t + 1])
  }

  /** A reader that has read anything of its step is not ahead; steps that it is ahead by have no lines. */
  ghost predicate OnlyEmptyAhead<V>(g: Config<V>, s: State<V>) {
    (s.read != {} ==> s.recvStep <= s.sendStep) && forall t :: s.sendStep < t < s.recvStep ==> g.nLines(t) == 0
  }

  lemma FreeStepIsStep<V>(g: Config<V>, zero: V, s: State<V>, s': State<V>)
    requires Inv(g, s) && g.Covered() && Paced(g) && OnlyEmptyAhead(g, s) && FreeNext(g, zero, s, s')
    ensures Next(g, zero, s, s') && OnlyEmptyAhead(g, s')
  {
    if MayPass(g, s) && s' == s.(recvStep := s.recvStep + 1, read := {}) {
      LeadIsBounded(g, s);
      assert Enabled(g, s, EndRecv) && s' == Apply(g, s, EndRecv, zero);
    } else {
      var a :| Enabled(g, s, a) && s' == Apply(g, s, a, zero);
      if a.Read? { AcceptedIsSent(g, s, a.l); }
    }
  }

  lemma LeadIsBounded<V>(g: Config<V>, s: State<V>)
    requires Inv(g, s) && Paced(g) && OnlyEmptyAhead(g, s) && MayPass(g, s)
    ensures s.recvStep < s.sendStep + g.lead
    ensures s.sendStep < s.recvStep ==> g.nLines(s.recvStep) == 0
  {
    if s.sendStep < s.recvStep {
      assert 0 < g.nLines(s.recvStep) ==> 0 in s.read;
      assert HasStop(g, s.sendStep + 1);
      var t :| s.sendStep + 1 <= t < s.sendStep + 1 + g.lead && (0 < g.nLines(t) || g.Waits(t));
      assert s.recvStep < t;
    }
  }

  lemma {:induction false} FreeRunIsRun<V>(g: Config<V>, zero: V, run: seq<State<V>>, t: nat)
    requires IsFreeRun(g, zero, run) && t < |run| && g.Valid() && g.Covered() && Paced(g)
    ensures IsRun(g, zero, run[..t + 1]) && OnlyEmptyAhead(g, run[t])
  {
    if t != 0 {
      FreeRunIsRun(g, zero, run, t - 1);
      RunsKeepInv(g, zero, run[..t], t - 1);
      assert FreeNext(g, zero, run[t - 1], run[t - 1 + 1]);
      FreeStepIsStep(g, zero, run[t - 1], run[t]);
      var before, now := run[..t], run[..t + 1];
      forall k | 0 <= k < |now| - 1 ensures Next(g, zero, now[k], now[k + 1]) {
        if k < t - 1 { assert Next(g, zero, before[k], before[k + 1]); }
      }
    }
  }

  /** With traffic that never pauses longer, the reader needs no holding back: all that it accepts is right. */
  lemma FreeRunReadsRight<V>(g: Config<V>, zero: V, run: seq<State<V>>)
    requires IsFreeRun(g, zero, run) && g.Valid() && g.Covered() && Paced(g)
    ensures TypeOk(g, run[|run| - 1]) && ReadsRight(g, run[|run| - 1])
  {
    FreeRunIsRun(g, zero, run, |run| - 1);
    assert run[..|run|] == run;
    RunReadsRight(g, zero, run);
  }
}
