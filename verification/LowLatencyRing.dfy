/**
 LL on the connections of a ring. A short last loop leaves some chunks empty, and a reader passes
 their steps without waiting; but every loop sends a chunk that is not empty, so the reader is never
 two loops ahead, and no limit on it is needed. Collectives of any protocol follow each other on a
 connection and share its step counter.
 */
module LowLatencyRing {
  import opened Arith
  import opened LowLatency
  import RB = RingBlocks
  import RP = RingProgram

  /**
   What a step is used for: primitive `j` of a loop that sends `lines[j]` lines with LL or LL128, a slice with
   Simple, or nothing, because Simple starts at a multiple of its chunk steps.
   */
  datatype Use = Chunk(ll: bool, lines: seq<nat>, j: nat) | Simple | Rounded

  /** Simple rounds up to four steps. */
  const CHUNK_STEPS: nat := 4

  predicate SomeLines(lines: seq<nat>) { exists k :: 0 <= k < |lines| && 0 < lines[k] }

  /** All that goes through one connection; loops send at most `maxSends` chunks. */
  datatype Traffic<!V> = Traffic(maxSends: nat, stepLines: nat, uses: nat -> Use, data: (nat, nat) -> V) {
    ghost predicate Valid() { 1 <= maxSends < 0x2000_0000 && forall s: nat :: UseOk(s) }

    /** Loops are complete and send something; rounding is followed by a slice. */
    ghost predicate UseOk(s: nat) {
      match uses(s)
      case Simple => true
      case Rounded => exists t :: s < t < s + CHUNK_STEPS && uses(t) == Simple
      case Chunk(ll, lines, j) =>
        && j < |lines| <= maxSends && SomeLines(lines)
        && (ll ==> forall k :: 0 <= k < |lines| ==> lines[k] <= stepLines)
        && (0 < j ==> 0 < s && uses(s - 1) == Chunk(ll, lines, j - 1))
        && (j + 1 < |lines| ==> uses(s + 1) == Chunk(ll, lines, j + 1))
    }

    /** A reader of LL128 waits for lines of its own, one of Simple for every slice. */
    function Carried(s: nat): Carrier {
      match uses(s)
      case Simple => Other(true)
      case Rounded => Other(false)
      case Chunk(ll, lines, j) => if ll then LL else Other(j < |lines| && 0 < lines[j])
    }

    function NLines(s: nat): nat {
      match uses(s)
      case Simple => 0
      case Rounded => 0
      case Chunk(ll, lines, j) => if ll && j < |lines| then lines[j] else 0
    }

    ghost function Connection(): Config<V> {
      Config(STEPS, stepLines, CLEAN_PERIOD, FLAGS, 2 * maxSends + CHUNK_STEPS,
        (s: nat) => Carried(s), (s: nat) => NLines(s), data)
    }
  }

  lemma ConnectionIsValid<V>(t: Traffic<V>)
    requires t.Valid()
    ensures t.Connection().Valid()
  {
    forall s: nat ensures t.NLines(s) <= t.stepLines && (0 < t.NLines(s) ==> t.Carried(s) == LL) { assert t.UseOk(s); }
  }

  // ---- the reader stops within two loops ----

  ghost predicate Stop<V>(t: Traffic<V>, s: nat) { 0 < t.NLines(s) || t.Carried(s) == Other(true) }

  /** The loop that step `s` is in goes on to its `k`-th chunk. */
  lemma {:induction false} LoopGoesOn<V>(t: Traffic<V>, s: nat, k: nat)
    requires t.Valid() && t.uses(s).Chunk? && t.uses(s).j <= k < |t.uses(s).lines|
    ensures t.uses(s + k - t.uses(s).j) == t.uses(s).(j := k)
    decreases k
  {
    var x := t.uses(s);
    assert t.UseOk(s);
    if x.j < k {
      LoopGoesOn(t, s, k - 1);
      assert t.UseOk(s + k - 1 - x.j);
    }
  }

  lemma ChunkWithLinesStops<V>(t: Traffic<V>, s: nat)
    requires t.uses(s).Chunk? && t.uses(s).j < |t.uses(s).lines| && 0 < t.uses(s).lines[t.uses(s).j]
    ensures Stop(t, s)
  {
  }

  /** From where a loop starts, or anything else, a stop is at most a loop away. */
  lemma StartStops<V>(t: Traffic<V>, s: nat) returns (at: nat)
    requires t.Valid() && (t.uses(s).Chunk? ==> t.uses(s).j == 0)
    ensures s <= at < s + t.maxSends + CHUNK_STEPS && Stop(t, at)
  {
    assert t.UseOk(s);
    match t.uses(s)
    case Simple => at := s;
    case Rounded =>
      at :| s < at < s + CHUNK_STEPS && t.uses(at) == Simple;
    case Chunk(ll, lines, j) =>
      var k :| 0 <= k < |lines| && 0 < lines[k];
      LoopGoesOn(t, s, k);
      at := s + k;
      ChunkWithLinesStops(t, at);
  }

  /** After the last chunk of a loop nothing of that loop follows. */
  lemma LoopEnds<V>(t: Traffic<V>, s: nat)
    requires t.Valid() && t.uses(s).Chunk? && t.uses(s).j + 1 == |t.uses(s).lines|
    ensures t.uses(s + 1).Chunk? ==> t.uses(s + 1).j == 0
  {
    assert t.UseOk(s + 1);
  }

  lemma AnyStops<V>(t: Traffic<V>, s: nat) returns (at: nat)
    requires t.Valid()
    ensures s <= at < s + 2 * t.maxSends + CHUNK_STEPS && Stop(t, at)
  {
    assert t.UseOk(s);
    if t.uses(s).Chunk? && t.uses(s).j != 0 {
      var n := |t.uses(s).lines|;
      LoopGoesOn(t, s, n - 1);
      var last := s + n - 1 - t.uses(s).j;
      LoopEnds(t, last);
      at := StartStops(t, last + 1);
    } else {
      at := StartStops(t, s);
    }
  }

  lemma RingIsPaced<V>(t: Traffic<V>)
    requires t.Valid()
    ensures Paced(t.Connection())
  {
    var g := t.Connection();
    forall s: nat ensures HasStop(g, s) {
      var at := AnyStops(t, s);
      assert 0 < g.nLines(at) || g.Waits(at);
    }
  }

  /**
   LL on a ring: whatever the collectives, their protocols and sizes, over runs of any length and with flags
   wrapping around any number of times, a reader accepts only what was sent for its own step, if clean-ups
   come between steps of equal slot and flag.
   */
  lemma RingReadsRight<V>(t: Traffic<V>, zero: V, run: seq<State<V>>)
    requires t.Valid() && t.Connection().Valid() && t.Connection().Covered() && IsFreeRun(t.Connection(), zero, run)
    ensures var g := t.Connection(); TypeOk(g, run[|run| - 1]) && ReadsRight(g, run[|run| - 1])
  {
    RingIsPaced(t);
    FreeRunReadsRight(t.Connection(), zero, run);
  }

  /** They do with the library's constants if all steps that the mask selects are LL steps. */
  lemma CleanWindowsSuffice<V>(t: Traffic<V>)
    requires t.Valid() && forall s: nat :: CLEAN_PERIOD - STEPS <= s % CLEAN_PERIOD ==> t.uses(s).Chunk? && t.uses(s).ll
    ensures t.Connection().Valid() && t.Connection().Covered()
  {
    ConnectionIsValid(t);
    SourceConstants(t.Connection());
  }

  /**
   Small collectives of one LL chunk, all of one line but two that have two lines, 2^32 steps apart; whenever the mask
   selects steps, a large collective happens to run with Simple.
   */
  function MixedUse(s: nat): Use {
    if CLEAN_PERIOD - STEPS <= s % CLEAN_PERIOD then Simple else Chunk(true, [if s == 0 || s == FLAGS then 2 else 1], 0)
  }

  function Mixed(): Traffic<nat> { Traffic(1, 2, (s: nat) => MixedUse(s), (s: nat, l: nat) => s + 1) }

  /**
   Then nothing is ever cleaned: the second line of step 0 is still there 2^32 steps later, with the flag that the
   reader looks for. Period and lead are as they should be, and the reader is not even ahead.
   */
  lemma MixedTrafficIsFooled() returns (run: seq<State<nat>>)
    ensures var g := Mixed().Connection();
      && Mixed().Valid() && g.Valid() && g.period + g.lead < g.modulus && !g.Covered()
      && IsFreeRun(g, 0, run) && TypeOk(g, run[|run| - 1]) && !ReadsRight(g, run[|run| - 1])
  {
    var t, g := Mixed(), Mixed().Connection();
    forall s: nat ensures t.UseOk(s) {
      if t.uses(s).Chunk? { assert 0 < t.uses(s).lines[0]; }
    }
    ConnectionIsValid(t);
    forall c: nat ensures !g.Clean(c) {}
    assert g.Alike(0, FLAGS) && g.CanBe(FLAGS, FLAGS) && !g.Cleaned(0, FLAGS, FLAGS);
    forall c: nat | 0 < c < FLAGS ensures !Writes(g, c, 1) { assert !g.Clean(c); }
    run := StaleLineIsAccepted(g, 0, FLAGS, FLAGS, 1);
  }

  // ---- the loops of the ring collectives ----

  /** Lines of a chunk; each holds eight bytes of data. */
  function Lines(nelem: int, eltPerLine: nat): (n: nat)
    requires 0 < eltPerLine
    ensures 0 < nelem ==> 0 < n
  {
    DivUp(Max(nelem, 0), eltPerLine)
  }

  lemma LinesFit(nelem: int, chunkCount: nat, eltPerLine: nat, stepLines: nat)
    requires 0 < eltPerLine && nelem <= chunkCount <= eltPerLine * stepLines
    ensures Lines(nelem, eltPerLine) <= stepLines
  {
    MulNonneg(eltPerLine, stepLines);
    DivUpLe(Max(nelem, 0), eltPerLine, stepLines);
  }

  /** What a loop of AllReduce sends on the connection behind ring index `ix`. */
  function AllReduceLines(p: RP.Part, ix: nat, l: nat, eltPerLine: nat): (lines: seq<nat>)
    requires p.Valid() && ix < p.nRanks && 0 < eltPerLine
    ensures |lines| == 2 * p.nRanks - 2
  {
    seq(2 * p.nRanks - 2, j requires 0 <= j < 2 * p.nRanks - 2 => Lines(p.CallAt(ix, l, j).nelem, eltPerLine))
  }

  lemma LoopHasElements(p: RP.Part, l: nat)
    requires p.Valid() && l < p.NLoops()
    ensures 0 < p.Remaining(l) && 0 < p.ChunkNelem(l, 0)
  {
    MulNonneg(p.nRanks, p.chunkCount);
    var n := p.LoopCount();
    if p.channelCount <= l * n { DivUpLe(p.channelCount, n, l); }
  }

  /** Chunk 0 is in every loop of AllReduce and never empty, and all chunks fit a step's lines. */
  lemma AllReduceLoop(p: RP.Part, ix: nat, l: nat, eltPerLine: nat, stepLines: nat)
    requires p.Valid() && ix < p.nRanks && l < p.NLoops() && p.chunkCount % p.align == 0
    requires 0 < eltPerLine && p.chunkCount <= eltPerLine * stepLines
    ensures var lines := AllReduceLines(p, ix, l, eltPerLine);
      SomeLines(lines) && forall k :: 0 <= k < |lines| ==> lines[k] <= stepLines
  {
    var lines, j := AllReduceLines(p, ix, l, eltPerLine), if ix == 0 then p.nRanks - 1 else ix - 1;
    LoopHasElements(p, l);
    assert RP.ChunkOf(p.nRanks, ix, j) == 0 && 0 < lines[j];
    RP.TailChunkFits(p, l);
    forall k | 0 <= k < |lines| ensures lines[k] <= stepLines {
      LinesFit(p.CallAt(ix, l, k).nelem, p.chunkCount, eltPerLine, stepLines);
    }
  }

  /** What a loop of AllGather or ReduceScatter sends: the same chunk of all blocks but one. */
  function BlockLines(p: RB.Part, l: nat, eltPerLine: nat): (lines: seq<nat>)
    requires p.Valid() && 0 < eltPerLine
    ensures |lines| == p.nRanks - 1
  {
    seq(p.nRanks - 1, j => Lines(p.Nelem(l), eltPerLine))
  }

  lemma BlockLoop(p: RB.Part, l: nat, eltPerLine: nat, stepLines: nat)
    requires p.Valid() && l < p.NLoops() && 0 < eltPerLine && p.chunkCount <= eltPerLine * stepLines
    ensures var lines := BlockLines(p, l, eltPerLine);
      SomeLines(lines) && forall k :: 0 <= k < |lines| ==> lines[k] <= stepLines
  {
    if p.channelCount <= l * p.chunkCount { DivUpLe(p.channelCount, p.chunkCount, l); }
    LinesFit(p.Nelem(l), p.chunkCount, eltPerLine, stepLines);
    assert 0 < BlockLines(p, l, eltPerLine)[0];
  }
}
