/**
 The copy loop that all threads of a block share. It runs up to four passes with different pack
 sizes; in each pass a warp takes every nWarps-th hunk, and the warps are rotated so that the
 next pass starts with the warp that got the least work. Together the passes must touch every
 byte exactly once.
 */
module ReduceCopy {
  import opened Arith

  const WARP_SIZE: nat := 32

  /** Template arguments of one pass. */
  datatype Pass = Pass(unroll: nat, pack: nat) {
    predicate Valid() { 0 < unroll && 0 < pack }

    /** Packs a warp takes per iteration. */
    function PacksPerHunk(): nat { unroll * WARP_SIZE }

    function BytePerHunk(): nat {
      MulNonneg(unroll * WARP_SIZE, pack);
      unroll * WARP_SIZE * pack
    }
  }

  /** Bytes done and bytes left, common to all threads. */
  datatype Cursor = Cursor(behind: nat, ahead: nat)

  /** Packs consumed by a pass: whole hunks only, unless the pass may do partial hunks. */
  function Packs(p: Pass, c: Cursor): (m: nat)
    requires p.Valid()
    ensures m * p.pack <= c.ahead
  {
    MulNonneg(p.unroll * WARP_SIZE, p.pack);
    DivMod(c.ahead, p.BytePerHunk());
    DivMod(c.ahead, p.pack);
    DivNonneg(c.ahead, p.BytePerHunk());
    DivNonneg(c.ahead, p.pack);
    var f := c.ahead / p.BytePerHunk();
    MulNonneg(f, p.PacksPerHunk());
    assert f * p.PacksPerHunk() * p.pack == p.BytePerHunk() * f;
    if p.unroll == 1 then c.ahead / p.pack else f * p.PacksPerHunk()
  }

  /** Hunks consumed, a partial one included. */
  function Hunks(p: Pass, c: Cursor): nat
    requires p.Valid()
  {
    DivUp(Packs(p, c), p.PacksPerHunk())
  }

  function Advance(p: Pass, c: Cursor): Cursor
    requires p.Valid()
  {
    Cursor(c.behind + Packs(p, c) * p.pack, c.ahead - Packs(p, c) * p.pack)
  }

  /** The pack that a thread handles in iteration `k`, unroll step `u`. */
  function PackOf(p: Pass, nWarps: nat, thread: nat, k: nat, u: nat): nat {
    MulNonneg(k, nWarps);
    MulNonneg(thread / WARP_SIZE + k * nWarps, p.unroll);
    ((thread / WARP_SIZE + k * nWarps) * p.unroll + u) * WARP_SIZE + thread % WARP_SIZE
  }

  /** Whether the thread takes part in iteration `k`. */
  predicate Active(p: Pass, c: Cursor, nWarps: nat, thread: nat, k: nat)
    requires p.Valid()
  {
    PackOf(p, nWarps, thread, k, 0) < Packs(p, c)
  }

  /** Thread renumbering after a pass: warps rotate by the number of hunks, lanes stay. */
  function Rotated(p: Pass, c: Cursor, nWarps: nat, thread: nat): (t: nat)
    requires p.Valid() && 0 < nWarps && thread < nWarps * WARP_SIZE
    ensures t < nWarps * WARP_SIZE
  {
    DivMod(thread / WARP_SIZE - Hunks(p, c), nWarps);
    (thread / WARP_SIZE - Hunks(p, c)) % nWarps * WARP_SIZE + thread % WARP_SIZE
  }

  // ---- one thread's loop ----

  lemma FullHunks(p: Pass, c: Cursor)
    requires p.Valid()
    ensures 0 < p.BytePerHunk()
    ensures var f := c.ahead / p.BytePerHunk(); var rest := c.ahead - f * p.BytePerHunk();
      && 0 <= f && 0 <= rest < p.BytePerHunk()
      && (p.unroll != 1 ==> (Hunks(p, c) == f && Packs(p, c) * p.pack == f * p.BytePerHunk()))
      && (p.unroll == 1 ==> (Hunks(p, c) == f + (if p.pack <= rest then 1 else 0)
                             && Packs(p, c) * p.pack == f * p.BytePerHunk() + (rest - rest % p.pack)))
  {
    MulNonneg(p.unroll * WARP_SIZE, p.pack);
    var h := p.BytePerHunk();
    DivMod(c.ahead, h);
    DivNonneg(c.ahead, h);
    var f := c.ahead / h;
    var rest := c.ahead - f * h;
    assert h * f == f * h;
    if p.unroll == 1 {
      PartialHunk(p.pack, c.ahead, f, rest);
    } else {
      WholeHunks(f, p.PacksPerHunk(), p.pack);
    }
  }

  lemma WholeHunks(f: nat, u: nat, pack: nat)
    requires 0 < u
    ensures DivUp(f * u, u) == f
    ensures f * u * pack == f * (u * pack)
  {
    DivUpUnique(f * u, u, f);
  }

  lemma PartialHunk(pack: nat, ahead: nat, f: nat, rest: nat)
    requires 0 < pack && rest < WARP_SIZE * pack && ahead == f * (WARP_SIZE * pack) + rest
    ensures ahead % pack == rest % pack
    ensures ahead / pack * pack == f * (WARP_SIZE * pack) + (rest - rest % pack)
    ensures ahead / pack >= 0
    ensures DivUp(ahead / pack, WARP_SIZE) == f + if pack <= rest then 1 else 0
  {
    var x := rest / pack;
    DivMod(rest, pack);
    DivNonneg(rest, pack);
    DivBelow(rest, pack, WARP_SIZE);
    assert f * (WARP_SIZE * pack) == pack * (WARP_SIZE * f);
    MulDistributes(pack, WARP_SIZE * f, x);
    DivModUnique(ahead, pack, WARP_SIZE * f + x, rest % pack);
    if pack <= rest {
      DivAtLeast(rest, pack, 1);
      DivUpUnique(WARP_SIZE * f + x, WARP_SIZE, f + 1);
    } else {
      ModSmall(rest, pack);
      DivUpUnique(WARP_SIZE * f, WARP_SIZE, f);
    }
  }

  /** Byte offset of a hunk for one lane. */
  function Offset(p: Pass, h: nat, lane: nat): nat {
    MulNonneg(h, p.BytePerHunk());
    MulNonneg(lane, p.pack);
    h * p.BytePerHunk() + lane * p.pack
  }

  /** Byte offsets are pack numbers times the pack size. */
  lemma OffsetIsPack(p: Pass, h: nat, u: nat, lane: nat)
    requires p.Valid()
    ensures Offset(p, h, lane) + u * (WARP_SIZE * p.pack) == ((h * p.unroll + u) * WARP_SIZE + lane) * p.pack
  {
    var a, b := h * p.unroll, p.pack;
    assert h * (p.unroll * WARP_SIZE * b) == a * WARP_SIZE * b;
    assert u * (WARP_SIZE * b) == u * WARP_SIZE * b;
    MulDistributes(b, a * WARP_SIZE + u * WARP_SIZE, lane);
    MulDistributes(b, a * WARP_SIZE, u * WARP_SIZE);
    MulDistributes(WARP_SIZE, a, u);
  }

  function HunkOf(nWarps: nat, thread: nat, k: nat): nat {
    MulNonneg(k, nWarps);
    thread / WARP_SIZE + k * nWarps
  }

  /** The guard of a pass over whole hunks. */
  lemma WholeGuard(p: Pass, c: Cursor, nWarps: nat, thread: nat, k: nat)
    requires p.Valid() && p.unroll != 1
    ensures HunkOf(nWarps, thread, k) < Hunks(p, c) <==> Active(p, c, nWarps, thread, k)
  {
    var h, lane, u := HunkOf(nWarps, thread, k), thread % WARP_SIZE, p.PacksPerHunk();
    MulNonneg(p.unroll * WARP_SIZE, p.pack);
    DivNonneg(c.ahead, p.BytePerHunk());
    var f := c.ahead / p.BytePerHunk();
    WholeHunks(f, u, p.pack);
    assert h * p.unroll * WARP_SIZE == h * u;
    if h < f { HunkBelow(p.unroll, h, f, lane); } else { MulLe(u, f, h); }
  }

  /** The guard of a pass that may end with a partial hunk. */
  lemma PartialGuard(p: Pass, c: Cursor, nWarps: nat, thread: nat, k: nat)
    requires p.Valid() && p.unroll == 1
    ensures p.pack <= c.ahead - Offset(p, HunkOf(nWarps, thread, k), thread % WARP_SIZE) <==>
      Active(p, c, nWarps, thread, k)
  {
    var h, lane := HunkOf(nWarps, thread, k), thread % WARP_SIZE;
    OffsetIsPack(p, h, 0, lane);
    PacksLeft(p.pack, c.ahead, (h * p.unroll + 0) * WARP_SIZE + lane);
  }

  /** The loop's two guards say the same thing: the thread's first pack of the hunk is consumed. */
  lemma GuardIsActive(p: Pass, c: Cursor, nWarps: nat, thread: nat, k: nat)
    requires p.Valid()
    ensures p.unroll != 1 ==> (HunkOf(nWarps, thread, k) < Hunks(p, c) <==> Active(p, c, nWarps, thread, k))
    ensures p.unroll == 1 ==>
      var first := Offset(p, HunkOf(nWarps, thread, k), thread % WARP_SIZE);
      p.pack <= c.ahead - first <==> Active(p, c, nWarps, thread, k)
  {
    if p.unroll == 1 { PartialGuard(p, c, nWarps, thread, k); } else { WholeGuard(p, c, nWarps, thread, k); }
  }

  lemma HunkBelow(unroll: nat, h: nat, f: nat, lane: nat)
    requires 0 < unroll && h < f && lane < WARP_SIZE
    ensures h * (unroll * WARP_SIZE) + lane < f * (unroll * WARP_SIZE)
  {
    MulLt(unroll * WARP_SIZE, h, f);
  }

  lemma PacksLeft(pack: nat, ahead: nat, m: nat)
    requires 0 < pack
    ensures pack <= ahead - m * pack <==> m < ahead / pack
  {
    MulDistributes(pack, m, 1);
    if pack <= ahead - m * pack { DivAtLeast(ahead, pack, m + 1); }
    if m < ahead / pack {
      DivMod(ahead, pack);
      MulLe(pack, m + 1, ahead / pack);
    }
  }

  /** Where the loop stops: at the first hunk of the warp that is not the thread's. */
  lemma StopsNear(p: Pass, c: Cursor, nWarps: nat, thread: nat, n: nat)
    requires p.Valid() && 0 < nWarps && thread < nWarps * WARP_SIZE
    requires (0 < n ==> Active(p, c, nWarps, thread, n - 1)) && !Active(p, c, nWarps, thread, n)
    ensures var left := Hunks(p, c) - thread / WARP_SIZE - n * nWarps;
      && (left <= 0 ==> -left < nWarps)
      && (0 < left ==> p.unroll == 1 && left == 1)
  {
    var w, hunks := thread / WARP_SIZE, Hunks(p, c);
    DivBelow(thread, WARP_SIZE, nWarps);
    if 0 < n {
      ActiveHunk(p, c, nWarps, thread, n - 1);
      MulDistributes(nWarps, n, 1);
    }
    InactiveHunk(p, c, nWarps, thread, n);
  }

  lemma ActiveHunk(p: Pass, c: Cursor, nWarps: nat, thread: nat, k: nat)
    requires p.Valid() && Active(p, c, nWarps, thread, k)
    ensures thread / WARP_SIZE + k * nWarps < Hunks(p, c)
  {
    GuardIsActive(p, c, nWarps, thread, k);
    MulNonneg(k, nWarps);
    var h := thread / WARP_SIZE + k * nWarps;
    if p.unroll == 1 {
      assert WARP_SIZE * h < Packs(p, c) <= WARP_SIZE * Hunks(p, c);
      MulLtInverse(WARP_SIZE, h, Hunks(p, c));
    }
  }

  lemma InactiveHunk(p: Pass, c: Cursor, nWarps: nat, thread: nat, k: nat)
    requires p.Valid() && !Active(p, c, nWarps, thread, k)
    ensures Hunks(p, c) <= thread / WARP_SIZE + k * nWarps + if p.unroll == 1 then 1 else 0
  {
    GuardIsActive(p, c, nWarps, thread, k);
    MulNonneg(k, nWarps);
    if p.unroll == 1 { DivUpLe(Packs(p, c), WARP_SIZE, thread / WARP_SIZE + k * nWarps + 1); }
  }

  /** The collective position, common to all threads, moves over all hunks at once. */
  method CountHunks(p: Pass, behind: nat, ahead: nat) returns (behind': nat, ahead': nat, nHunks: nat)
    requires p.Valid()
    ensures Cursor(behind', ahead') == Advance(p, Cursor(behind, ahead))
    ensures nHunks == Hunks(p, Cursor(behind, ahead))
  {
    FullHunks(p, Cursor(behind, ahead));
    var hunkBytes := p.BytePerHunk();
    nHunks := ahead / hunkBytes;
    MulNonneg(nHunks, hunkBytes);
    behind' := behind + nHunks * hunkBytes;
    ahead' := ahead - nHunks * hunkBytes;
    if p.unroll == 1 {
      DivMod(ahead', p.pack);
      if p.pack <= ahead' {
        nHunks := nHunks + 1;
        behind' := behind' + (ahead' - ahead' % p.pack);
        ahead' := ahead' % p.pack;
      } else {
        ModSmall(ahead', p.pack);
      }
    }
  }

  /**
   reduceCopyPacks as one thread runs it; `log[k][u]` is the byte position of the pack it moves in
   iteration `k`, unroll step `u`.
   */
  method ReduceCopyPacks(p: Pass, nThreads: nat, thread: nat, behind: nat, ahead: nat)
    returns (thread': nat, behind': nat, ahead': nat, log: seq<seq<nat>>)
    requires p.Valid() && 0 < nThreads && nThreads % WARP_SIZE == 0 && thread < nThreads
    ensures Cursor(behind', ahead') == Advance(p, Cursor(behind, ahead))
    ensures thread' == Rotated(p, Cursor(behind, ahead), nThreads / WARP_SIZE, thread)
    ensures forall k: nat :: k < |log| <==> Active(p, Cursor(behind, ahead), nThreads / WARP_SIZE, thread, k)
    ensures forall k :: 0 <= k < |log| ==> |log[k]| == p.unroll
    ensures forall k, u :: 0 <= k < |log| && 0 <= u < p.unroll ==>
      log[k][u] == behind + PackOf(p, nThreads / WARP_SIZE, thread, k, u) * p.pack
  {
    ghost var c := Cursor(behind, ahead);
    var nWarps: nat, warp: nat, lane: nat := nThreads / WARP_SIZE, thread / WARP_SIZE, thread % WARP_SIZE;
    var hunkBytes := p.BytePerHunk();
    var threadBytesBehind: int := behind + Offset(p, warp, lane);
    var threadBytesAhead: int := ahead - Offset(p, warp, lane);
    var nHunksAhead: int;
    behind', ahead', nHunksAhead := CountHunks(p, behind, ahead);
    nHunksAhead := nHunksAhead - warp;

    log := [];
    ghost var h: nat := warp;
    MulNonneg(0, nWarps);
    GuardIsActive(p, c, nWarps, thread, 0);
    while (if p.unroll == 1 then p.pack <= threadBytesAhead else 0 < nHunksAhead)
      invariant h == warp + |log| * nWarps
      invariant threadBytesBehind == behind + Offset(p, h, lane) && threadBytesAhead == ahead - Offset(p, h, lane)
      invariant nHunksAhead == Hunks(p, c) - h
      invariant (if p.unroll == 1 then p.pack <= threadBytesAhead else 0 < nHunksAhead) <==>
        Active(p, c, nWarps, thread, |log|)
      invariant forall k: nat :: k < |log| ==> Active(p, c, nWarps, thread, k)
      invariant forall k :: 0 <= k < |log| ==> |log[k]| == p.unroll
      invariant forall k, u :: 0 <= k < |log| && 0 <= u < p.unroll ==>
        log[k][u] == behind + PackOf(p, nWarps, thread, k, u) * p.pack
      decreases Hunks(p, c) - h + 1
    {
      var moved := MoveHunk(p, nWarps, thread, behind, threadBytesBehind, |log|);
      ActiveHunk(p, c, nWarps, thread, |log|);
      NextHunk(p, h, nWarps, lane);
      MulDistributes(nWarps, |log|, 1);
      log := log + [moved];
      h := h + nWarps;
      threadBytesBehind := threadBytesBehind + nWarps * hunkBytes;
      threadBytesAhead := threadBytesAhead - nWarps * hunkBytes;
      nHunksAhead := nHunksAhead - nWarps;
      GuardIsActive(p, c, nWarps, thread, |log|);
    }
    forall k: nat | |log| <= k
      ensures !Active(p, c, nWarps, thread, k)
    {
      LaterInactive(p, c, nWarps, thread, |log|, k);
    }
    StopsNear(p, c, nWarps, thread, |log|);
    if p.unroll == 1 && 0 < nHunksAhead { nHunksAhead := nHunksAhead - nWarps; }
    warp := -nHunksAhead;
    thread' := warp * WARP_SIZE + lane;
    RotationIs(thread / WARP_SIZE, Hunks(p, c), nWarps, |log|, warp);
  }

  lemma NextHunk(p: Pass, h: nat, nWarps: nat, lane: nat)
    ensures Offset(p, h + nWarps, lane) == Offset(p, h, lane) + nWarps * p.BytePerHunk()
  {
    MulDistributes(p.BytePerHunk(), h, nWarps);
  }

  lemma RotationIs(w: nat, hunks: nat, nWarps: nat, n: nat, w': int)
    requires 0 < nWarps && 0 <= w' < nWarps
    requires w' == w + n * nWarps - hunks || w' == w + n * nWarps - hunks + nWarps
    ensures (w - hunks) % nWarps == w'
  {
    var q: int := n;
    MulDistributes(nWarps, 0, q);
    MulDistributes(nWarps, -q, 1);
    if w' == w + n * nWarps - hunks {
      DivModUnique(w - hunks, nWarps, -q, w');
    } else {
      DivModUnique(w - hunks, nWarps, -q - 1, w');
    }
  }

  lemma LaterInactive(p: Pass, c: Cursor, nWarps: nat, thread: nat, n: nat, k: nat)
    requires p.Valid() && !Active(p, c, nWarps, thread, n) && n <= k
    ensures !Active(p, c, nWarps, thread, k)
  {
    MulNonneg(n, nWarps);
    MulLe(nWarps, n, k);
    var h, h' := thread / WARP_SIZE + n * nWarps, thread / WARP_SIZE + k * nWarps;
    MulLe(p.unroll, h, h');
  }

  /** One iteration: the packs of one hunk that belong to the thread's lane. */
  method MoveHunk(p: Pass, nWarps: nat, thread: nat, ghost behind: nat, position: nat, ghost k: nat)
    returns (moved: seq<nat>)
    requires p.Valid() && position == behind + Offset(p, HunkOf(nWarps, thread, k), thread % WARP_SIZE)
    ensures |moved| == p.unroll
    ensures forall u :: 0 <= u < p.unroll ==> moved[u] == behind + PackOf(p, nWarps, thread, k, u) * p.pack
  {
    MulNonneg(k, nWarps);
    ghost var h := thread / WARP_SIZE + k * nWarps;
    var src: int := position;
    moved := [];
    for u := 0 to p.unroll
      invariant src == position + u * (WARP_SIZE * p.pack)
      invariant |moved| == u
      invariant forall v :: 0 <= v < u ==> moved[v] == behind + PackOf(p, nWarps, thread, k, v) * p.pack
    {
      OffsetIsPack(p, h, u, thread % WARP_SIZE);
      MulNonneg(u, WARP_SIZE * p.pack);
      moved := moved + [src];
      MulDistributes(WARP_SIZE * p.pack, u, 1);
      src := src + WARP_SIZE * p.pack;
    }
  }

  // ---- all threads, one pass ----

  /** Thread `t` moves byte `b` in iteration `k`, unroll step `u` of the pass. */
  predicate Moves(p: Pass, c: Cursor, nWarps: nat, t: nat, k: nat, u: nat, b: nat)
    requires p.Valid()
  {
    && u < p.unroll && Active(p, c, nWarps, t, k)
    && var at := c.behind + PackOf(p, nWarps, t, k, u) * p.pack;
    at <= b < at + p.pack
  }

  datatype Owner = Owner(thread: nat, k: nat, u: nat)

  /** Who moves byte `b`, by division: pack, then lane, unroll step, hunk, warp and iteration. */
  function OwnerOf(p: Pass, c: Cursor, nWarps: nat, b: nat): (o: Owner)
    requires p.Valid() && 0 < nWarps && c.behind <= b
    ensures o.thread < nWarps * WARP_SIZE && o.u < p.unroll
  {
    DivNonneg(b - c.behind, p.pack);
    OwnerOfPack(p, nWarps, (b - c.behind) / p.pack)
  }

  function OwnerOfPack(p: Pass, nWarps: nat, m: nat): (o: Owner)
    requires p.Valid() && 0 < nWarps
    ensures o.thread < nWarps * WARP_SIZE && o.u < p.unroll
  {
    DivMod(m / WARP_SIZE, p.unroll);
    DivNonneg(m / WARP_SIZE, p.unroll);
    var h := m / WARP_SIZE / p.unroll;
    DivMod(h, nWarps);
    DivNonneg(h, nWarps);
    Owner(h % nWarps * WARP_SIZE + m % WARP_SIZE, h / nWarps, m / WARP_SIZE % p.unroll)
  }

  lemma PackOfOwner(p: Pass, nWarps: nat, m: nat)
    requires p.Valid() && 0 < nWarps
    ensures var o := OwnerOfPack(p, nWarps, m); PackOf(p, nWarps, o.thread, o.k, o.u) == m
  {
    var o, q := OwnerOfPack(p, nWarps, m), m / WARP_SIZE;
    DivMod(q, p.unroll);
    DivNonneg(q, p.unroll);
    var h := q / p.unroll;
    DivMod(h, nWarps);
    DivModUnique(o.thread, WARP_SIZE, h % nWarps, m % WARP_SIZE);
    assert o.k * nWarps == nWarps * (h / nWarps);
    assert h * p.unroll == p.unroll * h;
  }

  lemma OwnerMoves(p: Pass, c: Cursor, nWarps: nat, b: nat)
    requires p.Valid() && 0 < nWarps && c.behind <= b < Advance(p, c).behind
    ensures var o := OwnerOf(p, c, nWarps, b); Moves(p, c, nWarps, o.thread, o.k, o.u, b)
  {
    var x := b - c.behind;
    DivMod(x, p.pack);
    DivNonneg(x, p.pack);
    DivBelow(x, p.pack, Packs(p, c));
    PackOfOwner(p, nWarps, x / p.pack);
  }

  lemma OwnerUnique(p: Pass, c: Cursor, nWarps: nat, t: nat, k: nat, u: nat, b: nat)
    requires p.Valid() && 0 < nWarps && t < nWarps * WARP_SIZE && Moves(p, c, nWarps, t, k, u, b)
    ensures c.behind <= b < Advance(p, c).behind
    ensures OwnerOf(p, c, nWarps, b) == Owner(t, k, u)
  {
    var m := PackOf(p, nWarps, t, k, u);
    MulNonneg(m, p.pack);
    ActivePacks(p, c, nWarps, t, k, u);
    MulLt(p.pack, m, Packs(p, c));
    DivModUnique(b - c.behind, p.pack, m, b - c.behind - m * p.pack);
    UnpackOwner(p, nWarps, t, k, u);
  }

  /** Thread, iteration and unroll step from the number of a pack. */
  lemma UnpackOwner(p: Pass, nWarps: nat, t: nat, k: nat, u: nat)
    requires p.Valid() && 0 < nWarps && t < nWarps * WARP_SIZE && u < p.unroll
    ensures var m := PackOf(p, nWarps, t, k, u); var q := m / WARP_SIZE;
      && m % WARP_SIZE == t % WARP_SIZE && q % p.unroll == u
      && q / p.unroll % nWarps == t / WARP_SIZE && q / p.unroll / nWarps == k
  {
    var m, w, lane := PackOf(p, nWarps, t, k, u), t / WARP_SIZE, t % WARP_SIZE;
    DivBelow(t, WARP_SIZE, nWarps);
    MulNonneg(k, nWarps);
    var h := w + k * nWarps;
    MulNonneg(h, p.unroll);
    DivModUnique(m, WARP_SIZE, h * p.unroll + u, lane);
    DivModUnique(h * p.unroll + u, p.unroll, h, u);
    DivModUnique(h, nWarps, k, w);
  }

  /** An active thread moves all its packs of the hunk, and all of them are consumed by the pass. */
  lemma ActivePacks(p: Pass, c: Cursor, nWarps: nat, t: nat, k: nat, u: nat)
    requires p.Valid() && Active(p, c, nWarps, t, k) && u < p.unroll
    ensures PackOf(p, nWarps, t, k, u) < Packs(p, c)
  {
    if p.unroll != 1 {
      WholeGuard(p, c, nWarps, t, k);
      MulNonneg(p.unroll * WARP_SIZE, p.pack);
      DivNonneg(c.ahead, p.BytePerHunk());
      var f, h := c.ahead / p.BytePerHunk(), HunkOf(nWarps, t, k);
      WholeHunks(f, p.PacksPerHunk(), p.pack);
      MulLt(p.unroll, h, f);
      assert f * (p.unroll * WARP_SIZE) == f * p.unroll * WARP_SIZE;
    }
  }

  // ---- rotation is a permutation of the threads ----

  function Unrotated(p: Pass, c: Cursor, nWarps: nat, thread: nat): (t: nat)
    requires p.Valid() && 0 < nWarps && thread < nWarps * WARP_SIZE
    ensures t < nWarps * WARP_SIZE
  {
    DivMod(thread / WARP_SIZE + Hunks(p, c), nWarps);
    (thread / WARP_SIZE + Hunks(p, c)) % nWarps * WARP_SIZE + thread % WARP_SIZE
  }

  lemma RotationInverts(p: Pass, c: Cursor, nWarps: nat, t: nat)
    requires p.Valid() && 0 < nWarps && t < nWarps * WARP_SIZE
    ensures Unrotated(p, c, nWarps, Rotated(p, c, nWarps, t)) == t
    ensures Rotated(p, c, nWarps, Unrotated(p, c, nWarps, t)) == t
  {
    DivBelow(t, WARP_SIZE, nWarps);
    var w, lane, d: int := t / WARP_SIZE, t % WARP_SIZE, Hunks(p, c);
    ShiftBack(w, d, nWarps);
    ShiftBack(w, -d, nWarps);
    DivMod(w - d, nWarps);
    DivMod(w + d, nWarps);
    DivModUnique(Rotated(p, c, nWarps, t), WARP_SIZE, (w - d) % nWarps, lane);
    DivModUnique(Unrotated(p, c, nWarps, t), WARP_SIZE, (w + d) % nWarps, lane);
  }

  lemma ShiftBack(w: nat, d: int, n: nat)
    requires w < n
    ensures ((w - d) % n + d) % n == w
  {
    DivMod(w - d, n);
    var q := (w - d) / n;
    assert (w - d) % n + d == w + n * (-q);
    ModAddMultiple(w, n, -q);
    ModSmall(w, n);
  }

  // ---- all passes ----

  predicate ElementSize(b: nat) { b == 1 || b == 2 || b == 4 || b == 8 }

  /** The passes over single elements. */
  function NarrowPassList(unroll: nat, elementSize: nat): seq<Pass>
    requires ElementSize(elementSize)
  {
    [Pass(unroll * (16 / elementSize) / 2, elementSize), Pass(1, elementSize)]
  }

  /** The passes reduceCopy makes; wide packs only if every pointer is aligned to them. */
  function Passes(unroll: nat, elementSize: nat, aligned: bool): seq<Pass>
    requires ElementSize(elementSize)
  {
    (if aligned then [Pass(unroll, 16), Pass(1, 16)] else []) + NarrowPassList(unroll, elementSize)
  }

  /**
   Passes that can finish any whole number of elements: all fit the element size, and the last one takes single
   elements.
   */
  predicate Complete(passes: seq<Pass>, elementSize: nat) {
    && 0 < elementSize && passes != []
    && passes[|passes| - 1] == Pass(1, elementSize)
    && forall i :: 0 <= i < |passes| ==> passes[i].Valid() && passes[i].pack % elementSize == 0
  }

  lemma PassesComplete(unroll: nat, elementSize: nat, aligned: bool)
    requires 0 < unroll && ElementSize(elementSize)
    ensures Complete(Passes(unroll, elementSize, aligned), elementSize)
  {
  }

  /** What one thread logs in one pass. */
  ghost predicate LogOk(p: Pass, c: Cursor, nWarps: nat, thread: nat, log: seq<seq<nat>>)
    requires p.Valid()
  {
    && (forall k: nat :: k < |log| <==> Active(p, c, nWarps, thread, k))
    && (forall k :: 0 <= k < |log| ==> |log[k]| == p.unroll)
    && forall k, u :: 0 <= k < |log| && 0 <= u < p.unroll ==>
      log[k][u] == c.behind + PackOf(p, nWarps, thread, k, u) * p.pack
  }

  /** What one thread logs over all passes: it stops as soon as nothing is left. */
  ghost predicate Follows(passes: seq<Pass>, c: Cursor, nWarps: nat, thread: nat, logs: seq<seq<seq<nat>>>)
    requires 0 < nWarps && thread < nWarps * WARP_SIZE && forall i :: 0 <= i < |passes| ==> passes[i].Valid()
  {
    if passes == [] then logs == [] else
    var p := passes[0];
    && logs != [] && LogOk(p, c, nWarps, thread, logs[0])
    && if Advance(p, c).ahead == 0 then |logs| == 1
       else Follows(passes[1..], Advance(p, c), nWarps, Rotated(p, c, nWarps, thread), logs[1..])
  }

  /** reduceCopy as one thread runs it. */
  method ReduceCopyThread(unroll: nat, elementSize: nat, aligned: bool, nThreads: nat, thread0: nat, nElts: nat)
    returns (logs: seq<seq<seq<nat>>>)
    requires 0 < unroll && ElementSize(elementSize)
    requires 0 < nThreads && nThreads % WARP_SIZE == 0 && thread0 < nThreads
    ensures Complete(Passes(unroll, elementSize, aligned), elementSize)
    ensures Follows(Passes(unroll, elementSize, aligned), Cursor(0, nElts * elementSize), nThreads / WARP_SIZE, thread0,
        logs)
  {
    PassesComplete(unroll, elementSize, aligned);
    MulNonneg(nElts, elementSize);
    var thread, behind, ahead, log := thread0, 0, nElts * elementSize, [];
    ghost var n, passes := nThreads / WARP_SIZE, Passes(unroll, elementSize, aligned);
    ghost var c0 := Cursor(behind, ahead);
    logs := [];
    if aligned {
      thread, behind, ahead, log := ReduceCopyPacks(Pass(unroll, 16), nThreads, thread, behind, ahead);
      ghost var c1, t1, log0 := Cursor(behind, ahead), thread, log;
      logs := [log];
      if ahead == 0 { return; }
      thread, behind, ahead, log := ReduceCopyPacks(Pass(1, 16), nThreads, thread, behind, ahead);
      ghost var c2, t2, log1 := Cursor(behind, ahead), thread, log;
      logs := logs + [log];
      if ahead == 0 {
        assert Follows(passes[1..], c1, n, t1, [log1]);
        assert logs[1..] == [log1];
        return;
      }
      var tail := NarrowPasses(unroll, elementSize, nThreads, thread, behind, ahead);
      logs := logs + tail;
      assert passes[1..][1..] == NarrowPassList(unroll, elementSize);
      assert ([log1] + tail)[1..] == tail;
      assert Follows(passes[1..], c1, n, t1, [log1] + tail);
      assert logs[1..] == [log1] + tail;
    } else {
      assert passes == NarrowPassList(unroll, elementSize);
      logs := NarrowPasses(unroll, elementSize, nThreads, thread, behind, ahead);
    }
  }

  method NarrowPasses(unroll: nat, elementSize: nat, nThreads: nat, thread0: nat, behind0: nat, ahead0: nat)
    returns (logs: seq<seq<seq<nat>>>)
    requires 0 < unroll && ElementSize(elementSize)
    requires 0 < nThreads && nThreads % WARP_SIZE == 0 && thread0 < nThreads
    ensures Follows(NarrowPassList(unroll, elementSize), Cursor(behind0, ahead0), nThreads / WARP_SIZE, thread0, logs)
  {
    var thread, behind, ahead, log := thread0, behind0, ahead0, [];
    thread, behind, ahead, log := ReduceCopyPacks(Pass(unroll * (16 / elementSize) / 2, elementSize), nThreads, thread,
        behind, ahead);
    ghost var c1, t1 := Cursor(behind, ahead), thread;
    logs := [log];
    if ahead == 0 { return; }
    thread, behind, ahead, log := ReduceCopyPacks(Pass(1, elementSize), nThreads, thread, behind, ahead);
    assert NarrowPassList(unroll, elementSize)[1..] == [Pass(1, elementSize)];
    ghost var none: seq<seq<seq<nat>>> := [];
    assert Follows([Pass(1, elementSize)][1..], Cursor(behind, ahead), nThreads / WARP_SIZE, thread, none);
    assert [log][1..] == none;
    assert Follows([Pass(1, elementSize)], c1, nThreads / WARP_SIZE, t1, [log]);
    logs := logs + [log];
    assert logs[1..] == [log];
  }

  /** A move, named by the number its thread had at the start. */
  datatype Touch = Touch(stage: nat, thread: nat, k: nat, u: nat)

  ghost predicate Touches(passes: seq<Pass>, c: Cursor, nWarps: nat, t: Touch, b: nat)
    requires 0 < nWarps && t.thread < nWarps * WARP_SIZE && forall i :: 0 <= i < |passes| ==> passes[i].Valid()
    decreases t.stage
  {
    passes != [] && var p := passes[0];
    if t.stage == 0 then Moves(p, c, nWarps, t.thread, t.k, t.u, b)
    else (
      && Advance(p, c).ahead != 0
      && Touches(passes[1..], Advance(p, c), nWarps, Touch(t.stage - 1, Rotated(p, c, nWarps, t.thread), t.k, t.u), b))
  }

  /** The one move that touches byte `b`. */
  ghost function Toucher(passes: seq<Pass>, elementSize: nat, c: Cursor, nWarps: nat, b: nat): (t: Touch)
    requires 0 < nWarps && Complete(passes, elementSize) && c.ahead % elementSize == 0
    requires c.behind <= b < c.behind + c.ahead
    ensures t.thread < nWarps * WARP_SIZE
    decreases |passes|
  {
    var p := passes[0];
    var c' := Advance(p, c);
    if b < c'.behind then
      var o := OwnerOf(p, c, nWarps, b);
      Touch(0, o.thread, o.k, o.u)
    else
      StillWhole(p, c, elementSize);
      assert 1 < |passes| by { if |passes| == 1 { LastPassFinishes(p, c); } }
      var t := Toucher(passes[1..], elementSize, c', nWarps, b);
      Touch(t.stage + 1, Unrotated(p, c, nWarps, t.thread), t.k, t.u)
  }

  lemma StillWhole(p: Pass, c: Cursor, elementSize: nat)
    requires p.Valid() && 0 < elementSize && p.pack % elementSize == 0 && c.ahead % elementSize == 0
    ensures Advance(p, c).ahead % elementSize == 0
  {
    var m := Packs(p, c);
    DivMod(p.pack, elementSize);
    DivMod(c.ahead, elementSize);
    assert m * p.pack == elementSize * (m * (p.pack / elementSize));
    MulDistributes(elementSize, c.ahead / elementSize, m * (p.pack / elementSize));
    DivModUnique(c.ahead - m * p.pack, elementSize, c.ahead / elementSize - m * (p.pack / elementSize), 0);
  }

  lemma LastPassFinishes(p: Pass, c: Cursor)
    requires p.Valid() && p.unroll == 1 && c.ahead % p.pack == 0
    ensures Advance(p, c).ahead == 0
  {
    DivMod(c.ahead, p.pack);
  }

  /** Every byte is touched by exactly one thread, in one pass, iteration and unroll step; no other byte is touched. */
  lemma {:induction false} TouchedExactlyOnce(passes: seq<Pass>, elementSize: nat, c: Cursor, nWarps: nat, t: Touch,
      b: nat)
    requires 0 < nWarps && Complete(passes, elementSize) && c.ahead % elementSize == 0 && t.thread < nWarps * WARP_SIZE
    ensures Touches(passes, c, nWarps, t, b) <==>
      c.behind <= b < c.behind + c.ahead && t == Toucher(passes, elementSize, c, nWarps, b)
    decreases |passes|
  {
    var p := passes[0];
    var c' := Advance(p, c);
    StillWhole(p, c, elementSize);
    if |passes| == 1 { LastPassFinishes(p, c); }
    MulNonneg(Packs(p, c), p.pack);
    if t.stage == 0 {
      if Moves(p, c, nWarps, t.thread, t.k, t.u, b) { OwnerUnique(p, c, nWarps, t.thread, t.k, t.u, b); }
      if c.behind <= b < c'.behind { OwnerMoves(p, c, nWarps, b); }
    } else if 1 < |passes| {
      RotationInverts(p, c, nWarps, t.thread);
      TouchedExactlyOnce(passes[1..], elementSize, c', nWarps,
          Touch(t.stage - 1, Rotated(p, c, nWarps, t.thread), t.k, t.u), b);
      if c'.behind <= b < c'.behind + c'.ahead {
        RotationInverts(p, c, nWarps, Toucher(passes[1..], elementSize, c', nWarps, b).thread);
      }
    }
  }

  /** The whole buffer: for every length, unroll, element size, alignment and whole number of warps. */
  lemma CopyTouchesEveryByteOnce(unroll: nat, elementSize: nat, aligned: bool, nWarps: nat, nElts: nat, t: Touch,
      b: nat)
    requires 0 < unroll && ElementSize(elementSize) && 0 < nWarps && t.thread < nWarps * WARP_SIZE
    ensures Complete(Passes(unroll, elementSize, aligned), elementSize)
    ensures nElts * elementSize % elementSize == 0 && 0 <= nElts * elementSize
    ensures var passes, c := Passes(unroll, elementSize, aligned), Cursor(0, nElts * elementSize);
      Touches(passes, c, nWarps, t, b) <==> b < nElts * elementSize && t == Toucher(passes, elementSize, c, nWarps, b)
  {
    PassesComplete(unroll, elementSize, aligned);
    MulNonneg(nElts, elementSize);
    DivModUnique(nElts * elementSize, elementSize, nElts, 0);
    TouchedExactlyOnce(Passes(unroll, elementSize, aligned), elementSize, Cursor(0, nElts * elementSize), nWarps, t, b);
  }

  /** The logs of `ReduceCopyThread` hold exactly the moves that `Touches` counts. */
  lemma {:induction false} LoggedIffTouches(passes: seq<Pass>, c: Cursor, nWarps: nat, logs: seq<seq<seq<nat>>>,
      t: Touch, b: nat)
    requires 0 < nWarps && t.thread < nWarps * WARP_SIZE && forall i :: 0 <= i < |passes| ==> passes[i].Valid()
    requires Follows(passes, c, nWarps, t.thread, logs)
    ensures |logs| <= |passes|
    ensures Touches(passes, c, nWarps, t, b) <==>
      && t.stage < |logs| && t.k < |logs[t.stage]| && t.u < |logs[t.stage][t.k]|
      && logs[t.stage][t.k][t.u] <= b < logs[t.stage][t.k][t.u] + passes[t.stage].pack
    decreases |passes|
  {
    if passes != [] && Advance(passes[0], c).ahead != 0 {
      var p := passes[0];
      var t' := Rotated(p, c, nWarps, t.thread);
      var later := Touch(if t.stage == 0 then 0 else t.stage - 1, t', t.k, t.u);
      LoggedIffTouches(passes[1..], Advance(p, c), nWarps, logs[1..], later, b);
    }
  }
}
