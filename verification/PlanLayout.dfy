/**
 Putting a plan's batches into the kernel arguments and finding them again. The host lays the
 batches of all channels out in rounds, one batch per channel and round, linked by relative jumps;
 a block starts at the batch numbered like itself and follows the jumps.
 */
module PlanLayout {
  import opened Arith
  import opened Sequences
  import opened WorkBatch

  const MAXCHANNELS: nat := 64

  /** nextJump is a 14-bit field. */
  const JUMP_LIMIT: nat := 0x4000

  /** A 64-bit channel mask. */
  type Mask = m: seq<bool> | |m| == MAXCHANNELS witness seq(MAXCHANNELS, _ => false)

  /** How many bits below `c` are set. */
  function Popc(m: Mask, c: nat): (n: nat)
    requires c <= MAXCHANNELS
    ensures n <= c
  {
    if c == 0 then 0 else Popc(m, c - 1) + if m[c - 1] then 1 else 0
  }

  // ---- what a layout is ----

  datatype Slot = Slot(channel: nat, index: nat)

  /** `pos[c][i]` is where batch `i` of channel `c` was put, `owner` the inverse. */
  ghost predicate Placed(queues: seq<seq<Batch>>, out: seq<Batch>, pos: seq<seq<nat>>, owner: seq<Slot>) {
    && |queues| == |pos| == MAXCHANNELS && |owner| == |out|
    && (forall c :: 0 <= c < MAXCHANNELS ==> |pos[c]| <= |queues[c]|)
    && (forall c, i :: 0 <= c < MAXCHANNELS && 0 <= i < |pos[c]| ==> PlacedAt(queues, out, pos, owner, c, i))
    && |out| == SumLen(pos)
  }

  ghost predicate PlacedAt(queues: seq<seq<Batch>>, out: seq<Batch>, pos: seq<seq<nat>>, owner: seq<Slot>, c: nat,
      i: nat)
    requires c < |pos| == |queues| && i < |pos[c]| <= |queues[c]| && |owner| == |out|
  {
    var ix := pos[c][i];
    && ix < |out| && owner[ix] == Slot(c, i)
    && (i + 1 < |pos[c]| ==> ix < pos[c][i + 1] < |out|)
    && out[ix] == queues[c][i].(nextJump := if i + 1 < |pos[c]| then (pos[c][i + 1] - ix) % JUMP_LIMIT else 0)
  }

  /** The first batch of the n-th channel below `end` is at index n. */
  ghost predicate FirstRow(mask: Mask, pos: seq<seq<nat>>, end: nat) {
    |pos| == MAXCHANNELS && end <= MAXCHANNELS &&
    forall c :: 0 <= c < end && mask[c] ==> pos[c] != [] && pos[c][0] == Popc(mask, c)
  }

  // ---- the host ----

  /** One batch of channel `c` is put at the end and linked from the previous one. */
  function Append(queues: seq<seq<Batch>>, out: seq<Batch>, pos: seq<seq<nat>>, c: nat): seq<Batch>
    requires c < |pos| == |queues| && |pos[c]| < |queues[c]| && (pos[c] != [] ==> pos[c][|pos[c]| - 1] < |out|)
  {
    var b := queues[c][|pos[c]|];
    if pos[c] == [] then out + [b] else
    var last := pos[c][|pos[c]| - 1];
    out[last := out[last].(nextJump := (|out| - last) % JUMP_LIMIT)] + [b]
  }

  lemma AppendKeepsPlaced(queues: seq<seq<Batch>>, out: seq<Batch>, pos: seq<seq<nat>>, owner: seq<Slot>, c: nat)
    requires Placed(queues, out, pos, owner) && c < MAXCHANNELS && |pos[c]| < |queues[c]|
    requires forall i :: 0 <= i < |queues[c]| ==> queues[c][i].nextJump == 0
    ensures pos[c] != [] ==> pos[c][|pos[c]| - 1] < |out|
    ensures Placed(queues, Append(queues, out, pos, c), pos[c := pos[c] + [|out|]], owner + [Slot(c, |pos[c]|)])
  {
    var m := |pos[c]|;
    if m != 0 { assert PlacedAt(queues, out, pos, owner, c, m - 1); }
    var out', pos', owner' := Append(queues, out, pos, c), pos[c := pos[c] + [|out|]], owner + [Slot(c, m)];
    SumLenUpdate<nat>(pos, c, pos[c] + [|out|]);
    assert forall d :: 0 <= d < MAXCHANNELS ==> |pos'[d]| <= |queues[d]|;
    assert |out'| == SumLen(pos');
    forall d, i | 0 <= d < MAXCHANNELS && 0 <= i < |pos'[d]| ensures PlacedAt(queues, out', pos', owner', d, i) {
      if d != c || i < m { assert PlacedAt(queues, out, pos, owner, d, i); }
    }
  }

  /** What the host's variables hold while it deals out the batches. */
  ghost predicate Dealing(queues: seq<seq<Batch>>, left: seq<seq<Batch>>, prev: seq<int>, out: seq<Batch>,
      pos: seq<seq<nat>>, owner: seq<Slot>) {
    && Placed(queues, out, pos, owner)
    && |left| == |prev| == MAXCHANNELS
    && (forall c :: 0 <= c < MAXCHANNELS ==> left[c] == queues[c][|pos[c]|..])
    && (forall c :: 0 <= c < MAXCHANNELS ==> prev[c] == if pos[c] == [] then -1 else pos[c][|pos[c]| - 1])
  }

  ghost predicate Unlinked(queues: seq<seq<Batch>>) {
    forall c, i :: 0 <= c < |queues| && 0 <= i < |queues[c]| ==> queues[c][i].nextJump == 0
  }

  /** Deal one batch of channel `c`. */
  method Deal(ghost queues: seq<seq<Batch>>, left: seq<seq<Batch>>, prev: seq<int>, out: seq<Batch>, c: nat,
      ghost pos: seq<seq<nat>>, ghost owner: seq<Slot>)
    returns (left': seq<seq<Batch>>, prev': seq<int>, out': seq<Batch>, ghost pos': seq<seq<nat>>,
        ghost owner': seq<Slot>)
    requires Dealing(queues, left, prev, out, pos, owner) && Unlinked(queues)
    requires c < MAXCHANNELS && left[c] != []
    ensures pos' == pos[c := pos[c] + [|out|]]
    ensures Dealing(queues, left', prev', out', pos', owner')
    ensures |out'| == |out| + 1
    ensures SumLen(left') == SumLen(left) - 1 && left' == left[c := left[c][1..]]
  {
    var b := left[c][0];
    left' := left[c := left[c][1..]];
    out' := out;
    AppendKeepsPlaced(queues, out, pos, owner, c);
    if prev[c] != -1 {
      out' := out'[prev[c] := out'[prev[c]].(nextJump := (|out| - prev[c]) % JUMP_LIMIT)];
    }
    prev' := prev[c := |out|];
    out' := out' + [b];
    pos', owner' := pos[c := pos[c] + [|out|]], owner + [Slot(c, |pos[c]|)];
    SumLenUpdate(left, c, left[c][1..]);
    assert out' == Append(queues, out, pos, c);
  }

  ghost predicate AllFilled(queues: seq<seq<Batch>>, mask: Mask) {
    forall c :: 0 <= c < MAXCHANNELS && c < |queues| && mask[c] ==> queues[c] != []
  }

  /** Channels that are no longer marked have nothing left. */
  ghost predicate Exhausted(left: seq<seq<Batch>>, mask: Mask, hasBatch: Mask) {
    |left| == MAXCHANNELS && forall c :: 0 <= c < MAXCHANNELS && mask[c] && !hasBatch[c] ==> left[c] == []
  }

  /** Only marked channels are served. */
  ghost predicate OnlyMarked(mask: Mask, hasBatch: Mask, pos: seq<seq<nat>>) {
    |pos| == MAXCHANNELS && forall c :: 0 <= c < MAXCHANNELS && !mask[c] ==> pos[c] == [] && !hasBatch[c]
  }

  /** When channel `c` comes up in the first round nothing was dealt to it or a later one. */
  ghost predicate RowSoFar(mask: Mask, c: nat, first: bool, dealt: nat, pos: seq<seq<nat>>) {
    && |pos| == MAXCHANNELS && c <= MAXCHANNELS
    && FirstRow(mask, pos, if first then c else MAXCHANNELS)
    && (first ==> dealt == Popc(mask, c) && forall d :: c <= d < MAXCHANNELS ==> pos[d] == [])
  }

  lemma RowGrows(queues: seq<seq<Batch>>, mask: Mask, c: nat, first: bool, dealt: nat, pos: seq<seq<nat>>)
    requires c < MAXCHANNELS && (first ==> mask[c])
    requires AllFilled(queues, mask) ==> RowSoFar(mask, c, first, dealt, pos)
    ensures AllFilled(queues, mask) ==> RowSoFar(mask, c + 1, first, dealt + 1, pos[c := pos[c] + [dealt]])
    ensures AllFilled(queues, mask) && !first ==> RowSoFar(mask, c + 1, first, dealt, pos)
  {
  }

  /** The batch-placing loops of finishPlan. */
  method LayOut(queues: seq<seq<Batch>>, mask: Mask)
    returns (out: seq<Batch>, ghost pos: seq<seq<nat>>, ghost owner: seq<Slot>)
    requires |queues| == MAXCHANNELS && Unlinked(queues)
    ensures Placed(queues, out, pos, owner)
    ensures forall c :: 0 <= c < MAXCHANNELS ==> |pos[c]| == if mask[c] then |queues[c]| else 0
    ensures AllFilled(queues, mask) ==> FirstRow(mask, pos, MAXCHANNELS)
  {
    var left, prev, hasBatch := queues, seq(MAXCHANNELS, _ => -1), mask;
    out := [];
    pos, owner := seq(MAXCHANNELS, _ => []), [];
    NoneYet(pos);
    ghost var first := true;
    while true in hasBatch
      invariant Dealing(queues, left, prev, out, pos, owner)
      invariant Exhausted(left, mask, hasBatch) && OnlyMarked(mask, hasBatch, pos)
      invariant first ==> hasBatch == mask && RowSoFar(mask, 0, true, |out|, pos)
      invariant !first && AllFilled(queues, mask) ==> FirstRow(mask, pos, MAXCHANNELS)
      decreases SumLen(left) + Popc(hasBatch, MAXCHANNELS)
    {
      left, prev, out, hasBatch, pos, owner := DealRound(queues, mask, left, prev, out, hasBatch, first, pos, owner);
      first := false;
    }
  }

  lemma {:induction false} NoneYet(pos: seq<seq<nat>>)
    requires forall c :: 0 <= c < |pos| ==> pos[c] == []
    ensures SumLen(pos) == 0
  {
    if pos != [] { NoneYet(pos[..|pos| - 1]); }
  }

  lemma {:induction false} PopcClear(m: Mask, c: nat, n: nat)
    requires c < MAXCHANNELS && n <= MAXCHANNELS && m[c]
    ensures Popc(m[c := false], n) == Popc(m, n) - if c < n then 1 else 0
  {
    if n != 0 { PopcClear(m, c, n - 1); }
  }

  /** Deal to channel `c` if it has a batch, and unmark it once it has none. */
  method Serve(ghost queues: seq<seq<Batch>>, ghost mask: Mask, left: seq<seq<Batch>>, prev: seq<int>, out: seq<Batch>,
      hasBatch: Mask, c: nat, ghost pos: seq<seq<nat>>, ghost owner: seq<Slot>)
    returns (left': seq<seq<Batch>>, prev': seq<int>, out': seq<Batch>, hasBatch': Mask, ghost pos': seq<seq<nat>>,
        ghost owner': seq<Slot>)
    requires Dealing(queues, left, prev, out, pos, owner) && Unlinked(queues)
    requires Exhausted(left, mask, hasBatch) && OnlyMarked(mask, hasBatch, pos)
    requires c < MAXCHANNELS && hasBatch[c]
    ensures Dealing(queues, left', prev', out', pos', owner')
    ensures Exhausted(left', mask, hasBatch') && OnlyMarked(mask, hasBatch', pos')
    ensures hasBatch' == hasBatch[c := hasBatch'[c]]
    ensures pos' == if left[c] == [] then pos else pos[c := pos[c] + [|out|]]
    ensures |out'| == |out| + if left[c] == [] then 0 else 1
    ensures SumLen(left') + Popc(hasBatch', MAXCHANNELS) < SumLen(left) + Popc(hasBatch, MAXCHANNELS)
  {
    left', prev', out', hasBatch', pos', owner' := left, prev, out, hasBatch, pos, owner;
    if left'[c] != [] {
      left', prev', out', pos', owner' := Deal(queues, left, prev, out, c, pos, owner);
    }
    if left'[c] == [] {
      PopcClear(hasBatch, c, MAXCHANNELS);
      hasBatch' := hasBatch[c := false];
    }
  }

  /** One round: a batch of every channel that still has one, in ascending order. */
  method DealRound(ghost queues: seq<seq<Batch>>, ghost mask: Mask, left0: seq<seq<Batch>>, prev0: seq<int>,
      out0: seq<Batch>, tmp: Mask, ghost first: bool, ghost pos0: seq<seq<nat>>, ghost owner0: seq<Slot>)
    returns (left: seq<seq<Batch>>, prev: seq<int>, out: seq<Batch>, hasBatch: Mask, ghost pos: seq<seq<nat>>,
        ghost owner: seq<Slot>)
    requires Dealing(queues, left0, prev0, out0, pos0, owner0) && Unlinked(queues)
    requires Exhausted(left0, mask, tmp) && OnlyMarked(mask, tmp, pos0) && true in tmp
    requires first ==> tmp == mask && RowSoFar(mask, 0, true, |out0|, pos0)
    requires !first && AllFilled(queues, mask) ==> FirstRow(mask, pos0, MAXCHANNELS)
    ensures Dealing(queues, left, prev, out, pos, owner)
    ensures Exhausted(left, mask, hasBatch) && OnlyMarked(mask, hasBatch, pos)
    ensures AllFilled(queues, mask) ==> FirstRow(mask, pos, MAXCHANNELS)
    ensures SumLen(left) + Popc(hasBatch, MAXCHANNELS) < SumLen(left0) + Popc(tmp, MAXCHANNELS)
  {
    left, prev, out, hasBatch, pos, owner := left0, prev0, out0, tmp, pos0, owner0;
    ghost var any := false;
    for c := 0 to MAXCHANNELS
      invariant Dealing(queues, left, prev, out, pos, owner)
      invariant Exhausted(left, mask, hasBatch) && OnlyMarked(mask, hasBatch, pos)
      invariant forall d :: c <= d < MAXCHANNELS ==> hasBatch[d] == tmp[d]
      invariant AllFilled(queues, mask) ==> RowSoFar(mask, c, first, |out|, pos)
      invariant any || forall d :: 0 <= d < c ==> !tmp[d]
      invariant SumLen(left) + Popc(hasBatch, MAXCHANNELS) <= SumLen(left0) + Popc(tmp, MAXCHANNELS) - if any then 1
        else 0
    {
      if tmp[c] {
        any := true;
        RowGrows(queues, mask, c, first, |out|, pos);
        left, prev, out, hasBatch, pos, owner := Serve(queues, mask, left, prev, out, hasBatch, c, pos, owner);
      }
    }
  }

  // ---- the device ----

  /** `bs` stand in `out` at the indices `ps`, each one linked to the next. */
  ghost predicate Chain(out: seq<Batch>, ps: seq<nat>, bs: seq<Batch>) {
    |ps| == |bs| && forall i :: 0 <= i < |ps| ==> Link(out, ps, bs, i)
  }

  ghost predicate Link(out: seq<Batch>, ps: seq<nat>, bs: seq<Batch>, i: nat)
    requires i < |ps| == |bs|
  {
    && ps[i] < |out|
    && (i + 1 < |ps| ==> ps[i] < ps[i + 1])
    && out[ps[i]] == bs[i].(nextJump := if i + 1 < |ps| then ps[i + 1] - ps[i] else 0)
  }

  /** As long as the jumps fit their field, a channel's batches are found in order. */
  lemma PlacedIsChained(queues: seq<seq<Batch>>, out: seq<Batch>, pos: seq<seq<nat>>, owner: seq<Slot>, c: nat)
    requires Placed(queues, out, pos, owner) && c < MAXCHANNELS && |pos[c]| == |queues[c]| && |out| <= JUMP_LIMIT
    ensures Chain(out, pos[c], queues[c])
  {
    forall i | 0 <= i < |pos[c]| ensures Link(out, pos[c], queues[c], i) {
      assert PlacedAt(queues, out, pos, owner, c, i);
      if i + 1 < |pos[c]| { ModSmall(pos[c][i + 1] - pos[c][i], JUMP_LIMIT); }
    }
  }

  /** The batches that the jumps lead to, as they were before they were linked. */
  function Follow(out: seq<Batch>, ix: nat): seq<Batch>
    decreases |out| - ix
  {
    if |out| <= ix then []
    else [out[ix].(nextJump := 0)] + if out[ix].nextJump == 0 then [] else Follow(out, ix + out[ix].nextJump)
  }

  lemma {:induction false} FollowsChain(out: seq<Batch>, ps: seq<nat>, bs: seq<Batch>, i: nat)
    requires Chain(out, ps, bs) && i < |ps| && forall k :: 0 <= k < |bs| ==> bs[k].nextJump == 0
    ensures ps[i] < |out| && Follow(out, ps[i]) == bs[i..]
    decreases |ps| - i
  {
    assert Link(out, ps, bs, i);
    if i + 1 < |ps| {
      FollowsChain(out, ps, bs, i + 1);
      assert bs[i..] == [bs[i]] + bs[i + 1..];
    }
  }

  /** Layout and its inverse: from the index of its block, the jumps lead through a channel's batches. */
  method PlaceBatches(queues: seq<seq<Batch>>, mask: Mask) returns (out: seq<Batch>)
    requires |queues| == MAXCHANNELS && Unlinked(queues) && AllFilled(queues, mask) && SumLen(queues) <= JUMP_LIMIT
    ensures |out| <= SumLen(queues)
    ensures forall c :: 0 <= c < MAXCHANNELS && mask[c] ==>
      Popc(mask, c) < |out| && Follow(out, Popc(mask, c)) == queues[c]
  {
    ghost var pos, owner;
    out, pos, owner := LayOut(queues, mask);
    PlacedCount(queues, out, pos, owner);
    forall c | 0 <= c < MAXCHANNELS && mask[c]
      ensures Popc(mask, c) < |out| && Follow(out, Popc(mask, c)) == queues[c]
    {
      PlacedIsChained(queues, out, pos, owner, c);
      FollowsChain(out, pos[c], queues[c], 0);
    }
  }

  /** Nothing is dropped and nothing is written past the plan's batch count. */
  lemma PlacedCount(queues: seq<seq<Batch>>, out: seq<Batch>, pos: seq<seq<nat>>, owner: seq<Slot>)
    requires Placed(queues, out, pos, owner)
    ensures |out| <= SumLen(queues)
    ensures (forall c :: 0 <= c < MAXCHANNELS ==> |pos[c]| == |queues[c]|) ==> |out| == SumLen(queues)
  {
    SumLenLe(pos, queues);
    if forall c :: 0 <= c < MAXCHANNELS ==> |pos[c]| == |queues[c]| { SumLenLe(queues, pos); }
  }

  lemma {:induction false} PopcMonotone(m: Mask, c: nat, d: nat)
    requires c <= d <= MAXCHANNELS
    ensures Popc(m, c) <= Popc(m, d)
  {
    if c < d { PopcMonotone(m, c, d - 1); }
  }

  /** Which channel a block runs: every thread looks at one bit and one of them finds it. */
  method BlockChannel(mask: Mask, block: nat) returns (channel: nat)
    requires block < Popc(mask, MAXCHANNELS)
    ensures channel < MAXCHANNELS && mask[channel] && Popc(mask, channel) == block
    ensures forall c :: 0 <= c < MAXCHANNELS && mask[c] && Popc(mask, c) == block ==> c == channel
  {
    channel := 0;
    ghost var found := false;
    for tid := 0 to MAXCHANNELS
      invariant !found ==> Popc(mask, tid) <= block
      invariant found ==>
        channel < tid && mask[channel] && Popc(mask, channel) == block && Popc(mask, channel + 1) <= Popc(mask, tid)
    {
      if mask[tid] {
        if block == Popc(mask, tid) {
          channel := tid;
          found := true;
        }
      }
    }
    forall c | 0 <= c < MAXCHANNELS && mask[c] && Popc(mask, c) == block ensures c == channel {
      if c < channel { PopcMonotone(mask, c + 1, channel); }
      if channel < c { PopcMonotone(mask, channel + 1, c); }
    }
  }
}
