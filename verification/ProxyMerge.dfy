/**
 Proxy operations of a plan: the per-channel lists are merged into one, collectives before
 point-to-point, and every upload of the plan numbers them after everything uploaded before.
 */
module ProxyMerge {
  import opened Sequences

  const MAXCHANNELS: nat := 64
  const TOP: nat := 0x8000_0000_0000_0000
  const NONE: nat := 0xffff_ffff_ffff_ffff

  /** `opCount` is twice the operation's number, plus one for point-to-point; `task` stands for the rest. */
  datatype Op = Op(channel: nat, opCount: nat, task: nat)

  /** The id with its tag bit moved to the top. */
  function Key(id: nat): nat { id / 2 + if id % 2 == 1 then TOP else 0 }

  predicate Lex(a: Op, b: Op) {
    Key(a.opCount) < Key(b.opCount) || (Key(a.opCount) == Key(b.opCount) && a.channel <= b.channel)
  }

  predicate Sorted(ops: seq<Op>) { forall i, j :: 0 <= i < j < |ops| ==> Lex(ops[i], ops[j]) }

  /** The operations of one channel. */
  function Select(ops: seq<Op>, c: nat): seq<Op> {
    if ops == [] then [] else Select(ops[..|ops| - 1], c) + if ops[|ops| - 1].channel == c then [ops[|ops| - 1]] else []
  }

  lemma SelectAppend(ops: seq<Op>, x: Op, c: nat)
    ensures Select(ops + [x], c) == Select(ops, c) + if x.channel == c then [x] else []
  {
    assert (ops + [x])[..|ops|] == ops;
  }

  function HeadId(q: seq<Op>): nat { if q == [] then NONE else q[0].opCount }

  function Heads(rest: seq<seq<Op>>): nat {
    if rest == [] then 0 else Heads(rest[..|rest| - 1]) + if rest[|rest| - 1] == [] then 0 else 1
  }

  lemma {:induction false} HeadsUpdate(rest: seq<seq<Op>>, c: nat, q: seq<Op>)
    requires c < |rest|
    ensures Heads(rest[c := q]) == Heads(rest) - (if rest[c] == [] then 0 else 1) + if q == [] then 0 else 1
  {
    var n := |rest| - 1;
    if c < n {
      HeadsUpdate(rest[..n], c, q);
      assert rest[c := q][..n] == rest[..n][c := q];
    } else {
      assert rest[c := q][..n] == rest[..n];
    }
  }

  lemma {:induction false} SomeHead(rest: seq<seq<Op>>)
    ensures Heads(rest) == 0 <==> forall c :: 0 <= c < |rest| ==> rest[c] == []
  {
    if rest != [] { SomeHead(rest[..|rest| - 1]); }
  }

  predicate WellTagged(queues: seq<seq<Op>>) {
    |queues| == MAXCHANNELS && forall c, i :: 0 <= c < MAXCHANNELS && 0 <= i < |queues[c]| ==>
      queues[c][i].channel == c && queues[c][i].opCount < NONE
  }

  /** The channel whose head has the least key, the lowest one of several. */
  method LeastHead(headIds: seq<nat>, bound: nat) returns (c: int)
    requires bound <= |headIds| && forall d :: 0 <= d < |headIds| ==> headIds[d] <= NONE
    ensures c == -1 ==> forall d :: 0 <= d < bound ==> headIds[d] == NONE
    ensures c != -1 ==> 0 <= c < bound && headIds[c] != NONE
    ensures c != -1 ==> forall d :: 0 <= d < bound ==>
      Key(headIds[c]) <= Key(headIds[d]) && (d < c ==> Key(headIds[c]) < Key(headIds[d]))
  {
    c := -1;
    var minId := NONE;
    for d := 0 to bound
      invariant c == -1 ==> minId == NONE && forall e :: 0 <= e < d ==> headIds[e] == NONE
      invariant c != -1 ==> 0 <= c < d && minId == Key(headIds[c]) < NONE
      invariant forall e :: 0 <= e < d ==> minId <= Key(headIds[e]) && (e < c ==> minId < Key(headIds[e]))
    {
      var id := Key(headIds[d]);
      if id < minId { c, minId := d, id; }
    }
  }

  /** Nothing is lost, and what is out comes before what is left. */
  ghost predicate Merging(queues: seq<seq<Op>>, rest: seq<seq<Op>>, out: seq<Op>) {
    && |rest| == |queues| == MAXCHANNELS
    && (forall c :: 0 <= c < MAXCHANNELS ==> Select(out, c) + rest[c] == queues[c])
    && forall i :: 0 <= i < |out| ==> out[i].channel < MAXCHANNELS
  }

  ghost predicate Ordered(rest: seq<seq<Op>>, out: seq<Op>) {
    && Sorted(out)
    && (forall c :: 0 <= c < |rest| ==> Sorted(rest[c]))
    && forall i, c :: 0 <= i < |out| && 0 <= c < |rest| && rest[c] != [] ==> Lex(out[i], rest[c][0])
  }

  lemma MergingStep(queues: seq<seq<Op>>, rest: seq<seq<Op>>, out: seq<Op>, c: nat)
    requires WellTagged(queues) && Merging(queues, rest, out) && c < MAXCHANNELS && rest[c] != []
    ensures Merging(queues, rest[c := rest[c][1..]], out + [rest[c][0]])
  {
    assert rest[c][0] == queues[c][|Select(out, c)|];
    forall d | 0 <= d < MAXCHANNELS ensures Select(out + [rest[c][0]], d) + rest[c := rest[c][1..]][d] == queues[d] {
      SelectAppend(out, rest[c][0], d);
    }
  }

  lemma OrderedStep(rest: seq<seq<Op>>, out: seq<Op>, c: nat)
    requires Ordered(rest, out) && c < |rest| && rest[c] != []
    requires forall d :: 0 <= d < |rest| && rest[d] != [] ==> Lex(rest[c][0], rest[d][0])
    ensures Ordered(rest[c := rest[c][1..]], out + [rest[c][0]])
  {
    var rest', out' := rest[c := rest[c][1..]], out + [rest[c][0]];
    forall i, d | 0 <= i < |out'| && 0 <= d < |rest'| && rest'[d] != [] ensures Lex(out'[i], rest'[d][0]) {
      if d == c { assert Lex(rest[c][0], rest[c][1]); }
      if i < |out| { assert Lex(out[i], rest[c][0]); }
    }
  }

  /** First pass: every channel's head id, how many channels have one, and a bound on those. */
  method ScanHeads(queues: seq<seq<Op>>) returns (headIds: seq<nat>, nHeads: nat, bound: nat)
    requires |queues| == MAXCHANNELS
    ensures HeadsOf(queues, headIds, nHeads, bound)
  {
    headIds, nHeads, bound := [], 0, 0;
    for c := 0 to MAXCHANNELS
      invariant |headIds| == c && bound <= c && nHeads == Heads(queues[..c])
      invariant forall d :: 0 <= d < c ==> headIds[d] == HeadId(queues[d]) && (bound <= d ==> queues[d] == [])
    {
      assert queues[..c + 1][..c] == queues[..c];
      headIds := headIds + [HeadId(queues[c])];
      if queues[c] != [] { nHeads, bound := nHeads + 1, c + 1; }
    }
    assert queues[..MAXCHANNELS] == queues;
  }

  ghost predicate HeadsOf(rest: seq<seq<Op>>, headIds: seq<nat>, nHeads: nat, bound: nat) {
    && |rest| == |headIds| == MAXCHANNELS && bound <= MAXCHANNELS && nHeads == Heads(rest)
    && (forall c :: 0 <= c < MAXCHANNELS ==> headIds[c] == HeadId(rest[c]))
    && forall c :: bound <= c < MAXCHANNELS ==> rest[c] == []
  }

  /** The merge of finishPlan. */
  method Merge(queues: seq<seq<Op>>) returns (out: seq<Op>)
    requires WellTagged(queues)
    ensures forall c :: 0 <= c < MAXCHANNELS ==> Select(out, c) == queues[c]
    ensures forall i :: 0 <= i < |out| ==> out[i].channel < MAXCHANNELS
    ensures AllSorted(queues) ==> Sorted(out)
  {
    var headIds, nHeads, bound := ScanHeads(queues);
    var rest := queues;
    out := [];
    ghost var sorted := AllSorted(queues);
    MergingStart(queues);
    while nHeads != 0
      invariant Merging(queues, rest, out) && HeadsOf(rest, headIds, nHeads, bound)
      invariant sorted ==> Ordered(rest, out)
      decreases SumLen(rest)
    {
      rest, out, headIds, nHeads := TakeLeast(queues, rest, out, headIds, nHeads, bound, sorted);
    }
    SomeHead(rest);
    MergedAll(queues, rest, out);
  }

  predicate AllSorted(queues: seq<seq<Op>>) { forall c :: 0 <= c < |queues| ==> Sorted(queues[c]) }

  lemma MergingStart(queues: seq<seq<Op>>)
    requires |queues| == MAXCHANNELS
    ensures Merging(queues, queues, []) && (AllSorted(queues) ==> Ordered(queues, []))
  {
    forall c | 0 <= c < MAXCHANNELS ensures Select([], c) + queues[c] == queues[c] {}
  }

  lemma MergedAll(queues: seq<seq<Op>>, rest: seq<seq<Op>>, out: seq<Op>)
    requires Merging(queues, rest, out) && forall c :: 0 <= c < MAXCHANNELS ==> rest[c] == []
    ensures forall c :: 0 <= c < MAXCHANNELS ==> Select(out, c) == queues[c]
  {
    forall c | 0 <= c < MAXCHANNELS ensures Select(out, c) == queues[c] {
      assert Select(out, c) + [] == Select(out, c);
    }
  }

  /** One step of the merge. */
  method TakeLeast(ghost queues: seq<seq<Op>>, rest: seq<seq<Op>>, out: seq<Op>, headIds: seq<nat>, nHeads: nat,
      bound: nat, ghost sorted: bool)
    returns (rest': seq<seq<Op>>, out': seq<Op>, headIds': seq<nat>, nHeads': nat)
    requires WellTagged(queues) && Merging(queues, rest, out) && HeadsOf(rest, headIds, nHeads, bound) && nHeads != 0
    requires sorted ==> Ordered(rest, out)
    ensures Merging(queues, rest', out') && HeadsOf(rest', headIds', nHeads', bound) && SumLen(rest') < SumLen(rest)
    ensures sorted ==> Ordered(rest', out')
  {
    SomeHead(rest);
    HeadsBounded(queues, rest, out);
    var c := LeastHead(headIds, bound);
    MergingStep(queues, rest, out, c);
    if sorted {
      LeastIsFirst(queues, rest, out, c);
      OrderedStep(rest, out, c);
    }
    HeadsStep(rest, headIds, nHeads, bound, c);
    rest', out' := rest[c := rest[c][1..]], out + [rest[c][0]];
    headIds' := headIds[c := HeadId(rest'[c])];
    nHeads' := nHeads - if rest'[c] == [] then 1 else 0;
  }

  /** The tables of heads after the head of channel `c` is gone. */
  lemma HeadsStep(rest: seq<seq<Op>>, headIds: seq<nat>, nHeads: nat, bound: nat, c: nat)
    requires HeadsOf(rest, headIds, nHeads, bound) && c < bound && rest[c] != []
    ensures var rest' := rest[c := rest[c][1..]];
      && (rest'[c] == [] ==> 1 <= nHeads) && SumLen(rest') < SumLen(rest)
      && HeadsOf(rest', headIds[c := HeadId(rest'[c])], nHeads - if rest'[c] == [] then 1 else 0, bound)
  {
    HeadsUpdate(rest, c, rest[c][1..]);
    SumLenUpdate(rest, c, rest[c][1..]);
  }

  lemma HeadsBounded(queues: seq<seq<Op>>, rest: seq<seq<Op>>, out: seq<Op>)
    requires WellTagged(queues) && Merging(queues, rest, out)
    ensures forall c :: 0 <= c < MAXCHANNELS ==> HeadId(rest[c]) <= NONE && (HeadId(rest[c]) == NONE <==> rest[c] == [])
    ensures forall c :: 0 <= c < MAXCHANNELS && rest[c] != [] ==> rest[c][0].channel == c
  {
    forall c | 0 <= c < MAXCHANNELS && rest[c] != [] ensures rest[c][0].opCount < NONE && rest[c][0].channel == c {
      assert rest[c][0] == queues[c][|Select(out, c)|];
    }
  }

  lemma LeastIsFirst(queues: seq<seq<Op>>, rest: seq<seq<Op>>, out: seq<Op>, c: nat)
    requires WellTagged(queues) && Merging(queues, rest, out) && c < MAXCHANNELS && rest[c] != []
    requires forall d :: 0 <= d < MAXCHANNELS && rest[d] != [] ==>
      Key(HeadId(rest[c])) <= Key(HeadId(rest[d])) && (d < c ==> Key(HeadId(rest[c])) < Key(HeadId(rest[d])))
    ensures forall d :: 0 <= d < MAXCHANNELS && rest[d] != [] ==> Lex(rest[c][0], rest[d][0])
  {
    HeadsBounded(queues, rest, out);
  }

  // ---- uploading a plan ----

  /** The communicator's history: how many collectives, and how many point-to-point batches on each channel. */
  datatype Counters = Counters(coll: nat, p2p: seq<nat>)

  /** A finished plan: its merged operations and the number of its collectives. */
  datatype Plan = Plan(ops: seq<Op>, collOpCount: nat)

  predicate IsP2p(op: Op) { op.opCount % 2 == 1 }

  /** Ids are below the plan's counts, and on one channel point-to-point ids never fall. */
  ghost predicate PlanOk(plan: Plan) {
    && (forall i :: 0 <= i < |plan.ops| ==>
        plan.ops[i].channel < MAXCHANNELS && (!IsP2p(plan.ops[i]) ==> plan.ops[i].opCount / 2 < plan.collOpCount))
    && forall i, j ::
      && 0 <= i < j < |plan.ops| && plan.ops[i].channel == plan.ops[j].channel
      && IsP2p(plan.ops[i]) && IsP2p(plan.ops[j])
      ==> plan.ops[i].opCount <= plan.ops[j].opCount
  }

  /** A merged plan is in order. */
  lemma MergedIsOk(ops: seq<Op>, collOpCount: nat)
    requires Sorted(ops)
    requires forall i :: 0 <= i < |ops| ==>
      ops[i].channel < MAXCHANNELS && (!IsP2p(ops[i]) ==> ops[i].opCount / 2 < collOpCount)
    ensures PlanOk(Plan(ops, collOpCount))
  {
    forall i, j | 0 <= i < j < |ops| && ops[i].channel == ops[j].channel && IsP2p(ops[i]) && IsP2p(ops[j])
      ensures ops[i].opCount <= ops[j].opCount
    {
      assert Lex(ops[i], ops[j]);
    }
  }

  /** The operation as it is handed to the proxy. */
  function Translate(h: Counters, op: Op): Op
    requires |h.p2p| == MAXCHANNELS && op.channel < MAXCHANNELS
  {
    op.(opCount := 2 * (if IsP2p(op) then h.p2p[op.channel] else h.coll) + op.opCount)
  }

  function Translated(h: Counters, ops: seq<Op>): (out: seq<Op>)
    requires |h.p2p| == MAXCHANNELS && forall i :: 0 <= i < |ops| ==> ops[i].channel < MAXCHANNELS
    ensures |out| == |ops|
  {
    seq(|ops|, i requires 0 <= i < |ops| => Translate(h, ops[i]))
  }

  /** Everything handed over lies between the history before and the history after. */
  ghost predicate Between(h: Counters, h': Counters, op: Op)
    requires |h.p2p| == |h'.p2p| == MAXCHANNELS && op.channel < MAXCHANNELS
  {
    if IsP2p(op) then h.p2p[op.channel] <= op.opCount / 2 < h'.p2p[op.channel] else h.coll <= op.opCount / 2 < h'.coll
  }

  ghost predicate Upto(h: Counters, h': Counters) {
    |h.p2p| == |h'.p2p| == MAXCHANNELS && h.coll <= h'.coll && forall c :: 0 <= c < MAXCHANNELS ==>
      h.p2p[c] <= h'.p2p[c]
  }

  /** uploadProxyOps: hand the operations over under new ids, and advance the history. */
  method UploadProxyOps(h: Counters, plan: Plan) returns (h': Counters, posted: seq<Op>)
    requires |h.p2p| == MAXCHANNELS && PlanOk(plan)
    ensures posted == Translated(h, plan.ops)
    ensures Upto(h, h') && h'.coll == h.coll + plan.collOpCount
    ensures forall i :: 0 <= i < |posted| ==> posted[i].channel < MAXCHANNELS && Between(h, h', posted[i])
  {
    var bump := seq(MAXCHANNELS, _ => 0);
    posted := [];
    for i := 0 to |plan.ops|
      invariant posted == Translated(h, plan.ops[..i])
      invariant |bump| == MAXCHANNELS && forall c :: 0 <= c < MAXCHANNELS ==> 0 <= bump[c]
      invariant forall k :: 0 <= k < i && IsP2p(plan.ops[k]) ==> plan.ops[k].opCount / 2 < bump[plan.ops[k].channel]
    {
      var op := plan.ops[i];
      if IsP2p(op) { bump := bump[op.channel := op.opCount / 2 + 1]; }
      posted := posted + [Translate(h, op)];
    }
    assert plan.ops[..|plan.ops|] == plan.ops;
    h' := Counters(h.coll + plan.collOpCount, seq(MAXCHANNELS, c requires 0 <= c < MAXCHANNELS => h.p2p[c] + bump[c]));
    forall i | 0 <= i < |posted| ensures posted[i].channel < MAXCHANNELS && Between(h, h', posted[i]) {
      assert posted[i] == Translate(h, plan.ops[i]);
    }
  }

  /** A history of uploads: the counters around each, and what each handed over. */
  ghost predicate History(hs: seq<Counters>, uploads: seq<seq<Op>>) {
    && |hs| == |uploads| + 1
    && (forall k :: 0 <= k < |hs| ==> |hs[k].p2p| == MAXCHANNELS)
    && (forall k :: 0 <= k < |uploads| ==> Upto(hs[k], hs[k + 1]))
    && forall k, i :: 0 <= k < |uploads| && 0 <= i < |uploads[k]| ==>
      uploads[k][i].channel < MAXCHANNELS && Between(hs[k], hs[k + 1], uploads[k][i])
  }

  lemma {:induction false} HistoryGrows(hs: seq<Counters>, uploads: seq<seq<Op>>, k: nat, l: nat)
    requires History(hs, uploads) && k <= l < |hs|
    ensures Upto(hs[k], hs[l])
  {
    if k < l {
      HistoryGrows(hs, uploads, k, l - 1);
      assert Upto(hs[l - 1], hs[l]);
    }
  }

  /** Uploads, of one plan again or of different ones, never share an id: later ones are numbered after earlier ones. */
  lemma UploadsNeverCollide(hs: seq<Counters>, uploads: seq<seq<Op>>, k: nat, l: nat, i: nat, j: nat)
    requires History(hs, uploads) && k < l < |uploads| && i < |uploads[k]| && j < |uploads[l]|
    requires IsP2p(uploads[k][i]) == IsP2p(uploads[l][j])
    requires (IsP2p(uploads[k][i]) ==> uploads[k][i].channel == uploads[l][j].channel)
    ensures uploads[k][i].opCount < uploads[l][j].opCount
  {
    HistoryGrows(hs, uploads, k + 1, l);
    assert Between(hs[k], hs[k + 1], uploads[k][i]) && Between(hs[l], hs[l + 1], uploads[l][j]);
  }

  /** Within an upload the new ids are ordered, and equal, exactly as the plan's. */
  lemma TranslateKeepsOrder(h: Counters, a: Op, b: Op)
    requires |h.p2p| == MAXCHANNELS && a.channel < MAXCHANNELS && b.channel < MAXCHANNELS
    requires IsP2p(a) == IsP2p(b) && (IsP2p(a) ==> a.channel == b.channel)
    ensures IsP2p(Translate(h, a)) == IsP2p(a)
    ensures Translate(h, a).opCount < Translate(h, b).opCount <==> a.opCount < b.opCount
    ensures Translate(h, a).opCount == Translate(h, b).opCount <==> a.opCount == b.opCount
  {
  }

  /** Uploading any plans one after the other gives such a history. */
  method UploadAll(h: Counters, plans: seq<Plan>) returns (uploads: seq<seq<Op>>, ghost hs: seq<Counters>)
    requires |h.p2p| == MAXCHANNELS && forall k :: 0 <= k < |plans| ==> PlanOk(plans[k])
    ensures History(hs, uploads) && |uploads| == |plans| && hs[0] == h
    ensures forall k :: 0 <= k < |plans| ==> PlanOk(plans[k]) && uploads[k] == Translated(hs[k], plans[k].ops)
  {
    uploads, hs := [], [h];
    var now := h;
    for k := 0 to |plans|
      invariant |uploads| == k && History(hs, uploads) && hs[0] == h && hs[k] == now
      invariant forall l :: 0 <= l < k ==> uploads[l] == Translated(hs[l], plans[l].ops)
    {
      var posted;
      now, posted := UploadProxyOps(now, plans[k]);
      uploads, hs := uploads + [posted], hs + [now];
    }
  }
}
