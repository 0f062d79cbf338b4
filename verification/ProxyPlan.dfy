/**
 How a plan's proxy operations get their ids. Every collective takes the next even id and uses it on
 all its channels; a point-to-point part takes the odd id of the batch it settled in. Collectives
 come first, so every channel's list is in order when the lists are merged, and uploads of any plans
 never give an id twice.
 */
module ProxyPlan {
  import opened ProxyMerge
  import WorkBatch

  /** The counters are 32-bit integers. */
  const INT_MAX: nat := 0x7fff_ffff

  /**
   A collective on consecutive channels from `lo`; `tasks[k]` are its operations on channel `lo + k` that need a proxy.
   */
  datatype CollStep = CollStep(reg: bool, funcId: nat, lo: nat, tasks: seq<seq<nat>>) {
    predicate Valid() { lo + |tasks| <= MAXCHANNELS }

    function TasksOn(c: nat): seq<nat> { if lo <= c < lo + |tasks| then tasks[c - lo] else [] }

    function Type(): WorkBatch.WorkType { if reg then WorkBatch.CollReg else WorkBatch.Coll }
  }

  datatype Part = Part(channel: nat, tasks: seq<nat>)

  /** A point-to-point work, split over channels. */
  datatype P2pStep = P2pStep(funcId: nat, round: int, parts: seq<Part>) {
    predicate Valid() { forall k :: 0 <= k < |parts| ==> parts[k].channel < MAXCHANNELS }
  }

  function PartTasks(parts: seq<Part>, c: nat): seq<nat> {
    if parts == [] then [] else
    PartTasks(parts[..|parts| - 1], c) + if parts[|parts| - 1].channel == c then parts[|parts| - 1].tasks else []
  }

  /** Operations of one channel under one id. */
  function OpsWith(c: nat, id: nat, tasks: seq<nat>): (ops: seq<Op>)
    ensures |ops| == |tasks| && forall k :: 0 <= k < |ops| ==> ops[k] == Op(c, id, tasks[k])
  {
    seq(|tasks|, k requires 0 <= k < |tasks| => Op(c, id, tasks[k]))
  }

  /** An id that the counts allow on a channel. */
  predicate IdOk(op: Op, c: nat, nColls: nat, nP2ps: nat) {
    op.channel == c && if IsP2p(op) then 1 <= op.opCount / 2 <= nP2ps else op.opCount / 2 < nColls
  }

  /** A channel's list: in order, and numbered within the counts. */
  ghost predicate QueueOk(q: seq<Op>, c: nat, nColls: nat, nP2ps: nat) {
    Sorted(q) && forall i :: 0 <= i < |q| ==> IdOk(q[i], c, nColls, nP2ps)
  }

  lemma AppendLater(q: seq<Op>, c: nat, id: nat, tasks: seq<nat>)
    requires Sorted(q) && forall i :: 0 <= i < |q| ==> q[i].channel == c && Key(q[i].opCount) <= Key(id)
    ensures Sorted(q + OpsWith(c, id, tasks))
  {
  }

  lemma AppendColl(q: seq<Op>, c: nat, n: nat, tasks: seq<nat>)
    requires QueueOk(q, c, n, 0)
    ensures QueueOk(q + OpsWith(c, 2 * n, tasks), c, n + 1, 0)
  {
    AppendLater(q, c, 2 * n, tasks);
  }

  lemma AppendP2p(q: seq<Op>, c: nat, nColls: nat, before: nat, now: nat, tasks: seq<nat>)
    requires QueueOk(q, c, nColls, before) && before <= now && 1 <= now && nColls <= TOP
    ensures QueueOk(q + OpsWith(c, 2 * now + 1, tasks), c, nColls, now)
  {
    assert Key(2 * now + 1) == now + TOP;
    forall i | 0 <= i < |q| ensures Key(q[i].opCount) <= Key(2 * now + 1) { assert IdOk(q[i], c, nColls, before); }
    AppendLater(q, c, 2 * now + 1, tasks);
  }

  /** An item at or after the channel's last batch. */
  predicate Appendable(chan: WorkBatch.Chan, offset: nat) {
    chan.batches != [] ==> chan.batches[|chan.batches| - 1].offsetBase <= offset
  }

  /** Adding counts a point-to-point batch exactly if it starts one. */
  lemma AddCounts(chan: WorkBatch.Chan, x: WorkBatch.Item)
    requires Appendable(chan, x.offset)
    ensures Appendable(WorkBatch.Add(chan, x), x.offset)
    ensures WorkBatch.Add(chan, x).nBatchesP2p == chan.nBatchesP2p + if x.workType.P2p?
      && WorkBatch.NeedsBatch(chan, x) then 1 else 0
  {
  }

  /** The batch at the end of a channel is point-to-point only if one has been counted. */
  predicate Counted(chan: WorkBatch.Chan) {
    chan.batches != [] && chan.batches[|chan.batches| - 1].workType.P2p? ==> 1 <= chan.nBatchesP2p
  }

  /** The parts' operations follow what the lists held, and each part counted at most one batch. */
  ghost predicate Entered(queues0: seq<seq<Op>>, chans0: seq<WorkBatch.Chan>, queues: seq<seq<Op>>,
      chans: seq<WorkBatch.Chan>, parts: seq<Part>) {
    && |queues0| == |chans0| == |queues| == |chans| == MAXCHANNELS
    && forall c :: 0 <= c < MAXCHANNELS ==>
      && TasksOf(queues[c]) == TasksOf(queues0[c]) + PartTasks(parts, c)
      && chans0[c].nBatchesP2p <= chans[c].nBatchesP2p <= chans0[c].nBatchesP2p + |parts|
  }

  lemma EnteredToo(queues0: seq<seq<Op>>, chans0: seq<WorkBatch.Chan>, queues: seq<seq<Op>>, chans: seq<WorkBatch.Chan>,
                   queues': seq<seq<Op>>, chans': seq<WorkBatch.Chan>, parts: seq<Part>, k: nat)
    requires k < |parts| && Entered(queues0, chans0, queues, chans, parts[..k]) && parts[k].channel < MAXCHANNELS
    requires |queues'| == |chans'| == MAXCHANNELS
    requires forall c :: 0 <= c < MAXCHANNELS && c != parts[k].channel ==>
      queues'[c] == queues[c] && chans'[c] == chans[c]
    requires var c := parts[k].channel;
      TasksOf(queues'[c]) == TasksOf(queues[c]) + parts[k].tasks
      && chans[c].nBatchesP2p <= chans'[c].nBatchesP2p <= chans[c].nBatchesP2p + 1
    ensures Entered(queues0, chans0, queues', chans', parts[..k + 1])
  {
    assert parts[..k + 1][..k] == parts[..k];
  }

  /** A plan under construction. */
  class WipPlan {
    var chans: seq<WorkBatch.Chan>
    var queues: seq<seq<Op>>
    var workBytes: nat
    var collOpCount: nat

    ghost predicate Valid()
      reads this
    {
      && |chans| == |queues| == MAXCHANNELS
      && (forall c :: 0 <= c < MAXCHANNELS ==> Appendable(chans[c], workBytes) && Counted(chans[c]))
      && forall c :: 0 <= c < MAXCHANNELS ==> QueueOk(queues[c], c, collOpCount, chans[c].nBatchesP2p)
    }

    constructor ()
      ensures Valid() && collOpCount == 0 && workBytes == 0
      ensures forall c :: 0 <= c < MAXCHANNELS ==> queues[c] == [] && chans[c] == WorkBatch.Chan([], 0, [], 0)
    {
      chans, queues := seq(MAXCHANNELS, _ => WorkBatch.Chan([], 0, [], 0)), seq(MAXCHANNELS, _ => []);
      workBytes, collOpCount := 0, 0;
    }

    /** The part of scheduleCollTasksToPlan that numbers a collective and enters it on its channels. */
    method AddColl(s: CollStep)
      requires Valid() && s.Valid() && forall c :: 0 <= c < MAXCHANNELS ==> chans[c].nBatchesP2p == 0
      modifies this
      ensures Valid() && collOpCount == old(collOpCount) + 1
      ensures workBytes == old(workBytes) + WorkBatch.WorkSize(s.Type())
      ensures forall c :: 0 <= c < MAXCHANNELS ==>
        queues[c] == old(queues)[c] + OpsWith(c, 2 * old(collOpCount), s.TasksOn(c))
      ensures forall c :: 0 <= c < MAXCHANNELS ==> chans[c].nBatchesP2p == 0
    {
      var id := 2 * collOpCount;
      collOpCount := collOpCount + 1;
      var x := WorkBatch.Item(s.Type(), s.funcId, workBytes, -1);
      for c := s.lo to s.lo + |s.tasks|
        invariant |chans| == |queues| == MAXCHANNELS && workBytes == old(workBytes)
        invariant collOpCount == old(collOpCount) + 1
        invariant forall d :: 0 <= d < MAXCHANNELS ==>
          Appendable(chans[d], workBytes) && Counted(chans[d]) && chans[d].nBatchesP2p == 0
        invariant forall d :: 0 <= d < MAXCHANNELS ==>
          queues[d] == old(queues)[d] + if s.lo <= d < c then OpsWith(d, id, s.tasks[d - s.lo]) else []
      {
        AddCounts(chans[c], x);
        chans := chans[c := WorkBatch.Add(chans[c], x)];
        queues := queues[c := queues[c] + OpsWith(c, id, s.tasks[c - s.lo])];
      }
      workBytes := workBytes + WorkBatch.WorkSize(s.Type());
      forall c | 0 <= c < MAXCHANNELS ensures QueueOk(queues[c], c, collOpCount, chans[c].nBatchesP2p) {
        AppendColl(old(queues)[c], c, old(collOpCount), s.TasksOn(c));
      }
    }

    /** One part of a point-to-point work: the batch first, then its operations under that batch's id. */
    method AddPart(x: WorkBatch.Item, p: Part)
      requires Valid() && p.channel < MAXCHANNELS && x.workType.P2p? && x.offset == workBytes && collOpCount <= INT_MAX
      modifies this`chans, this`queues
      ensures Valid()
      ensures chans == old(chans)[p.channel := WorkBatch.Add(old(chans)[p.channel], x)]
      ensures var ops := OpsWith(p.channel, 2 * chans[p.channel].nBatchesP2p + 1, p.tasks);
        queues == old(queues)[p.channel := old(queues)[p.channel] + ops]
      ensures TasksOf(queues[p.channel]) == TasksOf(old(queues)[p.channel]) + p.tasks
      ensures old(chans)[p.channel].nBatchesP2p <= chans[p.channel].nBatchesP2p <= old(chans)[p.channel].nBatchesP2p + 1
    {
      var c := p.channel;
      AddCounts(chans[c], x);
      var chan := WorkBatch.Add(chans[c], x);
      var id := 2 * chan.nBatchesP2p + 1;
      AppendP2p(queues[c], c, collOpCount, chans[c].nBatchesP2p, chan.nBatchesP2p, p.tasks);
      TasksAppend(queues[c], c, id, p.tasks);
      chans := chans[c := chan];
      queues := queues[c := queues[c] + OpsWith(c, id, p.tasks)];
    }

    /** The tail of addP2pToPlan. */
    method AddP2p(s: P2pStep)
      requires Valid() && s.Valid() && collOpCount <= INT_MAX
      modifies this`chans, this`queues, this`workBytes
      ensures Valid() && workBytes == old(workBytes) + WorkBatch.WorkSize(WorkBatch.P2p)
      ensures Entered(old(queues), old(chans), queues, chans, s.parts)
    {
      var x := WorkBatch.Item(WorkBatch.P2p, s.funcId, workBytes, s.round);
      for k := 0 to |s.parts|
        invariant Valid() && workBytes == old(workBytes)
        invariant Entered(old(queues), old(chans), queues, chans, s.parts[..k])
      {
        ghost var q, n := queues, chans;
        AddPart(x, s.parts[k]);
        EnteredToo(old(queues), old(chans), q, n, queues, chans, s.parts, k);
      }
      assert s.parts[..|s.parts|] == s.parts;
      workBytes := workBytes + WorkBatch.WorkSize(WorkBatch.P2p);
    }
  }

  function TasksOf(q: seq<Op>): (ts: seq<nat>)
    ensures |ts| == |q|
  {
    seq(|q|, i requires 0 <= i < |q| => q[i].task)
  }

  lemma TasksAppend(q: seq<Op>, c: nat, id: nat, tasks: seq<nat>)
    ensures TasksOf(q + OpsWith(c, id, tasks)) == TasksOf(q) + tasks
  {
  }

  /** What the collectives and works of a plan ask of the proxy on a channel, in order. */
  function CollTasksOn(colls: seq<CollStep>, c: nat): seq<nat> {
    if colls == [] then [] else CollTasksOn(colls[..|colls| - 1], c) + colls[|colls| - 1].TasksOn(c)
  }

  function P2pTasksOn(p2ps: seq<P2pStep>, c: nat): seq<nat> {
    if p2ps == [] then [] else P2pTasksOn(p2ps[..|p2ps| - 1], c) + PartTasks(p2ps[|p2ps| - 1].parts, c)
  }

  function NParts(p2ps: seq<P2pStep>): nat {
    if p2ps == [] then 0 else NParts(p2ps[..|p2ps| - 1]) + |p2ps[|p2ps| - 1].parts|
  }

  /** What goes into one plan: its collectives, then its point-to-point works. */
  datatype Group = Group(colls: seq<CollStep>, p2ps: seq<P2pStep>) {
    predicate Valid() {
      && |colls| <= INT_MAX && NParts(p2ps) <= INT_MAX
      && (forall i :: 0 <= i < |colls| ==> colls[i].Valid()) && forall i :: 0 <= i < |p2ps| ==> p2ps[i].Valid()
    }

    function TasksOn(c: nat): seq<nat> { CollTasksOn(colls, c) + P2pTasksOn(p2ps, c) }
  }

  method AddColls(plan: WipPlan, colls: seq<CollStep>)
    requires plan.Valid() && plan.collOpCount == 0 && forall i :: 0 <= i < |colls| ==> colls[i].Valid()
    requires forall c :: 0 <= c < MAXCHANNELS ==> plan.queues[c] == [] && plan.chans[c].nBatchesP2p == 0
    modifies plan
    ensures plan.Valid() && plan.collOpCount == |colls|
    ensures forall c :: 0 <= c < MAXCHANNELS ==>
      TasksOf(plan.queues[c]) == CollTasksOn(colls, c) && plan.chans[c].nBatchesP2p == 0
  {
    for i := 0 to |colls|
      invariant plan.Valid() && plan.collOpCount == i
      invariant forall c :: 0 <= c < MAXCHANNELS ==>
        TasksOf(plan.queues[c]) == CollTasksOn(colls[..i], c) && plan.chans[c].nBatchesP2p == 0
    {
      assert colls[..i + 1][..i] == colls[..i];
      ghost var before := plan.queues;
      plan.AddColl(colls[i]);
      forall c | 0 <= c < MAXCHANNELS ensures TasksOf(plan.queues[c]) == CollTasksOn(colls[..i + 1], c) {
        TasksAppend(before[c], c, 2 * i, colls[i].TasksOn(c));
      }
    }
    assert colls[..|colls|] == colls;
  }

  method AddP2ps(plan: WipPlan, p2ps: seq<P2pStep>)
    requires plan.Valid() && plan.collOpCount <= INT_MAX && forall i :: 0 <= i < |p2ps| ==> p2ps[i].Valid()
    requires forall c :: 0 <= c < MAXCHANNELS ==> plan.chans[c].nBatchesP2p == 0
    modifies plan`chans, plan`queues, plan`workBytes
    ensures plan.Valid()
    ensures forall c :: 0 <= c < MAXCHANNELS ==>
      TasksOf(plan.queues[c]) == TasksOf(old(plan.queues)[c]) + P2pTasksOn(p2ps, c)
    ensures forall c :: 0 <= c < MAXCHANNELS ==> plan.chans[c].nBatchesP2p <= NParts(p2ps)
  {
    for i := 0 to |p2ps|
      invariant plan.Valid()
      invariant forall c :: 0 <= c < MAXCHANNELS ==>
        TasksOf(plan.queues[c]) == TasksOf(old(plan.queues)[c]) + P2pTasksOn(p2ps[..i], c)
      invariant forall c :: 0 <= c < MAXCHANNELS ==> plan.chans[c].nBatchesP2p <= NParts(p2ps[..i])
    {
      assert p2ps[..i + 1][..i] == p2ps[..i];
      plan.AddP2p(p2ps[i]);
    }
    assert p2ps[..|p2ps|] == p2ps;
  }

  /** The lists of a whole plan are in order, and numbered within its counts. */
  lemma ListsAreReady(queues: seq<seq<Op>>, nColls: nat, nP2ps: seq<nat>)
    requires |queues| == |nP2ps| == MAXCHANNELS && nColls <= INT_MAX
    requires forall c :: 0 <= c < MAXCHANNELS ==> QueueOk(queues[c], c, nColls, nP2ps[c]) && nP2ps[c] <= INT_MAX
    ensures WellTagged(queues) && AllSorted(queues)
  {
    forall c, i | 0 <= c < MAXCHANNELS && 0 <= i < |queues[c]|
      ensures queues[c][i].channel == c && queues[c][i].opCount < NONE
    {
      assert QueueOk(queues[c], c, nColls, nP2ps[c]) && IdOk(queues[c][i], c, nColls, nP2ps[c]);
    }
    forall c | 0 <= c < |queues| ensures Sorted(queues[c]) { assert QueueOk(queues[c], c, nColls, nP2ps[c]); }
  }

  /** A plan is built, merged and finished. */
  method MakePlan(g: Group) returns (plan: Plan)
    requires g.Valid()
    ensures PlanOk(plan) && Sorted(plan.ops) && plan.collOpCount == |g.colls|
    ensures forall c :: 0 <= c < MAXCHANNELS ==> TasksOf(Select(plan.ops, c)) == g.TasksOn(c)
  {
    var wip := new WipPlan();
    AddColls(wip, g.colls);
    AddP2ps(wip, g.p2ps);
    ghost var nP2ps: seq<nat> := seq(MAXCHANNELS,
      c requires 0 <= c < MAXCHANNELS reads wip requires |wip.chans| == MAXCHANNELS => wip.chans[c].nBatchesP2p);
    ListsAreReady(wip.queues, wip.collOpCount, nP2ps);
    var ops := Merge(wip.queues);
    MergedIsNumbered(wip.queues, ops, wip.collOpCount, nP2ps);
    MergedIsOk(ops, wip.collOpCount);
    plan := Plan(ops, wip.collOpCount);
  }

  lemma {:induction false} InSelect(ops: seq<Op>, i: nat)
    requires i < |ops|
    ensures ops[i] in Select(ops, ops[i].channel)
  {
    if i < |ops| - 1 { InSelect(ops[..|ops| - 1], i); }
  }

  lemma MergedIsNumbered(queues: seq<seq<Op>>, ops: seq<Op>, nColls: nat, nP2ps: seq<nat>)
    requires |queues| == |nP2ps| == MAXCHANNELS
    requires forall c :: 0 <= c < MAXCHANNELS ==> QueueOk(queues[c], c, nColls, nP2ps[c])
    requires forall c :: 0 <= c < MAXCHANNELS ==> Select(ops, c) == queues[c]
    requires forall i :: 0 <= i < |ops| ==> ops[i].channel < MAXCHANNELS
    ensures forall i :: 0 <= i < |ops| ==> !IsP2p(ops[i]) ==> ops[i].opCount / 2 < nColls
  {
    forall i | 0 <= i < |ops| && !IsP2p(ops[i]) ensures ops[i].opCount / 2 < nColls {
      var c := ops[i].channel;
      InSelect(ops, i);
      assert QueueOk(queues[c], c, nColls, nP2ps[c]);
      var k :| 0 <= k < |queues[c]| && queues[c][k] == ops[i];
      assert IdOk(queues[c][k], c, nColls, nP2ps[c]);
    }
  }

  /** No id is given twice: an operation uploaded later has the greater id among those it is compared with. */
  ghost predicate NoIdTwice(uploads: seq<seq<Op>>) {
    forall k, l, i, j ::
      && 0 <= k < l < |uploads| && 0 <= i < |uploads[k]| && 0 <= j < |uploads[l]|
      && Comparable(uploads[k][i], uploads[l][j])
      ==> uploads[k][i].opCount < uploads[l][j].opCount
  }

  /** Operations that the proxy orders by id: two collectives, or two point-to-point operations of a channel. */
  predicate Comparable(a: Op, b: Op) { IsP2p(a) == IsP2p(b) && (IsP2p(a) ==> a.channel == b.channel) }

  method MakePlans(groups: seq<Group>) returns (plans: seq<Plan>)
    requires forall k :: 0 <= k < |groups| ==> groups[k].Valid()
    ensures |plans| == |groups| && forall k :: 0 <= k < |plans| ==> PlanOk(plans[k])
    ensures forall k, c :: 0 <= k < |groups| && 0 <= c < MAXCHANNELS ==>
      TasksOf(Select(plans[k].ops, c)) == groups[k].TasksOn(c)
  {
    plans := [];
    for k := 0 to |groups|
      invariant |plans| == k && forall l :: 0 <= l < k ==> PlanOk(plans[l])
      invariant forall l, c :: 0 <= l < k && 0 <= c < MAXCHANNELS ==>
        TasksOf(Select(plans[l].ops, c)) == groups[l].TasksOn(c)
    {
      var plan := MakePlan(groups[k]);
      plans := plans + [plan];
    }
  }

  /** Any plans, built from their tasks and uploaded one after the other. */
  method PlanAndUpload(h: Counters, groups: seq<Group>) returns (uploads: seq<seq<Op>>)
    requires |h.p2p| == MAXCHANNELS && forall k :: 0 <= k < |groups| ==> groups[k].Valid()
    ensures |uploads| == |groups| && NoIdTwice(uploads)
    ensures forall k, c :: 0 <= k < |groups| && 0 <= c < MAXCHANNELS ==>
      TasksOf(Select(uploads[k], c)) == groups[k].TasksOn(c)
  {
    var plans := MakePlans(groups);
    ghost var hs;
    uploads, hs := UploadAll(h, plans);
    forall k, l, i, j | 0 <= k < l < |uploads| && 0 <= i < |uploads[k]| && 0 <= j < |uploads[l]|
    && Comparable(uploads[k][i], uploads[l][j])
      ensures uploads[k][i].opCount < uploads[l][j].opCount
    {
      UploadsNeverCollide(hs, uploads, k, l, i, j);
    }
    forall k, c | 0 <= k < |groups| && 0 <= c < MAXCHANNELS
      ensures TasksOf(Select(uploads[k], c)) == groups[k].TasksOn(c)
    {
      TranslatedTasks(hs[k], plans[k].ops, c);
    }
  }

  lemma {:induction false} TranslatedTasks(h: Counters, ops: seq<Op>, c: nat)
    requires |h.p2p| == MAXCHANNELS && forall i :: 0 <= i < |ops| ==> ops[i].channel < MAXCHANNELS
    ensures TasksOf(Select(Translated(h, ops), c)) == TasksOf(Select(ops, c))
  {
    if ops == [] {
      assert Translated(h, ops) == [];
    } else {
      var n := |ops| - 1;
      TranslatedTasks(h, ops[..n], c);
      assert Translated(h, ops) == Translated(h, ops[..n]) + [Translate(h, ops[n])];
      SelectAppend(Translated(h, ops[..n]), Translate(h, ops[n]), c);
      var a, b := Select(ops[..n], c), Select(Translated(h, ops[..n]), c);
      assert a + [] == a && b + [] == b;
      assert TasksOf(a + [ops[n]]) == TasksOf(a) + [ops[n].task];
      assert TasksOf(b + [Translate(h, ops[n])]) == TasksOf(b) + [ops[n].task];
    }
  }
}
