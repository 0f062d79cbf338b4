/**
 Cutting the queued tasks into plans. Collectives are planned first; point-to-point tasks are then
 swept peer by peer in schedule order. A plan is closed when its next task might not fit the kernel
 arguments and the buffer behind them.
 */
module PlanLoop {
  import opened Arith
  import opened Sequences
  import P2pSchedule

  const ARGS_HEADER: nat := 32
  const BATCH_BYTES: nat := 16
  const P2P_BYTES: nat := 48
  const MAX_COLL_BYTES: nat := 288

  // ---- budget ----

  datatype Budget = Budget(inArgs: int, outArgs: int)

  /** testBudget. */
  predicate Fits(b: Budget, nBatches: nat, workBytes: nat) {
    || BATCH_BYTES * nBatches + workBytes <= b.inArgs
    || (BATCH_BYTES * nBatches <= b.inArgs && workBytes <= b.outArgs)
  }

  lemma FitsLess(b: Budget, nBatches: nat, workBytes: nat, nBatches': nat, workBytes': nat)
    requires Fits(b, nBatches, workBytes) && nBatches' <= nBatches && workBytes' <= workBytes
    ensures Fits(b, nBatches', workBytes')
  {
  }

  /** Collective tasks are told apart by `id`; the work struct takes 96 or 288 bytes. */
  datatype CollTask = CollTask(id: nat, workSize: nat)

  datatype P2pTask = P2pTask(peer: nat, send: bool, buff: nat, id: nat)

  datatype Plan = Plan(nBatches: nat, workBytes: nat, colls: seq<CollTask>, p2ps: seq<P2pTask>)

  const EMPTY: Plan := Plan(0, 0, [], [])

  datatype Status = Success | InvalidUsage

  /** What finishPlan makes of a plan: everything goes into the kernel arguments if it fits. */
  function KernelArgsSize(plan: Plan, workArgsBytes: nat): nat {
    var batches := ARGS_HEADER + BATCH_BYTES * plan.nBatches;
    AlignUp(batches + if batches + plan.workBytes <= workArgsBytes then plan.workBytes else 0, 16)
  }

  /**
   A plan within the budget: the 4 KB of arguments hold its batches, and hold the work or leave it to a buffer large
   enough.
   */
  lemma FinishedPlanFits(plan: Plan, workArgsBytes: nat, outArgs: nat)
    requires workArgsBytes <= 4096 && Fits(Budget(workArgsBytes - ARGS_HEADER, outArgs), plan.nBatches, plan.workBytes)
    ensures KernelArgsSize(plan, workArgsBytes) <= 4096
    ensures ARGS_HEADER + BATCH_BYTES * plan.nBatches + plan.workBytes <= workArgsBytes || plan.workBytes <= outArgs
  {
    var batches := ARGS_HEADER + BATCH_BYTES * plan.nBatches;
    AlignUpLe(batches + if batches + plan.workBytes <= workArgsBytes then plan.workBytes else 0, 16, 4096);
  }

  // ---- point-to-point queues ----

  type Queues = seq<seq<P2pTask>>

  predicate Tagged(q: Queues, send: bool) {
    forall p, i :: 0 <= p < |q| && 0 <= i < |q[p]| ==> q[p][i].peer == p && q[p][i].send == send
  }

  /** A task that left its queue, into the plan or, as part of an in-place send to self, to nowhere. */
  datatype Done = Done(task: P2pTask, skipped: bool)

  ghost function Taken(done: seq<Done>, p: nat, send: bool): seq<P2pTask> {
    if done == [] then [] else
    var d := done[|done| - 1].task;
    Taken(done[..|done| - 1], p, send) + if d.peer == p && d.send == send then [d] else []
  }

  ghost function Planned(done: seq<Done>): seq<P2pTask> {
    if done == [] then [] else
    var d := done[|done| - 1];
    Planned(done[..|done| - 1]) + if d.skipped then [] else [d.task]
  }

  lemma DoneAppend(done: seq<Done>, d: Done, p: nat, send: bool)
    ensures Taken(done + [d], p, send) == Taken(done, p, send) + if d.task.peer == p
      && d.task.send == send then [d.task] else []
    ensures Planned(done + [d]) == Planned(done) + if d.skipped then [] else [d.task]
  {
    assert (done + [d])[..|done|] == done;
  }

  /** What happened to the tasks of one queue. */
  ghost function EntriesOf(done: seq<Done>, p: nat, send: bool): seq<Done> {
    if done == [] then [] else
    var d := done[|done| - 1];
    EntriesOf(done[..|done| - 1], p, send) + if d.task.peer == p && d.task.send == send then [d] else []
  }

  /** Only sends to self are skipped, with the receive they match, and exactly if both are the same buffer. */
  ghost predicate SkipsOk(done: seq<Done>, rank: nat) {
    && (forall i :: 0 <= i < |done| && done[i].skipped ==> done[i].task.peer == rank)
    && MatchedSkips(EntriesOf(done, rank, true), EntriesOf(done, rank, false))
  }

  ghost predicate MatchedSkips(a: seq<Done>, b: seq<Done>) {
    |a| == |b| && forall k :: 0 <= k < |a| ==> a[k].skipped == b[k].skipped == (a[k].task.buff == b[k].task.buff)
  }

  lemma {:induction false} EntriesJoin(a: seq<Done>, b: seq<Done>, p: nat, send: bool)
    ensures EntriesOf(a + b, p, send) == EntriesOf(a, p, send) + EntriesOf(b, p, send)
  {
    if b == [] {
      assert a + b == a;
    } else {
      EntriesJoin(a, b[..|b| - 1], p, send);
      assert (a + b)[..|a + b| - 1] == a + b[..|b| - 1];
    }
  }

  lemma SkipsJoin(a: seq<Done>, b: seq<Done>, rank: nat)
    requires SkipsOk(a, rank) && SkipsOk(b, rank)
    ensures SkipsOk(a + b, rank)
  {
    EntriesJoin(a, b, rank, true);
    EntriesJoin(a, b, rank, false);
  }

  function HeadEntry(q: seq<P2pTask>, skipped: bool): seq<Done> { if q == [] then [] else [Done(q[0], skipped)] }

  lemma HeadEntries(q: seq<P2pTask>, p: nat, send: bool, skipped: bool, rank: nat)
    requires q != [] ==> q[0].peer == p && q[0].send == send
    ensures EntriesOf(HeadEntry(q, skipped), rank, send) == if p == rank then HeadEntry(q, skipped) else []
    ensures EntriesOf(HeadEntry(q, skipped), rank, !send) == []
  {
    assert HeadEntry(q, skipped)[..0] == [];
  }

  /** A round with another rank plans both heads; a round with self skips both or plans both. */
  lemma RoundSkips(send: seq<P2pTask>, recv: seq<P2pTask>, p: nat, r: nat, rank: nat, skipped: bool)
    requires (send != [] ==> send[0].peer == p && send[0].send) && (recv != [] ==> recv[0].peer == r && !recv[0].send)
    requires (p == rank <==> r == rank) && (skipped ==> p == rank)
    requires p == rank ==> send != [] && recv != [] && skipped == (send[0].buff == recv[0].buff)
    ensures SkipsOk(HeadEntry(send, skipped) + HeadEntry(recv, skipped), rank)
  {
    var a, b := HeadEntry(send, skipped), HeadEntry(recv, skipped);
    EntriesJoin(a, b, rank, true);
    EntriesJoin(a, b, rank, false);
    HeadEntries(send, p, true, skipped, rank);
    HeadEntries(recv, r, false, skipped, rank);
  }

  lemma PairSkips(send: seq<P2pTask>, recv: seq<P2pTask>, p: nat, r: nat, rank: nat, skipped: bool, done: seq<Done>,
      done': seq<Done>)
    requires (send != [] ==> send[0].peer == p && send[0].send) && (recv != [] ==> recv[0].peer == r && !recv[0].send)
    requires (p == rank <==> r == rank) && (skipped ==> p == rank)
    requires p == rank ==> send != [] && recv != [] && skipped == (send[0].buff == recv[0].buff)
    requires SkipsOk(done, rank) && done' == done + (HeadEntry(send, skipped) + HeadEntry(recv, skipped))
    ensures SkipsOk(done', rank)
  {
    RoundSkips(send, recv, p, r, rank, skipped);
    SkipsJoin(done, HeadEntry(send, skipped) + HeadEntry(recv, skipped), rank);
  }

  /** Every queue lost a prefix, in order. */
  ghost predicate Conserved(q0: Queues, q: Queues, done: seq<Done>, send: bool) {
    |q| == |q0| && forall p :: 0 <= p < |q| ==> Taken(done, p, send) + q[p] == q0[p]
  }

  lemma TakeOwn(q0: Queues, q: Queues, done: seq<Done>, send: bool, p: nat, skipped: bool)
    requires Conserved(q0, q, done, send) && Tagged(q0, send) && p < |q| && q[p] != []
    ensures q[p][0].peer == p && q[p][0].send == send
    ensures Conserved(q0, q[p := q[p][1..]], done + [Done(q[p][0], skipped)], send)
  {
    var x := q[p][0];
    MoveOver(Taken(done, p, send), q[p], q0[p]);
    var q', done' := q[p := q[p][1..]], done + [Done(x, skipped)];
    forall k | 0 <= k < |q| ensures Taken(done', k, send) + q'[k] == q0[k] {
      DoneAppend(done, Done(x, skipped), k, send);
      if k != p { assert Taken(done', k, send) == Taken(done, k, send); }
    }
  }

  lemma MoveOver(a: seq<P2pTask>, q: seq<P2pTask>, all: seq<P2pTask>)
    requires a + q == all && q != []
    ensures q[0] == all[|a|] && a + [q[0]] + q[1..] == all
  {
  }

  lemma MoveColl(a: seq<CollTask>, q: seq<CollTask>, all: seq<CollTask>)
    requires a + q == all && q != []
    ensures q[0] == all[|a|] && a + [q[0]] + q[1..] == all && |q[1..]| < |q|
  {
  }

  lemma TakeOther(r0: Queues, r: Queues, done: seq<Done>, send: bool, d: Done)
    requires Conserved(r0, r, done, send) && d.task.send != send
    ensures Conserved(r0, r, done + [d], send)
  {
    forall k | 0 <= k < |r| ensures Taken(done + [d], k, send) + r[k] == r0[k] {
      DoneAppend(done, d, k, send);
    }
  }

  /** The queues and the task count, since they were `send0` and `recv0`. */
  ghost predicate Since(send0: Queues, recv0: Queues, send: Queues, recv: Queues, n: nat, done: seq<Done>) {
    && Tagged(send0, true) && Tagged(recv0, false)
    && Conserved(send0, send, done, true) && Conserved(recv0, recv, done, false)
    && n == SumLen(send) + SumLen(recv)
  }

  lemma TakeSend(send0: Queues, recv0: Queues, send: Queues, recv: Queues, n: nat, done: seq<Done>, p: nat,
      skipped: bool)
    requires Since(send0, recv0, send, recv, n, done) && p < |send| && send[p] != []
    ensures send[p][0].peer == p && send[p][0].send && 0 < n
    ensures Since(send0, recv0, send[p := send[p][1..]], recv, n - 1, done + [Done(send[p][0], skipped)])
  {
    TakeOwn(send0, send, done, true, p, skipped);
    TakeOther(recv0, recv, done, false, Done(send[p][0], skipped));
    SumLenUpdate(send, p, send[p][1..]);
  }

  lemma TakeRecv(send0: Queues, recv0: Queues, send: Queues, recv: Queues, n: nat, done: seq<Done>, p: nat,
      skipped: bool)
    requires Since(send0, recv0, send, recv, n, done) && p < |recv| && recv[p] != []
    ensures recv[p][0].peer == p && !recv[p][0].send && 0 < n
    ensures Since(send0, recv0, send, recv[p := recv[p][1..]], n - 1, done + [Done(recv[p][0], skipped)])
  {
    TakeOwn(recv0, recv, done, false, p, skipped);
    TakeOther(send0, send, done, true, Done(recv[p][0], skipped));
    SumLenUpdate(recv, p, recv[p][1..]);
  }

  function Head(q: seq<P2pTask>): seq<P2pTask> { if q == [] then [] else [q[0]] }

  function Pop(q: Queues, p: nat): Queues
    requires p < |q|
  {
    if q[p] == [] then q else q[p := q[p][1..]]
  }

  /** Self is met in both directions at once, so sends and receives to self go in pairs. */
  lemma PopKeepsSkew(send: Queues, recv: Queues, p: nat, r: nat, rank: nat)
    requires p < |send| && r < |recv| && rank < |send| && rank < |recv| && (p == rank <==> r == rank)
    requires p == rank ==> (send[p] == [] <==> recv[r] == [])
    ensures |Pop(send, p)| == |send| && |Pop(recv, r)| == |recv|
    ensures |Pop(send, p)[rank]| - |Pop(recv, r)[rank]| == |send[rank]| - |recv[rank]|
  {
  }

  lemma PopSend(send0: Queues, recv0: Queues, send: Queues, recv: Queues, n: nat, done: seq<Done>, p: nat,
      skipped: bool)
    returns (done': seq<Done>)
    requires Since(send0, recv0, send, recv, n, done) && p < |send|
    ensures |Head(send[p])| <= n && Since(send0, recv0, Pop(send, p), recv, n - |Head(send[p])|, done')
    ensures done' == done + HeadEntry(send[p], skipped) && (send[p] != [] ==> send[p][0].peer == p && send[p][0].send)
    ensures Planned(done') == Planned(done) + if skipped then [] else Head(send[p])
  {
    done' := done;
    if send[p] == [] {
      assert Planned(done) + [] == Planned(done);
    } else {
      TakeSend(send0, recv0, send, recv, n, done, p, skipped);
      DoneAppend(done, Done(send[p][0], skipped), 0, true);
      done' := done + [Done(send[p][0], skipped)];
    }
  }

  lemma PopRecv(send0: Queues, recv0: Queues, send: Queues, recv: Queues, n: nat, done: seq<Done>, p: nat,
      skipped: bool)
    returns (done': seq<Done>)
    requires Since(send0, recv0, send, recv, n, done) && p < |recv|
    ensures |Head(recv[p])| <= n && Since(send0, recv0, send, Pop(recv, p), n - |Head(recv[p])|, done')
    ensures done' == done + HeadEntry(recv[p], skipped) && (recv[p] != [] ==> recv[p][0].peer == p && !recv[p][0].send)
    ensures Planned(done') == Planned(done) + if skipped then [] else Head(recv[p])
  {
    done' := done;
    if recv[p] == [] {
      assert Planned(done) + [] == Planned(done);
    } else {
      TakeRecv(send0, recv0, send, recv, n, done, p, skipped);
      DoneAppend(done, Done(recv[p][0], skipped), 0, true);
      done' := done + [Done(recv[p][0], skipped)];
    }
  }

  /** Both heads of a round. */
  lemma TakePair(send0: Queues, recv0: Queues, send: Queues, recv: Queues, n: nat, done: seq<Done>, p: nat, r: nat,
      skipped: bool)
    returns (done': seq<Done>)
    requires Since(send0, recv0, send, recv, n, done) && p < |send| && r < |recv|
    ensures |Head(send[p])| + |Head(recv[r])| <= n
    ensures Since(send0, recv0, Pop(send, p), Pop(recv, r), n - |Head(send[p])| - |Head(recv[r])|, done')
    ensures done' == done + (HeadEntry(send[p], skipped) + HeadEntry(recv[r], skipped))
    ensures (send[p] != [] ==> send[p][0].peer == p && send[p][0].send)
    ensures (recv[r] != [] ==> recv[r][0].peer == r && !recv[r][0].send)
    ensures Planned(done') == Planned(done) + if skipped then [] else Head(send[p]) + Head(recv[r])
  {
    var done1 := PopSend(send0, recv0, send, recv, n, done, p, skipped);
    done' := PopRecv(send0, recv0, Pop(send, p), recv, n - |Head(send[p])|, done1, r, skipped);
    JoinPlanned(Planned(done), Head(send[p]), Head(recv[r]), skipped);
    JoinEntries(done, HeadEntry(send[p], skipped), HeadEntry(recv[r], skipped));
  }

  lemma JoinEntries(a: seq<Done>, b: seq<Done>, c: seq<Done>)
    ensures (a + b) + c == a + (b + c)
  {
  }

  /** Both heads of a round of rank `rank`; those of a round with self are skipped if they are the same buffer. */
  lemma TakeHeads(send0: Queues, recv0: Queues, send: Queues, recv: Queues, n: nat, done: seq<Done>, p: nat, r: nat,
      rank: nat, skipped: bool)
    returns (done': seq<Done>)
    requires Since(send0, recv0, send, recv, n, done) && SkipsOk(done, rank) && p < |send| && r < |recv|
    requires rank < |send| && rank < |recv|
    requires (p == rank <==> r == rank) && (p == rank ==> send[rank] != [] && recv[rank] != [])
    requires skipped <==> p == rank && send[rank][0].buff == recv[rank][0].buff
    ensures |Head(send[p])| + |Head(recv[r])| <= n
    ensures Since(send0, recv0, Pop(send, p), Pop(recv, r), n - |Head(send[p])| - |Head(recv[r])|, done')
    ensures SkipsOk(done', rank)
    ensures Planned(done') == Planned(done) + if skipped then [] else Head(send[p]) + Head(recv[r])
    ensures |Pop(send, p)| == |send| && |Pop(recv, r)| == |recv|
    ensures |Pop(send, p)[rank]| - |Pop(recv, r)[rank]| == |send[rank]| - |recv[rank]|
  {
    done' := TakePair(send0, recv0, send, recv, n, done, p, r, skipped);
    PairSkips(send[p], recv[r], p, r, rank, skipped, done, done');
    PopKeepsSkew(send, recv, p, r, rank);
  }

  lemma JoinPlanned(before: seq<P2pTask>, a: seq<P2pTask>, b: seq<P2pTask>, skipped: bool)
    ensures (before + if skipped then [] else a) + (if skipped then [] else b) == before + if skipped then [] else a + b
  {
  }

  /** The schedule meets every peer once in each direction, and itself in the same round. */
  ghost predicate ScheduleOk(sched: seq<P2pSchedule.Round>, nRanks: nat, rank: nat) {
    && (forall k :: 0 <= k < |sched| ==>
        sched[k].send < nRanks && sched[k].recv < nRanks && (sched[k].send == rank <==> sched[k].recv == rank))
    && forall p :: 0 <= p < nRanks ==> Meets(sched, p)
  }

  ghost predicate Meets(sched: seq<P2pSchedule.Round>, p: nat) {
    && (exists k :: 0 <= k < |sched| && sched[k].send == p)
    && exists k :: 0 <= k < |sched| && sched[k].recv == p
  }

  /** The computed schedule does. */
  lemma BuiltScheduleOk(g: P2pSchedule.Grid, rank: nat, sched: seq<P2pSchedule.Round>)
    requires g.Valid() && rank < |g.node| && P2pSchedule.IsSchedule(g, rank, sched)
    ensures ScheduleOk(sched, |g.node|, rank)
  {
    P2pSchedule.PeersArePermutations(g, rank, sched);
    var sends := seq(|sched|, k requires 0 <= k < |sched| => sched[k].send);
    var recvs := seq(|sched|, k requires 0 <= k < |sched| => sched[k].recv);
    forall k | 0 <= k < |sched|
      ensures sched[k].send < |g.node| && sched[k].recv < |g.node| && (sched[k].send == rank <==> sched[k].recv == rank)
    {
      P2pSchedule.RoundsMatch(g, rank, rank, sched, sched, k);
      assert sends[k] == sched[k].send && recvs[k] == sched[k].recv;
    }
    forall p: nat | p < |g.node| ensures Meets(sched, p) {
      assert p in sends && p in recvs;
      var i :| 0 <= i < |sends| && sends[i] == p;
      var j :| 0 <= j < |recvs| && recvs[j] == p;
      assert sched[i].send == p && sched[j].recv == p;
    }
  }

  lemma {:induction false} AllEmpty(q: Queues)
    requires forall p :: 0 <= p < |q| ==> q[p] == []
    ensures SumLen(q) == 0
  {
    if q != [] { AllEmpty(q[..|q| - 1]); }
  }

  /** Queues that a whole sweep found empty. */
  ghost predicate FoundEmpty(sched: seq<P2pSchedule.Round>, end: nat, send: Queues, recv: Queues) {
    end <= |sched| && forall j :: 0 <= j < end ==>
      sched[j].send < |send| && sched[j].recv < |recv| && send[sched[j].send] == [] && recv[sched[j].recv] == []
  }

  lemma FoundEmptyToo(sched: seq<P2pSchedule.Round>, k: nat, send: Queues, recv: Queues)
    requires k < |sched| && FoundEmpty(sched, k, send, recv)
    requires sched[k].send < |send| && sched[k].recv < |recv| && send[sched[k].send] == [] && recv[sched[k].recv] == []
    ensures FoundEmpty(sched, k + 1, send, recv)
  {
  }

  lemma SweepMeetsAll(sched: seq<P2pSchedule.Round>, rank: nat, send: Queues, recv: Queues)
    requires |send| == |recv| && ScheduleOk(sched, |send|, rank) && FoundEmpty(sched, |sched|, send, recv)
    ensures SumLen(send) + SumLen(recv) == 0
  {
    forall p | 0 <= p < |send| ensures send[p] == [] && recv[p] == [] {
      assert Meets(sched, p);
      var i :| 0 <= i < |sched| && sched[i].send == p;
      var j :| 0 <= j < |sched| && sched[j].recv == p;
      assert send[sched[i].send] == [] && recv[sched[j].recv] == [];
    }
    AllEmpty(send);
    AllEmpty(recv);
  }

  // ---- the planner ----

  datatype Outcome = Next | Full | Invalid

  /** A point-to-point work enters the plan: one struct, and at most one new batch on each channel. */
  method AddP2p(b: Budget, nChannelsMax: nat, plan: Plan, tasks: seq<P2pTask>) returns (plan': Plan)
    requires Fits(b, plan.nBatches + nChannelsMax, plan.workBytes + P2P_BYTES)
    ensures plan'.colls == plan.colls && plan'.p2ps == plan.p2ps + tasks
    ensures plan'.workBytes == plan.workBytes + P2P_BYTES
    ensures Fits(b, plan'.nBatches, plan'.workBytes) && Fits(b, nChannelsMax, P2P_BYTES)
  {
    var added: nat :| added <= nChannelsMax;
    plan' := Plan(plan.nBatches + added, plan.workBytes + P2P_BYTES, plan.colls, plan.p2ps + tasks);
    FitsLess(b, plan.nBatches + nChannelsMax, plan.workBytes + P2P_BYTES, nChannelsMax, P2P_BYTES);
  }

  /** A plan that took on point-to-point work is still within the budget. */
  ghost predicate Grown(b: Budget, nChannelsMax: nat, plan0: Plan, plan: Plan) {
    plan == plan0
    || (Fits(b, plan.nBatches, plan.workBytes) && plan0.workBytes < plan.workBytes && Fits(b, nChannelsMax, P2P_BYTES))
  }

  /** A plan of collectives within the budget. */
  ghost predicate CollPlanOk(b: Budget, plan: Plan) {
    plan != EMPTY ==>
      && Fits(b, plan.nBatches, plan.workBytes) && 0 < plan.workBytes
      && plan.colls != [] && Fits(b, 1, plan.colls[0].workSize)
  }

  lemma CollPlanGrows(b: Budget, plan: Plan, task: CollTask, nChannels: nat, added: nat)
    requires CollPlanOk(b, plan) && added <= nChannels && 0 < nChannels && 0 < task.workSize
    requires Fits(b, plan.nBatches + nChannels, plan.workBytes + task.workSize)
    ensures var plan' := Plan(plan.nBatches + added, plan.workBytes + task.workSize, plan.colls + [task], []);
      plan' != EMPTY && CollPlanOk(b, plan')
  {
    FitsLess(b, plan.nBatches + nChannels, plan.workBytes + task.workSize, 1, task.workSize);
  }

  class Planner {
    var collQueue: seq<CollTask>
    var sendQueue: Queues
    var recvQueue: Queues
    var nTasksP2p: nat

    ghost predicate Valid()
      reads this
    {
      && |sendQueue| == |recvQueue| && nTasksP2p == SumLen(sendQueue) + SumLen(recvQueue)
      && Tagged(sendQueue, true) && Tagged(recvQueue, false)
    }

    /** How many more sends than receives there are to self. */
    ghost function Skew(rank: nat): int
      reads this
      requires rank < |sendQueue| && rank < |recvQueue|
    {
      |sendQueue[rank]| - |recvQueue[rank]|
    }

    /** Take the tasks of a round out of their queues. */
    method TakeRound(round: P2pSchedule.Round, rank: nat, ghost skipped: bool, ghost send0: Queues, ghost recv0: Queues,
        ghost done: seq<Done>)
      returns (ghost done': seq<Done>)
      requires Since(send0, recv0, sendQueue, recvQueue, nTasksP2p, done)
      requires round.send < |sendQueue| == |recvQueue| && round.recv < |recvQueue| && rank < |sendQueue|
      requires (round.send == rank <==> round.recv == rank)
      requires (round.send == rank ==> (sendQueue[rank] == [] <==> recvQueue[rank] == []))
      requires sendQueue[round.send] != [] || recvQueue[round.recv] != []
      requires SkipsOk(done, rank)
      requires (skipped <==> round.send == rank && sendQueue[rank][0].buff == recvQueue[rank][0].buff)
      modifies this`sendQueue, this`recvQueue, this`nTasksP2p
      ensures Since(send0, recv0, sendQueue, recvQueue, nTasksP2p, done') && SkipsOk(done', rank)
      ensures Planned(done') == Planned(done) + if skipped then []
        else Head(old(sendQueue)[round.send]) + Head(old(recvQueue)[round.recv])
      ensures |sendQueue| == |recvQueue| == |old(sendQueue)| && Skew(rank) == old(Skew(rank))
      ensures nTasksP2p < old(nTasksP2p)
    {
      done' := TakeHeads(send0, recv0, sendQueue, recvQueue, nTasksP2p, done, round.send, round.recv, rank, skipped);
      nTasksP2p := nTasksP2p - |Head(sendQueue[round.send])| - |Head(recvQueue[round.recv])|;
      sendQueue, recvQueue := Pop(sendQueue, round.send), Pop(recvQueue, round.recv);
    }

    /** One round of a sweep; the plan grows by one work and at most one batch per channel. */
    method ServeRound(round: P2pSchedule.Round, rank: nat, b: Budget, nChannelsMax: nat, plan: Plan,
        ghost send0: Queues, ghost recv0: Queues, ghost done: seq<Done>)
      returns (outcome: Outcome, plan': Plan, ghost done': seq<Done>)
      requires Since(send0, recv0, sendQueue, recvQueue, nTasksP2p, done)
      requires round.send < |sendQueue| == |recvQueue| && round.recv < |recvQueue| && plan.p2ps == Planned(done)
      requires rank < |sendQueue| && (round.send == rank <==> round.recv == rank) && SkipsOk(done, rank)
      modifies this`sendQueue, this`recvQueue, this`nTasksP2p
      ensures Since(send0, recv0, sendQueue, recvQueue, nTasksP2p, done') && plan'.p2ps == Planned(done')
      ensures plan'.colls == plan.colls
      ensures outcome != Next ==> unchanged(this) && plan' == plan && done' == done
      ensures SkipsOk(done', rank)
      ensures |sendQueue| == |recvQueue| == |old(sendQueue)| && Skew(rank) == old(Skew(rank))
      ensures nTasksP2p <= old(nTasksP2p)
      ensures outcome == Next && nTasksP2p == old(nTasksP2p) ==>
        unchanged(this) && sendQueue[round.send] == [] && recvQueue[round.recv] == []
      ensures Grown(b, nChannelsMax, plan, plan') && (plan' == plan || plan'.workBytes == plan.workBytes + P2P_BYTES)
      ensures nTasksP2p == old(nTasksP2p) ==> plan' == plan
      ensures outcome == Full ==> !Fits(b, plan.nBatches + nChannelsMax, plan.workBytes + P2P_BYTES)
      ensures outcome == Invalid ==> Skew(rank) != 0
    {
      plan', done' := plan, done;
      var send, recv := sendQueue[round.send], recvQueue[round.recv];
      if send == [] && recv == [] { return Next, plan, done; }
      if round.send == rank && (send == []) != (recv == []) { return Invalid, plan, done; }
      var skipped := round.send == rank && send[0].buff == recv[0].buff;
      if !skipped {
        if !Fits(b, plan.nBatches + nChannelsMax, plan.workBytes + P2P_BYTES) { return Full, plan, done; }
        plan' := AddP2p(b, nChannelsMax, plan, Head(send) + Head(recv));
      }
      done' := TakeRound(round, rank, skipped, send0, recv0, done);
      outcome := Next;
    }

    /** All rounds once. A sweep that ends has taken something. */
    method Sweep(sched: seq<P2pSchedule.Round>, rank: nat, b: Budget, nChannelsMax: nat, plan0: Plan,
        ghost send0: Queues, ghost recv0: Queues, ghost done0: seq<Done>)
      returns (outcome: Outcome, plan: Plan, ghost done: seq<Done>)
      requires Since(send0, recv0, sendQueue, recvQueue, nTasksP2p, done0) && |sendQueue| == |recvQueue|
      requires rank < |sendQueue| && ScheduleOk(sched, |sendQueue|, rank) && plan0.p2ps == Planned(done0)
      requires SkipsOk(done0, rank)
      modifies this`sendQueue, this`recvQueue, this`nTasksP2p
      ensures Since(send0, recv0, sendQueue, recvQueue, nTasksP2p, done) && plan.p2ps == Planned(done)
      ensures plan.colls == plan0.colls
      ensures |sendQueue| == |recvQueue| == |old(sendQueue)| && Skew(rank) == old(Skew(rank))
      ensures Grown(b, nChannelsMax, plan0, plan)
      ensures outcome == Next && old(nTasksP2p) != 0 ==> nTasksP2p < old(nTasksP2p)
      ensures outcome == Full ==> !Fits(b, plan.nBatches + nChannelsMax, plan.workBytes + P2P_BYTES)
      ensures outcome == Invalid ==> Skew(rank) != 0
      ensures nTasksP2p <= old(nTasksP2p) && (nTasksP2p == old(nTasksP2p) ==> plan == plan0)
      ensures SkipsOk(done, rank)
    {
      outcome, plan, done := Next, plan0, done0;
      for k := 0 to |sched|
        invariant Since(send0, recv0, sendQueue, recvQueue, nTasksP2p, done) && plan.p2ps == Planned(done)
        invariant plan.colls == plan0.colls
        invariant |sendQueue| == |recvQueue| == |old(sendQueue)| && Skew(rank) == old(Skew(rank))
        invariant nTasksP2p <= old(nTasksP2p)
        invariant Grown(b, nChannelsMax, plan0, plan) && outcome == Next && SkipsOk(done, rank)
        invariant nTasksP2p == old(nTasksP2p) ==> plan == plan0 && FoundEmpty(sched, k, sendQueue, recvQueue)
      {
        outcome, plan, done := ServeRound(sched[k], rank, b, nChannelsMax, plan, send0, recv0, done);
        if outcome != Next { return; }
        if nTasksP2p == old(nTasksP2p) { FoundEmptyToo(sched, k, sendQueue, recvQueue); }
      }
      if nTasksP2p == old(nTasksP2p) { SweepMeetsAll(sched, rank, sendQueue, recvQueue); }
    }

    /** scheduleP2pTasksToPlan: sweeps until nothing is left or the plan is full. */
    method ScheduleP2p(sched: seq<P2pSchedule.Round>, rank: nat, b: Budget, nChannelsMax: nat, plan0: Plan)
      returns (status: Status, plan: Plan, ghost done: seq<Done>)
      requires Valid() && rank < |sendQueue| && ScheduleOk(sched, |sendQueue|, rank) && plan0.p2ps == []
      modifies this`sendQueue, this`recvQueue, this`nTasksP2p
      ensures Valid() && Since(old(sendQueue), old(recvQueue), sendQueue, recvQueue, nTasksP2p, done)
      ensures plan.p2ps == Planned(done) && plan.colls == plan0.colls
      ensures |sendQueue| == |old(sendQueue)| && Skew(rank) == old(Skew(rank))
      ensures Grown(b, nChannelsMax, plan0, plan)
      ensures status == Success ==> nTasksP2p == 0 || !Fits(b, plan.nBatches + nChannelsMax, plan.workBytes + P2P_BYTES)
      ensures status == InvalidUsage ==> Skew(rank) != 0
      ensures nTasksP2p <= old(nTasksP2p) && (nTasksP2p == old(nTasksP2p) ==> plan == plan0)
      ensures SkipsOk(done, rank)
    {
      status, plan, done := Success, plan0, [];
      NothingTaken(sendQueue, recvQueue);
      while nTasksP2p != 0
        invariant Since(old(sendQueue), old(recvQueue), sendQueue, recvQueue, nTasksP2p, done)
        invariant plan.p2ps == Planned(done) && plan.colls == plan0.colls
        invariant nTasksP2p <= old(nTasksP2p) && (nTasksP2p == old(nTasksP2p) ==> plan == plan0) && SkipsOk(done, rank)
        invariant |sendQueue| == |recvQueue| == |old(sendQueue)| && Skew(rank) == old(Skew(rank))
        invariant Grown(b, nChannelsMax, plan0, plan)
        decreases nTasksP2p
      {
        var outcome;
        outcome, plan, done := Sweep(sched, rank, b, nChannelsMax, plan, old(sendQueue), old(recvQueue), done);
        if outcome != Next {
          status := if outcome == Invalid then InvalidUsage else Success;
          break;
        }
      }
      StillTagged(old(sendQueue), sendQueue, done, true);
      StillTagged(old(recvQueue), recvQueue, done, false);
    }

    /** How many collectives the plan may take, at a guess of four per batch. */
    method EstimateColls(b: Budget) returns (nPlanColls: nat)
      ensures nPlanColls <= |collQueue|
      ensures collQueue != [] && Fits(b, 0, collQueue[0].workSize) ==> 0 < nPlanColls
    {
      nPlanColls := 0;
      var workBytes := 0;
      while nPlanColls < |collQueue|
        invariant nPlanColls <= |collQueue| && (nPlanColls == 0 ==> workBytes == 0)
      {
        var size := collQueue[nPlanColls].workSize;
        if !Fits(b, DivUp(nPlanColls, 4), workBytes + size) {
          assert nPlanColls == 0 ==> DivUp(nPlanColls, 4) == 0;
          return;
        }
        nPlanColls, workBytes := nPlanColls + 1, workBytes + size;
      }
    }

    /** scheduleCollTasksToPlan: a task uses up to `nMax` channels and adds at most one batch on each. */
    method ScheduleColls(b: Budget, nMax: nat) returns (plan: Plan)
      requires 0 < nMax && forall i :: 0 <= i < |collQueue| ==> 0 < collQueue[i].workSize
      modifies this`collQueue
      ensures plan.colls + collQueue == old(collQueue) && plan.p2ps == []
      ensures CollPlanOk(b, plan)
      ensures old(collQueue) != [] && Fits(b, nMax, old(collQueue)[0].workSize) ==>
        plan != EMPTY && |collQueue| < |old(collQueue)|
    {
      var nPlanColls := EstimateColls(b);
      plan := EMPTY;
      ghost var room := collQueue != [] && Fits(b, nMax, collQueue[0].workSize);
      while nPlanColls != 0 && collQueue != []
        invariant plan.colls + collQueue == old(collQueue) && plan.p2ps == []
        invariant CollPlanOk(b, plan)
        invariant plan == EMPTY && room ==> nPlanColls != 0
        decreases nPlanColls
      {
        var task := collQueue[0];
        MoveColl(plan.colls, collQueue, old(collQueue));
        var nChannels: nat :| 0 < nChannels <= nMax;
        if !Fits(b, plan.nBatches + nChannels, plan.workBytes + task.workSize) {
          assert room ==> plan != EMPTY;
          return;
        }
        var added: nat :| added <= nChannels;
        CollPlanGrows(b, plan, task, nChannels, added);
        collQueue := collQueue[1..];
        nPlanColls := nPlanColls - 1;
        plan := Plan(plan.nBatches + added, plan.workBytes + task.workSize, plan.colls + [task], []);
      }
    }

    /** What one pass leaves to do, and the plan it makes. */
    method PlanOnce(sched: seq<P2pSchedule.Round>, rank: nat, b: Budget, nMax: nat, nChannelsMax: nat)
      returns (status: Status, plan: Plan, ghost done: seq<Done>)
      requires Valid() && Planning(sched, rank, b, nMax, nChannelsMax) && (collQueue != [] || nTasksP2p != 0)
      modifies this
      ensures Valid() && Since(old(sendQueue), old(recvQueue), sendQueue, recvQueue, nTasksP2p, done)
      ensures |sendQueue| == |old(sendQueue)| && Skew(rank) == old(Skew(rank))
      ensures Planning(sched, rank, b, nMax, nChannelsMax)
      ensures plan.colls + collQueue == old(collQueue) && plan.p2ps == Planned(done)
      ensures plan == EMPTY || (Fits(b, plan.nBatches, plan.workBytes) && 0 < plan.workBytes)
      ensures plan.p2ps != [] ==> collQueue == []
      ensures SkipsOk(done, rank)
      ensures status == InvalidUsage ==> Skew(rank) != 0
      ensures status == Success ==> |collQueue| + nTasksP2p < |old(collQueue)| + old(nTasksP2p)
    {
      status, plan, done := Success, EMPTY, [];
      NothingTaken(sendQueue, recvQueue);
      ghost var colls := collQueue;
      if collQueue != [] { plan := ScheduleColls(b, nMax); }
      assert forall i :: 0 <= i < |collQueue| ==> collQueue[i] == colls[|plan.colls| + i];
      if collQueue == [] && nTasksP2p != 0 {
        status, plan, done := ScheduleP2p(sched, rank, b, nChannelsMax, plan);
      }
    }

    /** Room in an empty plan for the largest collective and for a point-to-point task. */
    ghost predicate Planning(sched: seq<P2pSchedule.Round>, rank: nat, b: Budget, nMax: nat, nChannelsMax: nat)
      reads this
    {
      && rank < |sendQueue| && ScheduleOk(sched, |sendQueue|, rank) && 0 < nMax
      && Fits(b, nMax, MAX_COLL_BYTES) && Fits(b, nChannelsMax, P2P_BYTES)
      && forall i :: 0 <= i < |collQueue| ==> 0 < collQueue[i].workSize <= MAX_COLL_BYTES
    }

    /** One turn of the planning loop: a plan without work is not queued. */
    method PlanNext(sched: seq<P2pSchedule.Round>, rank: nat, b: Budget, nMax: nat, nChannelsMax: nat, plans: seq<Plan>,
                    ghost send0: Queues, ghost recv0: Queues, ghost done: seq<Done>)
      returns (status: Status, plans': seq<Plan>, ghost done': seq<Done>)
      requires Valid() && Planning(sched, rank, b, nMax, nChannelsMax) && (collQueue != [] || nTasksP2p != 0)
      requires Since(send0, recv0, sendQueue, recvQueue, nTasksP2p, done) && SkipsOk(done, rank)
      requires PlansOk(b, plans) && AllP2ps(plans) == Planned(done) && (AllP2ps(plans) != [] ==> collQueue == [])
      modifies this
      ensures Valid() && Planning(sched, rank, b, nMax, nChannelsMax)
      ensures |sendQueue| == |old(sendQueue)| && Skew(rank) == old(Skew(rank))
      ensures Since(send0, recv0, sendQueue, recvQueue, nTasksP2p, done') && SkipsOk(done', rank)
      ensures status == InvalidUsage ==> Skew(rank) != 0
      ensures PlansOk(b, plans')
      ensures (status == Success ==> AllP2ps(plans') == Planned(done') && (AllP2ps(plans') != [] ==> collQueue == []))
      ensures status == Success ==> AllColls(plans') + collQueue == AllColls(plans) + old(collQueue)
      ensures status == Success ==> |collQueue| + nTasksP2p < |old(collQueue)| + old(nTasksP2p)
    {
      plans' := plans;
      ghost var before, send1, recv1 := collQueue, sendQueue, recvQueue;
      var plan;
      ghost var done1;
      status, plan, done1 := PlanOnce(sched, rank, b, nMax, nChannelsMax);
      SinceThen(send0, recv0, send1, recv1, SumLen(send1) + SumLen(recv1), done, sendQueue, recvQueue, nTasksP2p,
          done1);
      SkipsJoin(done, done1, rank);
      done' := done + done1;
      if status == Success {
        PlanAppend(b, plans, plan, before, collQueue);
        if plan.workBytes != 0 { plans' := plans + [plan]; }
      }
    }

    /** The planning loop of ncclLaunchPrepare. */
    method LaunchPrepare(sched: seq<P2pSchedule.Round>, rank: nat, b: Budget, nMax: nat, nChannelsMax: nat)
      returns (status: Status, plans: seq<Plan>, ghost done: seq<Done>)
      requires Valid() && Planning(sched, rank, b, nMax, nChannelsMax)
      modifies this
      ensures status == Success <==> old(Skew(rank)) == 0
      ensures status == Success ==> collQueue == [] && nTasksP2p == 0
      ensures status == Success ==> AllColls(plans) == old(collQueue) && AllP2ps(plans) == Planned(done)
      ensures status == Success ==> AllPlanned(AllP2ps(plans), old(sendQueue), old(recvQueue), rank)
      ensures Since(old(sendQueue), old(recvQueue), sendQueue, recvQueue, nTasksP2p, done) && SkipsOk(done, rank)
      ensures PlansOk(b, plans)
    {
      status, plans, done := Success, [], [];
      NothingTaken(sendQueue, recvQueue);
      while status == Success && (collQueue != [] || nTasksP2p != 0)
        invariant Valid() && Planning(sched, rank, b, nMax, nChannelsMax)
        invariant |sendQueue| == |old(sendQueue)| && Skew(rank) == old(Skew(rank))
        invariant (status == InvalidUsage ==> Skew(rank) != 0)
        invariant Since(old(sendQueue), old(recvQueue), sendQueue, recvQueue, nTasksP2p, done) && SkipsOk(done, rank)
        invariant status == Success ==> AllColls(plans) + collQueue == old(collQueue) && AllP2ps(plans) == Planned(done)
        invariant PlansOk(b, plans) && (status == Success && AllP2ps(plans) != [] ==> collQueue == [])
        decreases status == Success, |collQueue| + nTasksP2p
      {
        status, plans, done := PlanNext(sched, rank, b, nMax, nChannelsMax, plans, old(sendQueue), old(recvQueue),
            done);
      }
      if status == Success {
        NoSkew(sendQueue, recvQueue, rank);
        NothingDropped(old(sendQueue), old(recvQueue), sendQueue, recvQueue, done, rank);
        assert AllColls(plans) + [] == AllColls(plans);
      }
    }
  }

  // ---- nothing is dropped ----

  /** The tasks of one queue among those planned. */
  ghost function ForQueue(tasks: seq<P2pTask>, p: nat, send: bool): seq<P2pTask> {
    if tasks == [] then [] else
    var t := tasks[|tasks| - 1];
    ForQueue(tasks[..|tasks| - 1], p, send) + if t.peer == p && t.send == send then [t] else []
  }

  /** Tasks whose partner in the other queue is another buffer. */
  ghost function OutOfPlace(a: seq<P2pTask>, b: seq<P2pTask>): seq<P2pTask>
    requires |a| == |b|
  {
    if a == [] then [] else
    var n := |a| - 1;
    OutOfPlace(a[..n], b[..n]) + if a[n].buff == b[n].buff then [] else [a[n]]
  }

  /** Every queue is planned in full and in order, only in-place copies to self are left out. */
  ghost predicate AllPlanned(tasks: seq<P2pTask>, send: Queues, recv: Queues, rank: nat)
  {
    && rank < |send| && rank < |recv| && |send[rank]| == |recv[rank]|
    && (forall p :: 0 <= p < |send| ==>
        ForQueue(tasks, p, true) == if p == rank then OutOfPlace(send[rank], recv[rank]) else send[p])
    && forall p :: 0 <= p < |recv| ==>
      ForQueue(tasks, p, false) == if p == rank then OutOfPlace(recv[rank], send[rank]) else recv[p]
  }

  ghost function TasksOf(ds: seq<Done>): (ts: seq<P2pTask>)
    ensures |ts| == |ds| && forall k :: 0 <= k < |ds| ==> ts[k] == ds[k].task
  {
    seq(|ds|, k requires 0 <= k < |ds| => ds[k].task)
  }

  lemma {:induction false} EntriesTaken(done: seq<Done>, p: nat, send: bool)
    ensures TasksOf(EntriesOf(done, p, send)) == Taken(done, p, send)
  {
    if done != [] {
      var before, d := done[..|done| - 1], done[|done| - 1];
      EntriesTaken(before, p, send);
      var es := EntriesOf(before, p, send);
      assert TasksOf(es + [d]) == TasksOf(es) + [d.task];
      assert es + [] == es;
    }
  }

  lemma ForQueueAppend(tasks: seq<P2pTask>, x: P2pTask, p: nat, send: bool)
    ensures ForQueue(tasks + [x], p, send) == ForQueue(tasks, p, send) + if x.peer == p && x.send == send then [x]
      else []
  {
    assert (tasks + [x])[..|tasks|] == tasks;
  }

  lemma PlannedAppend(es: seq<Done>, d: Done)
    ensures Planned(es + [d]) == Planned(es) + if d.skipped then [] else [d.task]
  {
    assert (es + [d])[..|es|] == es;
  }

  /** One entry more, whether skipped or of another queue. */
  lemma PlannedStep(planned: seq<P2pTask>, es: seq<Done>, d: Done, p: nat, send: bool)
    requires ForQueue(planned, p, send) == Planned(es)
    ensures var own := d.task.peer == p && d.task.send == send;
      ForQueue(planned + (if d.skipped then [] else [d.task]), p, send) == Planned(es + if own then [d] else [])
  {
    ForQueueAppend(planned, d.task, p, send);
    PlannedAppend(es, d);
    assert planned + [] == planned && es + [] == es;
    assert Planned(es) + [] == Planned(es);
  }

  lemma {:induction false} EntriesPlanned(done: seq<Done>, p: nat, send: bool)
    ensures ForQueue(Planned(done), p, send) == Planned(EntriesOf(done, p, send))
  {
    if done != [] {
      var before, d := done[..|done| - 1], done[|done| - 1];
      EntriesPlanned(before, p, send);
      PlannedStep(Planned(before), EntriesOf(before, p, send), d, p, send);
    }
  }

  lemma {:induction false} EntriesInDone(done: seq<Done>, p: nat, send: bool)
    ensures forall d :: d in EntriesOf(done, p, send) ==> d in done && d.task.peer == p
  {
    if done != [] { EntriesInDone(done[..|done| - 1], p, send); }
  }

  lemma {:induction false} PlannedPairs(a: seq<Done>, b: seq<Done>)
    requires MatchedSkips(a, b)
    ensures Planned(a) == OutOfPlace(TasksOf(a), TasksOf(b)) && Planned(b) == OutOfPlace(TasksOf(b), TasksOf(a))
  {
    if a != [] {
      var n := |a| - 1;
      PlannedPairs(a[..n], b[..n]);
      assert TasksOf(a)[..n] == TasksOf(a[..n]) && TasksOf(b)[..n] == TasksOf(b[..n]);
    }
  }

  lemma {:induction false} NoneSkipped(ds: seq<Done>)
    requires forall k :: 0 <= k < |ds| ==> !ds[k].skipped
    ensures Planned(ds) == TasksOf(ds)
  {
    if ds != [] {
      NoneSkipped(ds[..|ds| - 1]);
      assert TasksOf(ds) == TasksOf(ds[..|ds| - 1]) + [ds[|ds| - 1].task];
    }
  }

  lemma QueuePlanned(done: seq<Done>, rank: nat, p: nat, send: bool, q0: seq<P2pTask>)
    requires SkipsOk(done, rank) && p != rank && Taken(done, p, send) == q0
    ensures ForQueue(Planned(done), p, send) == q0
  {
    EntriesTaken(done, p, send);
    EntriesPlanned(done, p, send);
    EntriesInDone(done, p, send);
    var es := EntriesOf(done, p, send);
    forall k | 0 <= k < |es| ensures !es[k].skipped { assert es[k] in es; }
    NoneSkipped(es);
  }

  lemma NothingDropped(send0: Queues, recv0: Queues, send: Queues, recv: Queues, done: seq<Done>, rank: nat)
    requires Since(send0, recv0, send, recv, 0, done) && SkipsOk(done, rank) && rank < |send| && rank < |recv|
    ensures AllPlanned(Planned(done), send0, recv0, rank)
  {
    forall p | 0 <= p < |send|
      ensures Taken(done, p, true) == send0[p]
    {
      OneOfSum(send, p); assert Taken(done, p, true) + send[p] == send0[p];
    }
    forall p | 0 <= p < |recv|
      ensures Taken(done, p, false) == recv0[p]
    {
      OneOfSum(recv, p); assert Taken(done, p, false) + recv[p] == recv0[p];
    }
    var a, b := EntriesOf(done, rank, true), EntriesOf(done, rank, false);
    EntriesTaken(done, rank, true);
    EntriesTaken(done, rank, false);
    EntriesPlanned(done, rank, true);
    EntriesPlanned(done, rank, false);
    PlannedPairs(a, b);
    forall p | 0 <= p < |send| && p != rank
      ensures ForQueue(Planned(done), p, true) == send0[p]
    {
      QueuePlanned(done, rank, p, true, send0[p]);
    }
    forall p | 0 <= p < |recv| && p != rank
      ensures ForQueue(Planned(done), p, false) == recv0[p]
    {
      QueuePlanned(done, rank, p, false, recv0[p]);
    }
  }

  ghost function AllColls(plans: seq<Plan>): seq<CollTask> {
    if plans == [] then [] else AllColls(plans[..|plans| - 1]) + plans[|plans| - 1].colls
  }

  ghost function AllP2ps(plans: seq<Plan>): seq<P2pTask> {
    if plans == [] then [] else AllP2ps(plans[..|plans| - 1]) + plans[|plans| - 1].p2ps
  }

  /** No collective comes after a point-to-point task. */
  ghost predicate CollsFirst(plans: seq<Plan>) {
    forall i, j :: 0 <= i < j < |plans| && plans[i].p2ps != [] ==> plans[j].colls == []
  }

  /** Every plan fits and has work. */
  ghost predicate PlansOk(b: Budget, plans: seq<Plan>) {
    CollsFirst(plans) && forall i :: 0 <= i < |plans| ==>
      Fits(b, plans[i].nBatches, plans[i].workBytes) && 0 < plans[i].workBytes
  }

  function Queue(plans: seq<Plan>, plan: Plan): seq<Plan> { if plan.workBytes != 0 then plans + [plan] else plans }

  lemma PlanAppend(b: Budget, plans: seq<Plan>, plan: Plan, before: seq<CollTask>, after: seq<CollTask>)
    requires plan.colls + after == before && PlansOk(b, plans) && (AllP2ps(plans) != [] ==> before == [])
    requires plan == EMPTY || (Fits(b, plan.nBatches, plan.workBytes) && 0 < plan.workBytes)
    ensures AllColls(Queue(plans, plan)) + after == AllColls(plans) + before
    ensures AllP2ps(Queue(plans, plan)) == AllP2ps(plans) + plan.p2ps
    ensures PlansOk(b, Queue(plans, plan))
  {
    if plan == EMPTY {
      assert plan.colls + after == after;
      assert AllP2ps(plans) + [] == AllP2ps(plans);
    } else {
      assert (plans + [plan])[..|plans|] == plans;
      assert AllColls(plans) + plan.colls + after == AllColls(plans) + before;
      forall i | 0 <= i < |plans| && plans[i].p2ps != [] ensures plan.colls == [] { SomeP2p(plans, i); }
    }
  }

  lemma {:induction false} SomeP2p(plans: seq<Plan>, i: nat)
    requires i < |plans| && plans[i].p2ps != []
    ensures AllP2ps(plans) != []
  {
    if i < |plans| - 1 { SomeP2p(plans[..|plans| - 1], i); }
  }

  lemma {:induction false} TakenJoin(a: seq<Done>, b: seq<Done>, p: nat, send: bool)
    ensures Taken(a + b, p, send) == Taken(a, p, send) + Taken(b, p, send)
  {
    if b == [] {
      assert a + b == a;
    } else {
      var n := |b| - 1;
      TakenJoin(a, b[..n], p, send);
      assert (a + b)[..|a + b| - 1] == a + b[..n];
    }
  }

  lemma {:induction false} PlannedJoin(a: seq<Done>, b: seq<Done>)
    ensures Planned(a + b) == Planned(a) + Planned(b)
  {
    if b == [] {
      assert a + b == a;
    } else {
      var n := |b| - 1;
      PlannedJoin(a, b[..n]);
      assert (a + b)[..|a + b| - 1] == a + b[..n];
    }
  }

  lemma ConservedThen(q0: Queues, q1: Queues, q2: Queues, d1: seq<Done>, d2: seq<Done>, send: bool)
    requires Conserved(q0, q1, d1, send) && Conserved(q1, q2, d2, send)
    ensures Conserved(q0, q2, d1 + d2, send)
  {
    forall p | 0 <= p < |q2| ensures Taken(d1 + d2, p, send) + q2[p] == q0[p] {
      TakenJoin(d1, d2, p, send);
      assert Taken(d1, p, send) + (Taken(d2, p, send) + q2[p]) == q0[p];
    }
  }

  lemma SinceThen(send0: Queues, recv0: Queues, send1: Queues, recv1: Queues, n1: nat, d1: seq<Done>, send2: Queues,
      recv2: Queues, n2: nat, d2: seq<Done>)
    requires Since(send0, recv0, send1, recv1, n1, d1) && Since(send1, recv1, send2, recv2, n2, d2)
    ensures Since(send0, recv0, send2, recv2, n2, d1 + d2) && Planned(d1 + d2) == Planned(d1) + Planned(d2)
  {
    ConservedThen(send0, send1, send2, d1, d2, true);
    ConservedThen(recv0, recv1, recv2, d1, d2, false);
    PlannedJoin(d1, d2);
  }

  lemma NoSkew(send: Queues, recv: Queues, rank: nat)
    requires SumLen(send) + SumLen(recv) == 0 && rank < |send| && rank < |recv|
    ensures |send[rank]| == |recv[rank]| == 0
  {
    OneOfSum(send, rank);
    OneOfSum(recv, rank);
  }

  lemma {:induction false} OneOfSum(q: Queues, p: nat)
    requires p < |q|
    ensures |q[p]| <= SumLen(q)
  {
    if p < |q| - 1 { OneOfSum(q[..|q| - 1], p); }
  }

  lemma NothingTaken(send: Queues, recv: Queues)
    requires Tagged(send, true) && Tagged(recv, false)
    ensures Since(send, recv, send, recv, SumLen(send) + SumLen(recv), [])
  {
    assert forall p :: 0 <= p < |send| ==> Taken([], p, true) + send[p] == send[p];
    assert forall p :: 0 <= p < |recv| ==> Taken([], p, false) + recv[p] == recv[p];
  }

  lemma StillTagged(q0: Queues, q: Queues, done: seq<Done>, send: bool)
    requires Tagged(q0, send) && Conserved(q0, q, done, send)
    ensures Tagged(q, send)
  {
    forall p, i | 0 <= p < |q| && 0 <= i < |q[p]| ensures q[p][i].peer == p && q[p][i].send == send {
      assert q[p][i] == q0[p][|Taken(done, p, send)| + i];
    }
  }
}
