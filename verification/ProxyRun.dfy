/**
 The progress thread's two halves together: drains hand operations to the list in progress, and passes
 let that list progress between drains. An operation may join an element only until it has started.
 */
module ProxyRun {
  import opened ProxyArgs
  import PO = ProxyOrder
  import PS = ProxySlots

  /** Drains follow each other, and a group is drained as a whole. */
  ghost predicate Drained(log: seq<PO.Event>) {
    && (forall i, j :: 0 <= i < j < |log| ==> log[i].call <= log[j].call)
    && forall i, j :: 0 <= i < |log| && 0 <= j < |log| && log[i].item.group == log[j].item.group ==>
      log[i].call == log[j].call
  }

  /** Every run of the slot pool leaves such a log. */
  lemma RunsAreDrained(cfg: PS.Config, ss: seq<PS.State>, steps: seq<PS.Action>, k: nat)
    requires PS.ConfigOk(cfg) && PS.IsRun(cfg, ss, steps) && k < |ss|
    ensures Drained(PO.HistoryAfter(cfg, ss, steps, k).log)
  {
    PO.ConsumedInOrder(cfg, ss, steps, k);
    CallsGrow(cfg, ss, steps, k);
  }

  /** No event is of a later drain than the current one, and later events are not of earlier drains. */
  ghost predicate CallsOk(h: PO.History) {
    && (forall i :: 0 <= i < |h.log| ==> h.log[i].call <= h.call)
    && forall i, j :: 0 <= i < j < |h.log| ==> h.log[i].call <= h.log[j].call
  }

  lemma {:induction false} CallsGrow(cfg: PS.Config, ss: seq<PS.State>, steps: seq<PS.Action>, k: nat)
    requires PS.ConfigOk(cfg) && PS.IsRun(cfg, ss, steps) && k < |ss|
    ensures CallsOk(PO.HistoryAfter(cfg, ss, steps, k))
  {
    if k != 0 {
      CallsGrow(cfg, ss, steps, k - 1);
      RecordGrows(cfg, ss[k - 1], steps[k - 1], PO.HistoryAfter(cfg, ss, steps, k - 1));
    }
  }

  /** A step adds at most an event of the current drain to the log, or ends the drain. */
  lemma RecordGrows(cfg: PS.Config, s: PS.State, a: PS.Action, h: PO.History)
    requires PS.ConfigOk(cfg) && PS.Sized(cfg, s) && PS.Enabled(cfg, s, a) && |h.pending| == |h.appended| == cfg.ranks
    requires CallsOk(h)
    ensures CallsOk(PO.Record(cfg, s, a, h))
  {
  }

  /** The element that an operation would join has started, or not. */
  ghost predicate Open(q: seq<Args>) { q != [] && !q[|q| - 1].running }

  /** A group keeps the element it joins open until the next pass. */
  ghost predicate StillOpen(p: Progress, ops: seq<Op>, start: nat, end: nat)
    reads p
    requires p.Valid()
  {
    end <= |ops| && forall j :: start <= j < end ==> ops[j].key < |p.appendPtr| && Open(p.InProgress(ops[j].key))
  }

  /** Any number of passes between two drains. */
  method Passes(p: Progress)
    requires p.Valid()
    modifies p
    ensures p.Valid() && |p.appendPtr| == old(|p.appendPtr|)
  {
    var n: int := *;
    while 0 < n
      invariant p.Valid() && |p.appendPtr| == old(|p.appendPtr|)
    {
      p.ProgressOps();
      n := n - 1;
    }
  }

  /**
   The progress thread appends the operations of a log drain by drain, with passes only between drains, and stops at
   the first one refused; `full` says that the element had no room. An operation is refused because its element is
   running only if it is the first of its group on its connection.
   */
  method AppendDrains(p: Progress, log: seq<PO.Event>, ops: seq<Op>) returns (status: Status, at: nat, ghost full: bool)
    requires p.Valid() && |ops| == |log| && Drained(log)
    requires forall i :: 0 <= i < |ops| ==> ops[i].key < |p.appendPtr| && ops[i].opCount == log[i].item.opCount
    modifies p
    ensures p.Valid() && at <= |ops| && (status == Success <==> at == |ops|)
    ensures at < |ops| && !full ==> forall j :: 0 <= j < at && log[j].item.group == log[at].item.group ==>
      ops[j].key != ops[at].key
  {
    status, at, full := Success, 0, false;
    ghost var start: nat := 0;
    while at < |ops|
      invariant p.Valid() && |p.appendPtr| == old(|p.appendPtr|) && at <= |ops| && status == Success
      invariant OneDrain(log, start, at) && StillOpen(p, ops, start, at)
      decreases |ops| - at
    {
      if 0 < at && log[at].call != log[at - 1].call {
        Passes(p);
        start := at;
      }
      GroupInDrain(log, start, at);
      status, full := AppendOne(p, ops, start, at);
      if status != Success { return; }
      at := at + 1;
    }
  }

  /**
   One operation of a drain. If it is refused although its element has room, nothing of this drain is on its connection
   yet.
   */
  method AppendOne(p: Progress, ops: seq<Op>, ghost start: nat, at: nat) returns (status: Status, ghost full: bool)
    requires p.Valid() && at < |ops| && (forall i :: 0 <= i < |ops| ==> ops[i].key < |p.appendPtr|)
    requires StillOpen(p, ops, start, at)
    modifies p
    ensures p.Valid() && |p.appendPtr| == old(|p.appendPtr|)
    ensures status == Success ==> StillOpen(p, ops, start, at + 1)
    ensures status != Success && !full ==> forall j :: start <= j < at ==> ops[j].key != ops[at].key
  {
    var op := ops[at];
    ghost var q := p.InProgress(op.key);
    status := p.ProxyAppend(op);
    full := q != [] && MAX_SUBS <= |q[|q| - 1].subs|;
    forall j | start <= j < at + 1 && status == Success ensures Open(p.InProgress(ops[j].key)) {
      if ops[j].key != op.key { assert p.InProgress(ops[j].key) == old(p.InProgress(ops[j].key)); }
    }
  }

  /** The drain of event `at` starts with event `start`. */
  ghost predicate OneDrain(log: seq<PO.Event>, start: nat, at: nat) {
    && start <= at <= |log| && (forall j :: start <= j < at ==> log[j].call == log[at - 1].call)
    && forall j :: 0 <= j < start ==> start < at && log[j].call < log[at - 1].call
  }

  lemma GroupInDrain(log: seq<PO.Event>, start: nat, at: nat)
    requires Drained(log) && at < |log|
    requires start == at ==> at == 0 || log[at].call != log[at - 1].call
    requires start != at ==> OneDrain(log, start, at) && log[at].call == log[at - 1].call
    ensures OneDrain(log, start, at + 1)
    ensures forall j :: 0 <= j < at && log[j].item.group == log[at].item.group ==> start <= j
  {
  }
}
