/** A plan from the planner's appends to what the blocks of the kernel run. */
module PlanRoundTrip {
  import opened Arith
  import PlanLoop
  import opened WorkBatch
  import opened PlanLayout
  import opened Sequences
  import opened WorkStorage
  import opened WorkLoad

  /** Every batch holds its base offset and is not linked yet. */
  ghost predicate Based(bs: seq<Batch>) { forall i :: 0 <= i < |bs| ==> bs[i].bits[0] && bs[i].nextJump == 0 }

  lemma AddKeepsBased(c: Chan, x: Item)
    requires Based(c.batches) && (c.batches != [] ==> c.batches[|c.batches| - 1].offsetBase <= x.offset)
    ensures Based(Add(c, x).batches)
  {
    assert Fresh(x).bits[0] && Fresh(x).nextJump == 0;
    var bs := Add(c, x).batches;
    forall i | 0 <= i < |bs| ensures bs[i].bits[0] && bs[i].nextJump == 0 {
      if i < |c.batches| { assert c.batches[i].bits[0]; }
    }
  }

  lemma {:induction false} BuildStarts(xs: seq<Item>)
    requires Increasing(xs)
    ensures Based(Build(xs).batches)
  {
    if xs != [] {
      var before := xs[..|xs| - 1];
      BuildStarts(before);
      if before != [] { assert xs[|before| - 1].offset < xs[|before|].offset; }
      AddKeepsBased(Build(before), Last(xs));
    }
  }

  lemma BuildStarted(xs: seq<Item>)
    requires Increasing(xs)
    ensures Started(Build(xs).batches)
  {
    BuildStarts(xs);
    if xs != [] { ChanInvHolds(xs); }
  }

  lemma {:induction false} UniformBytes(g: seq<Item>, t: WorkType)
    requires forall i :: 0 <= i < |g| ==> g[i].workType == t
    ensures Bytes(g) == |g| * WorkSize(t)
  {
    if g != [] {
      UniformBytes(g[..|g| - 1], t);
      MulDistributes(WorkSize(t), |g| - 1, 1);
    }
  }

  ghost predicate ItemsIn<P>(store: seq<P>, xs: seq<Item>) {
    forall i :: 0 <= i < |xs| ==> InStore(store, WorkOf(xs[i]))
  }

  lemma RunnableLoads<P>(store: seq<P>, g: seq<Item>)
    requires Runnable(g) && ItemsIn(store, g)
    ensures Loadable(store, WorksOf(g))
  {
    var t := g[0].workType;
    UniformBytes(g, t);
    assert |g| * WorkSize(t) == PACK * (|g| * Packs(t)) by { assert WorkSize(t) == PACK * Packs(t); }
    assert forall i :: 0 <= i < |g| ==> WorksOf(g)[i] == WorkOf(g[i]);
  }

  lemma {:induction false} FlattenHas(gs: seq<seq<Item>>, i: nat, j: nat)
    requires i < |gs| && j < |gs[i]|
    ensures gs[i][j] in Flatten(gs)
  {
    if i < |gs| - 1 { FlattenHas(gs[..|gs| - 1], i, j); }
  }

  lemma GroupsLoad<P>(store: seq<P>, xs: seq<Item>)
    requires Increasing(xs) && ItemsIn(store, xs)
    ensures forall i :: 0 <= i < |GroupWorks(Groups(xs))| ==> Loadable(store, GroupWorks(Groups(xs))[i])
  {
    BatchesDecode(xs);
    var gs := Groups(xs);
    forall i | 0 <= i < |gs| ensures Loadable(store, GroupWorks(gs)[i]) {
      forall j | 0 <= j < |gs[i]| ensures InStore(store, WorkOf(gs[i][j])) {
        FlattenHas(gs, i, j);
        var k :| 0 <= k < |xs| && xs[k] == gs[i][j];
        assert InStore(store, WorkOf(xs[k]));
      }
      RunnableLoads(store, gs[i]);
    }
  }

  /** Moving the offsets commutes with linking the batches. */
  lemma RebaseKeepsChain(st: Storage, out: seq<Batch>, ps: seq<nat>, bs: seq<Batch>)
    requires Chain(out, ps, bs)
    ensures Chain(Rebased(st, out), ps, Rebased(st, bs))
  {
    forall i | 0 <= i < |ps| ensures Link(Rebased(st, out), ps, Rebased(st, bs), i) {
      assert Link(out, ps, bs, i);
    }
  }

  function Queues(items: seq<seq<Item>>): (qs: seq<seq<Batch>>)
    requires forall c :: 0 <= c < |items| ==> Increasing(items[c])
    ensures |qs| == |items| && forall c :: 0 <= c < |items| ==> qs[c] == Build(items[c]).batches
  {
    seq(|items|, c requires 0 <= c < |items| => Build(items[c]).batches)
  }

  /** A plan within a budget of at most 4 KB of kernel arguments. */
  ghost predicate PlanOk<P>(items: seq<seq<Item>>, mask: Mask, store: seq<P>, b: PlanLoop.Budget) {
    && |items| == MAXCHANNELS
    && (forall c :: 0 <= c < MAXCHANNELS ==> Increasing(items[c]) && ItemsIn(store, items[c]))
    && (forall c :: 0 <= c < MAXCHANNELS ==> (mask[c] <==> items[c] != []))
    && b.inArgs <= 4096 - PlanLoop.ARGS_HEADER && PlanLoop.Fits(b, SumLen(Queues(items)), PACK * |store|)
  }

  /** So few batches fit the arguments that every jump fits its 14-bit field. */
  lemma JumpsFit(b: PlanLoop.Budget, nBatches: nat, workBytes: nat)
    requires b.inArgs <= 4096 - PlanLoop.ARGS_HEADER && PlanLoop.Fits(b, nBatches, workBytes)
    ensures nBatches <= 254 < JUMP_LIMIT
  {
  }

  lemma QueuesUnlinked<P>(items: seq<seq<Item>>, mask: Mask, store: seq<P>, b: PlanLoop.Budget)
    requires PlanOk(items, mask, store, b)
    ensures Unlinked(Queues(items)) && AllFilled(Queues(items), mask) && SumLen(Queues(items)) <= JUMP_LIMIT
  {
    JumpsFit(b, SumLen(Queues(items)), PACK * |store|);
    forall c | 0 <= c < MAXCHANNELS
      ensures forall i :: 0 <= i < |Queues(items)[c]| ==> Queues(items)[c][i].nextJump == 0
    {
      BuildStarts(items[c]);
      assert Based(Queues(items)[c]);
    }
  }

  /**
   The round trip: whatever buffer holds the work, the n-th block runs the n-th channel of the plan, and it
   loads exactly that channel's work structs, in the order they were appended.
   */
  method RunPlan<P>(items: seq<seq<Item>>, mask: Mask, works: seq<seq<P>>, st: Storage, mem0: seq<P>, block: nat,
      tn: nat, shmem: seq<P>, ghost b: PlanLoop.Budget)
    returns (channel: nat, runs: seq<Run<P>>)
    requires PlanOk(items, mask, Flatten(works), b) && Room(st, |Flatten(works)|, |mem0|)
    requires |shmem| == SHMEM_PACKS && 128 <= tn && block < Popc(mask, MAXCHANNELS)
    ensures channel < MAXCHANNELS && mask[channel] && Popc(mask, channel) == block
    ensures var gs := Groups(items[channel]);
      && Flatten(gs) == items[channel]
      && (forall i :: 0 <= i < |gs| ==> Loadable(Flatten(works), GroupWorks(gs)[i]))
      && runs == RunsOf(Flatten(works), GroupWorks(gs))
  {
    QueuesUnlinked(items, mask, Flatten(works), b);
    var queues := Queues(items);
    var out;
    ghost var pos, owner;
    out, pos, owner := LayOut(queues, mask);
    PlacedCount(queues, out, pos, owner);
    var mem, _ := Upload(st, mem0, works);
    channel := BlockChannel(mask, block);
    ghost var bs := queues[channel];
    PlacedIsChained(queues, out, pos, owner, channel);
    RebaseKeepsChain(st, out, pos[channel], bs);
    BuildStarted(items[channel]);
    BatchesDecode(items[channel]);
    GroupsLoad(Flatten(works), items[channel]);
    runs := RunBlock(st, mem, Rebased(st, out), block, tn, shmem, Flatten(works), pos[channel], bs);
  }
}
