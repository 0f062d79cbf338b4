/**
 The schedule that pairs every rank with every other for point-to-point traffic: in each round
 a rank sends to one peer and receives from another. Peers are enumerated by triangular numbers
 modulo a power of two, filtered to the real number of nodes and local ranks.
 */
module P2pSchedule {
  import opened Arith
  import opened Sequences

  // ---- triangular numbers modulo a power of two ----

  function Tri(x: nat): nat { if x == 0 then 0 else Tri(x - 1) + x }

  lemma {:induction false} TriDouble(x: nat)
    ensures 2 * Tri(x) == x * (x + 1)
  {
    if x != 0 {
      TriDouble(x - 1);
      assert (x - 1) * x + 2 * x == x * (x + 1);
    }
  }

  lemma OddTimes(a: int, b: int)
    requires a % 2 == 1 && (a * b) % 2 == 0
    ensures b % 2 == 0
  {
    var x := a / 2;
    assert a * b == b + 2 * (x * b);
    ModAddMultiple(b, 2, x * b);
  }

  lemma TwiceMul(x: int, y: int)
    ensures 2 * x * y == 2 * (x * y)
    ensures y * (2 * x) == 2 * (y * x)
  {
  }

  /** A power of two that divides a product with an odd factor divides the other factor. */
  lemma {:induction false} OddFactor(k: nat, a: int, b: int, m: int) returns (q: int)
    requires a % 2 == 1 && a * b == Pow2(k) * m
    ensures b == Pow2(k) * q
  {
    if k == 0 {
      q := b;
    } else {
      var h, c := Pow2(k - 1), b / 2;
      TwiceMul(h, m);
      OddTimes(a, b);
      TwiceMul(c, a);
      q := OddFactor(k - 1, a, c, m);
      TwiceMul(h, q);
    }
  }

  lemma SmallMultiple(n: nat, q: int, x: int)
    requires 0 <= x < n && x == n * q
    ensures x == 0
  {
    if q <= 0 { MulLe(n, q, 0); } else { MulLe(n, 1, q); }
  }

  /** An odd factor does not help a small number to become a multiple of a power of two. */
  lemma OddProduct(k: nat, a: int, b: int, m: int)
    requires a % 2 == 1 && 0 < b < Pow2(k)
    ensures a * b != Pow2(k) * m
  {
    if a * b == Pow2(k) * m {
      var q := OddFactor(k, a, b, m);
      SmallMultiple(Pow2(k), q, b);
    }
  }

  lemma MixedProduct(k: nat, d: int, e: int, m: int)
    requires 0 < d < Pow2(k) && 0 < e < Pow2(k) && (d % 2 == 1 || e % 2 == 1)
    ensures d * e != Pow2(k) * m
  {
    if d % 2 == 1 { OddProduct(k, d, e, m); } else { OddProduct(k, e, d, m); }
  }

  lemma OneIsOdd(x: int, y: int)
    ensures (y - x) % 2 == 1 || (x + y + 1) % 2 == 1
  {
  }

  /** Triangular numbers are pairwise different modulo a power of two, over one period. */
  lemma TriInjective(k: nat, x: nat, y: nat)
    requires x < y < Pow2(k)
    ensures Tri(x) % Pow2(k) != Tri(y) % Pow2(k)
  {
    if Tri(x) % Pow2(k) == Tri(y) % Pow2(k) {
      var m := CommonMultiple(k, x, y);
      OneIsOdd(x, y);
      assert Pow2(k + 1) == 2 * Pow2(k);
      MixedProduct(k + 1, y - x, x + y + 1, m);
    }
  }

  lemma CommonMultiple(k: nat, x: nat, y: nat) returns (m: int)
    requires Tri(x) % Pow2(k) == Tri(y) % Pow2(k)
    ensures (y - x) * (x + y + 1) == Pow2(k + 1) * m
  {
    var n := Pow2(k);
    TriDouble(x);
    TriDouble(y);
    DivMod(Tri(x), n);
    DivMod(Tri(y), n);
    m := Tri(y) / n - Tri(x) / n;
    MulDistributes(n, Tri(y) / n, Tri(x) / n);
    Difference(x, y);
    TwiceMul(n, m);
  }

  lemma Difference(x: int, y: int)
    ensures y * (y + 1) - x * (x + 1) == (y - x) * (x + y + 1)
  {
  }

  // ---- the deltas one loop enumerates ----

  /** The exponent of pow2Up: the least power of two that is at least `n`. */
  function Log2Up(n: nat): (k: nat)
    ensures n <= Pow2(k)
    ensures 0 < k ==> Pow2(k - 1) < n
  {
    if n <= 1 then 0 else Log2Up((n + 1) / 2) + 1
  }

  function PeriodOf(n: nat): nat { Pow2(Log2Up(n)) }

  /** Deltas kept after `rounds` rounds: triangular numbers modulo the period, filtered to below `n`. */
  function DeltasAfter(n: nat, rounds: nat): seq<nat> {
    if rounds == 0 then [] else
    var d := Tri(rounds - 1) % PeriodOf(n);
    DeltasAfter(n, rounds - 1) + if d < n then [d] else []
  }

  function Deltas(n: nat): seq<nat> { DeltasAfter(n, PeriodOf(n)) }

  function Residues(n: nat, rounds: nat): (s: seq<nat>)
    ensures |s| == rounds
    ensures forall i :: 0 <= i < rounds ==> s[i] == Tri(i) % PeriodOf(n)
  {
    seq(rounds, i requires 0 <= i => DivMod(Tri(i), PeriodOf(n)); Tri(i) % PeriodOf(n))
  }

  lemma {:induction false} DeltasAfterFacts(n: nat, rounds: nat)
    requires rounds <= PeriodOf(n)
    ensures Distinct(DeltasAfter(n, rounds))
    ensures forall i :: 0 <= i < |DeltasAfter(n, rounds)| ==> DeltasAfter(n, rounds)[i] < n
    ensures forall v: nat :: v in DeltasAfter(n, rounds) <==> v < n && v in Residues(n, rounds)
  {
    if rounds != 0 {
      var d, before := Tri(rounds - 1) % PeriodOf(n), DeltasAfter(n, rounds - 1);
      DeltasAfterFacts(n, rounds - 1);
      assert Residues(n, rounds) == Residues(n, rounds - 1) + [d];
      if d in before {
        var i :| 0 <= i < rounds - 1 && Residues(n, rounds - 1)[i] == d;
        TriInjective(Log2Up(n), i, rounds - 1);
      }
    }
  }

  /** Every delta below `n` occurs exactly once. */
  lemma DeltasArePermutation(n: nat)
    ensures Permutation(Deltas(n), n)
  {
    var p, s := PeriodOf(n), Deltas(n);
    DeltasAfterFacts(n, p);
    forall i, j | 0 <= i < j < p ensures Residues(n, p)[i] != Residues(n, p)[j] { TriInjective(Log2Up(n), i, j); }
    Pigeonhole(Residues(n, p), p);
    DistinctSize(s);
    BelowSize(n);
    assert Elements(s) == Below(n);
  }

  // ---- node and local-rank tables ----

  /** The ranks below `bound` on node `n`, ascending. */
  function Members(rankToNode: seq<nat>, n: nat, bound: nat): seq<nat>
    requires bound <= |rankToNode|
  {
    if bound == 0 then [] else
    Members(rankToNode, n, bound - 1) + if rankToNode[bound - 1] == n then [bound - 1] else []
  }

  /** A rank's index among the members of its node is the number of members before it. */
  lemma {:induction false} MemberAt(rankToNode: seq<nat>, r: nat, bound: nat)
    requires r < bound <= |rankToNode|
    ensures var m := Members(rankToNode, rankToNode[r], bound); var i := |Members(rankToNode, rankToNode[r], r)|;
      i < |m| && m[i] == r
    decreases bound
  {
    if r < bound - 1 { MemberAt(rankToNode, r, bound - 1); }
  }

  lemma {:induction false} MembersFacts(rankToNode: seq<nat>, n: nat, bound: nat, i: nat)
    requires bound <= |rankToNode| && i < |Members(rankToNode, n, bound)|
    ensures var r := Members(rankToNode, n, bound)[i];
      r < bound && rankToNode[r] == n && |Members(rankToNode, n, r)| == i
    decreases bound
  {
    if i < |Members(rankToNode, n, bound - 1)| { MembersFacts(rankToNode, n, bound - 1, i); }
  }

  ghost function CountMembers(rankToNode: seq<nat>, nNodes: nat, bound: nat): nat
    requires bound <= |rankToNode|
  {
    if nNodes == 0 then 0 else CountMembers(rankToNode, nNodes - 1, bound) + |Members(rankToNode, nNodes - 1, bound)|
  }

  lemma {:induction false} CountStep(rankToNode: seq<nat>, nNodes: nat, bound: nat)
    requires 0 < bound <= |rankToNode|
    ensures CountMembers(rankToNode, nNodes, bound)
         == CountMembers(rankToNode, nNodes, bound - 1) + if rankToNode[bound - 1] < nNodes then 1 else 0
  {
    if nNodes != 0 { CountStep(rankToNode, nNodes - 1, bound); }
  }

  /** Every rank is a member of exactly one node. */
  lemma {:induction false} CountAll(rankToNode: seq<nat>, nNodes: nat, bound: nat)
    requires bound <= |rankToNode| && forall r :: 0 <= r < |rankToNode| ==> rankToNode[r] < nNodes
    ensures CountMembers(rankToNode, nNodes, bound) == bound
  {
    if bound == 0 {
      CountNone(rankToNode, nNodes);
    } else {
      CountAll(rankToNode, nNodes, bound - 1);
      CountStep(rankToNode, nNodes, bound);
    }
  }

  lemma {:induction false} CountNone(rankToNode: seq<nat>, nNodes: nat)
    ensures CountMembers(rankToNode, nNodes, 0) == 0
  {
    if nNodes != 0 { CountNone(rankToNode, nNodes - 1); }
  }

  lemma {:induction false} CountUniform(rankToNode: seq<nat>, nNodes: nat, nLocals: nat)
    requires forall n :: 0 <= n < nNodes ==> |Members(rankToNode, n, |rankToNode|)| == nLocals
    ensures CountMembers(rankToNode, nNodes, |rankToNode|) == nNodes * nLocals
  {
    if nNodes != 0 {
      CountUniform(rankToNode, nNodes - 1, nLocals);
      MulDistributes(nLocals, nNodes, 1);
    }
  }

  /** How many ranks below `r` each node has. */
  ghost predicate Counted(rankToNode: seq<nat>, r: nat, counts: seq<nat>)
    requires r <= |rankToNode|
  {
    forall n :: 0 <= n < |counts| ==> counts[n] == |Members(rankToNode, n, r)|
  }

  lemma OneMoreRank(rankToNode: seq<nat>, r: nat, counts: seq<nat>)
    requires r < |rankToNode| && rankToNode[r] < |counts| && Counted(rankToNode, r, counts)
    ensures Counted(rankToNode, r + 1, counts[rankToNode[r] := counts[rankToNode[r]] + 1])
  {
  }

  /** Counting each node's ranks numbers them. */
  method NumberLocals(rankToNode: seq<nat>, nNodes: nat) returns (rankToLocal: seq<nat>, localRanks: seq<nat>)
    requires forall r :: 0 <= r < |rankToNode| ==> rankToNode[r] < nNodes
    ensures |rankToLocal| == |rankToNode| && |localRanks| == nNodes
    ensures forall r :: 0 <= r < |rankToNode| ==> rankToLocal[r] == |Members(rankToNode, rankToNode[r], r)|
    ensures forall n :: 0 <= n < nNodes ==> localRanks[n] == |Members(rankToNode, n, |rankToNode|)|
  {
    localRanks := seq(nNodes, _ => 0);
    rankToLocal := [];
    for r := 0 to |rankToNode|
      invariant |rankToLocal| == r && |localRanks| == nNodes
      invariant Counted(rankToNode, r, localRanks)
      invariant forall q :: 0 <= q < r ==> rankToLocal[q] == |Members(rankToNode, rankToNode[q], q)|
    {
      var node := rankToNode[r];
      OneMoreRank(rankToNode, r, localRanks);
      rankToLocal := rankToLocal + [localRanks[node]];
      localRanks := localRanks[node := localRanks[node] + 1];
    }
  }

  /** Filling each node's table, with its counter starting over from zero. */
  method FillTables(rankToNode: seq<nat>, nNodes: nat, tables: seq<seq<nat>>) returns (nodeRanks: seq<seq<nat>>)
    requires forall r :: 0 <= r < |rankToNode| ==> rankToNode[r] < nNodes
    requires |tables| == nNodes && forall n :: 0 <= n < nNodes ==> |tables[n]| == |Members(rankToNode, n, |rankToNode|)|
    ensures |nodeRanks| == nNodes
    ensures forall n :: 0 <= n < nNodes ==> nodeRanks[n] == Members(rankToNode, n, |rankToNode|)
  {
    var nRanks := |rankToNode|;
    nodeRanks := tables;
    var localRanks: seq<nat> := seq(nNodes, _ => 0);
    for r := 0 to nRanks
      invariant |nodeRanks| == nNodes && |localRanks| == nNodes
      invariant forall n :: 0 <= n < nNodes ==> |nodeRanks[n]| == |Members(rankToNode, n, nRanks)|
      invariant forall n :: 0 <= n < nNodes ==> localRanks[n] == |Members(rankToNode, n, r)| <= |nodeRanks[n]|
      invariant forall n :: 0 <= n < nNodes ==> nodeRanks[n][..localRanks[n]] == Members(rankToNode, n, r)
    {
      var node := rankToNode[r];
      MemberAt(rankToNode, r, nRanks);
      var i := localRanks[node];
      nodeRanks := nodeRanks[node := nodeRanks[node][i := r]];
      localRanks := localRanks[node := i + 1];
      assert nodeRanks[node][..i + 1] == Members(rankToNode, node, r) + [r];
    }
  }

  /** The table loops: count, allocate, then fill. */
  method BuildTables(rankToNode: seq<nat>, nNodes: nat)
    returns (rankToLocal: seq<nat>, nodeRanks: seq<seq<nat>>, maxLocals: nat)
    requires forall r :: 0 <= r < |rankToNode| ==> rankToNode[r] < nNodes
    ensures |rankToLocal| == |rankToNode| && |nodeRanks| == nNodes
    ensures forall r :: 0 <= r < |rankToNode| ==> rankToLocal[r] == |Members(rankToNode, rankToNode[r], r)|
    ensures forall n :: 0 <= n < nNodes ==> nodeRanks[n] == Members(rankToNode, n, |rankToNode|)
    ensures forall n :: 0 <= n < nNodes ==> |nodeRanks[n]| <= maxLocals
    ensures maxLocals == 0 || exists n :: 0 <= n < nNodes && |nodeRanks[n]| == maxLocals
  {
    var localRanks;
    rankToLocal, localRanks := NumberLocals(rankToNode, nNodes);
    nodeRanks, maxLocals := [], 0;
    ghost var widest: nat := 0;
    for n := 0 to nNodes
      invariant |nodeRanks| == n
      invariant forall m :: 0 <= m < n ==> |nodeRanks[m]| == localRanks[m] <= maxLocals
      invariant maxLocals == 0 || (widest < n && localRanks[widest] == maxLocals)
    {
      nodeRanks := nodeRanks + [seq(localRanks[n], _ => 0)];
      if maxLocals < localRanks[n] { widest := n; }
      maxLocals := Max(maxLocals, localRanks[n]);
    }
    nodeRanks := FillTables(rankToNode, nNodes, nodeRanks);
    assert maxLocals == 0 || |nodeRanks[widest]| == maxLocals;
  }

  // ---- the grid of ranks that the schedule walks ----

  /**
   Ranks arranged as nodes by local ranks. When nodes differ in size the schedule is `flat`:
   one node, and a rank is its own local index.
   */
  datatype Grid = Grid(flat: bool, nNodes: nat, nLocals: nat, node: seq<nat>, local: seq<nat>,
      nodeRanks: seq<seq<nat>>) {
    predicate Sized() {
      && 0 < nNodes && 0 < nLocals
      && |node| == |local|
      && (flat ==> nNodes == 1)
      && (!flat ==> |nodeRanks| == nNodes && forall n :: 0 <= n < nNodes ==> |nodeRanks[n]| == nLocals)
      && forall r :: 0 <= r < |node| ==> node[r] < nNodes && local[r] < nLocals
    }

    function RankAt(n: nat, i: nat): nat
      requires Sized() && n < nNodes && i < nLocals
    {
      if flat then i else nodeRanks[n][i]
    }

    /** Cells and ranks are in bijection. */
    ghost predicate Valid() {
      && Sized()
      && |node| == nNodes * nLocals
      && (forall r :: 0 <= r < |node| ==> Back(r))
      && forall n, i :: 0 <= n < nNodes && 0 <= i < nLocals ==> Cell(n, i)
    }

    ghost predicate Back(r: nat)
      requires Sized() && r < |node|
    {
      RankAt(node[r], local[r]) == r
    }

    ghost predicate Cell(n: nat, i: nat)
      requires Sized() && n < nNodes && i < nLocals
    {
      var r := RankAt(n, i);
      r < |node| && node[r] == n && local[r] == i
    }
  }

  datatype Round = Round(send: nat, recv: nat)

  datatype Delta = Delta(node: nat, local: nat)

  function Plus(x: nat, d: nat, n: nat): (y: nat)
    requires x < n && d < n
    ensures y < n
  {
    DivMod(x + d, n);
    (x + d) % n
  }

  function Minus(x: nat, d: nat, n: nat): (y: nat)
    requires x < n && d < n
    ensures y < n
  {
    DivMod(x - d + n, n);
    (x - d + n) % n
  }

  lemma PlusMinus(x: nat, d: nat, y: nat, n: nat)
    requires x < n && y < n && d < n
    ensures Plus(x, d, n) == y <==> Minus(y, d, n) == x
    ensures Plus(x, d, n) == x <==> d == 0
    ensures Minus(x, d, n) == x <==> d == 0
  {
    if x + d < n { ModSmall(x + d, n); } else { DivModUnique(x + d, n, 1, x + d - n); }
    if y < d { ModSmall(y - d + n, n); } else { DivModUnique(y - d + n, n, 1, y - d); }
    if x < d { ModSmall(x - d + n, n); } else { DivModUnique(x - d + n, n, 1, x - d); }
  }

  predicate InGrid(g: Grid, d: Delta) { d.node < g.nNodes && d.local < g.nLocals }

  /** The peers of a rank in the round with delta `d`. */
  function RoundOf(g: Grid, r: nat, d: Delta): Round
    requires g.Sized() && r < |g.node| && InGrid(g, d)
  {
    RoundFrom(g, Plus(g.node[r], d.node, g.nNodes), Minus(g.node[r], d.node, g.nNodes), g.local[r], d.local)
  }

  function RoundFrom(g: Grid, sendNode: nat, recvNode: nat, local: nat, d: nat): Round
    requires g.Sized() && sendNode < g.nNodes && recvNode < g.nNodes && local < g.nLocals && d < g.nLocals
  {
    Round(g.RankAt(sendNode, Plus(local, d, g.nLocals)), g.RankAt(recvNode, Minus(local, d, g.nLocals)))
  }

  /** When every node has the same number of ranks, the tables form a grid. */
  lemma TablesFormGrid(g: Grid)
    requires g.Sized() && !g.flat
    requires forall r :: 0 <= r < |g.node| ==> g.local[r] == |Members(g.node, g.node[r], r)|
    requires forall n :: 0 <= n < g.nNodes ==> g.nodeRanks[n] == Members(g.node, n, |g.node|)
    ensures g.Valid()
  {
    CountAll(g.node, g.nNodes, |g.node|);
    CountUniform(g.node, g.nNodes, g.nLocals);
    forall r | 0 <= r < |g.node| ensures g.Back(r) {
      MemberAt(g.node, r, |g.node|);
    }
    forall n, i | 0 <= n < g.nNodes && 0 <= i < g.nLocals ensures g.Cell(n, i) {
      MembersFacts(g.node, n, |g.node|, i);
    }
  }

  function FlatGrid(nRanks: nat, nodeRanks: seq<seq<nat>>): (g: Grid)
    requires 0 < nRanks
    ensures g.Valid() && g.flat && |g.node| == nRanks && g.nLocals == nRanks
    ensures forall r :: 0 <= r < nRanks ==> g.local[r] == r
  {
    Grid(true, 1, nRanks, seq(nRanks, r => 0), seq(nRanks, r requires 0 <= r => r), nodeRanks)
  }

  // ---- the rounds ----

  function Row(nodeDelta: nat, es: seq<nat>): (row: seq<Delta>)
    ensures |row| == |es| && forall i :: 0 <= i < |es| ==> row[i] == Delta(nodeDelta, es[i])
  {
    seq(|es|, i requires 0 <= i < |es| => Delta(nodeDelta, es[i]))
  }

  function Pairs(ds: seq<nat>, es: seq<nat>): seq<Delta> {
    if ds == [] then [] else Pairs(ds[..|ds| - 1], es) + Row(ds[|ds| - 1], es)
  }

  lemma {:induction false} PairsFacts(ds: seq<nat>, es: seq<nat>)
    requires Distinct(ds) && Distinct(es)
    ensures Distinct(Pairs(ds, es)) && |Pairs(ds, es)| == |ds| * |es|
    ensures forall k :: 0 <= k < |Pairs(ds, es)| ==> Pairs(ds, es)[k].node in ds && Pairs(ds, es)[k].local in es
  {
    if ds != [] {
      var d, rest := ds[|ds| - 1], ds[..|ds| - 1];
      PairsFacts(rest, es);
      MulDistributes(|es|, |ds|, 1);
      assert d !in rest;
    }
  }

  function Deltas2(nNodes: nat, nLocals: nat): seq<Delta> { Pairs(Deltas(nNodes), Deltas(nLocals)) }

  lemma Deltas2Facts(nNodes: nat, nLocals: nat)
    ensures var ds := Deltas2(nNodes, nLocals);
      && Distinct(ds) && |ds| == nNodes * nLocals
      && forall k :: 0 <= k < |ds| ==> ds[k].node < nNodes && ds[k].local < nLocals
  {
    DeltasArePermutation(nNodes);
    DeltasArePermutation(nLocals);
    PairsFacts(Deltas(nNodes), Deltas(nLocals));
  }

  /** Rank `r`'s schedule: its peers at each delta, in the common order of deltas. */
  ghost predicate IsSchedule(g: Grid, r: nat, sched: seq<Round>)
    requires g.Sized() && r < |g.node|
  {
    var ds := Deltas2(g.nNodes, g.nLocals);
    |sched| == |ds| && forall k :: 0 <= k < |ds| ==> InGrid(g, ds[k]) && sched[k] == RoundOf(g, r, ds[k])
  }

  /** Every rank is sent to in exactly one round and received from in exactly one round; no round is missing. */
  lemma PeersArePermutations(g: Grid, r: nat, sched: seq<Round>)
    requires g.Valid() && r < |g.node| && IsSchedule(g, r, sched)
    ensures |sched| == |g.node|
    ensures Permutation(seq(|sched|, k requires 0 <= k < |sched| => sched[k].send), |g.node|)
    ensures Permutation(seq(|sched|, k requires 0 <= k < |sched| => sched[k].recv), |g.node|)
  {
    var ds := Deltas2(g.nNodes, g.nLocals);
    Deltas2Facts(g.nNodes, g.nLocals);
    var sends := seq(|sched|, k requires 0 <= k < |sched| => sched[k].send);
    var recvs := seq(|sched|, k requires 0 <= k < |sched| => sched[k].recv);
    forall i, j | 0 <= i < j < |sched| ensures sends[i] != sends[j] && recvs[i] != recvs[j] {
      PeersDiffer(g, r, ds[i], ds[j]);
    }
    forall k | 0 <= k < |sched| ensures sends[k] < |g.node| && recvs[k] < |g.node| {
      PeersInRange(g, r, ds[k]);
    }
    Pigeonhole(sends, |g.node|);
    Pigeonhole(recvs, |g.node|);
  }

  lemma PeersInRange(g: Grid, r: nat, d: Delta)
    requires g.Valid() && r < |g.node| && InGrid(g, d)
    ensures RoundOf(g, r, d).send < |g.node| && RoundOf(g, r, d).recv < |g.node|
  {
    assert g.Cell(Plus(g.node[r], d.node, g.nNodes), Plus(g.local[r], d.local, g.nLocals));
    assert g.Cell(Minus(g.node[r], d.node, g.nNodes), Minus(g.local[r], d.local, g.nLocals));
  }

  lemma PeersDiffer(g: Grid, r: nat, d: Delta, d': Delta)
    requires g.Valid() && r < |g.node| && InGrid(g, d) && InGrid(g, d') && d != d'
    ensures RoundOf(g, r, d).send != RoundOf(g, r, d').send
    ensures RoundOf(g, r, d).recv != RoundOf(g, r, d').recv
  {
    var n, i := g.node[r], g.local[r];
    if d.node != d'.node {
      ShiftsDiffer(n, d.node, d'.node, g.nNodes);
    } else {
      ShiftsDiffer(i, d.local, d'.local, g.nLocals);
    }
    assert g.Cell(Plus(n, d.node, g.nNodes), Plus(i, d.local, g.nLocals));
    assert g.Cell(Plus(n, d'.node, g.nNodes), Plus(i, d'.local, g.nLocals));
    assert g.Cell(Minus(n, d.node, g.nNodes), Minus(i, d.local, g.nLocals));
    assert g.Cell(Minus(n, d'.node, g.nNodes), Minus(i, d'.local, g.nLocals));
  }

  lemma ShiftsDiffer(x: nat, d: nat, d': nat, n: nat)
    requires x < n && d < n && d' < n && d != d'
    ensures Plus(x, d, n) != Plus(x, d', n) && Minus(x, d, n) != Minus(x, d', n)
  {
    if Plus(x, d, n) == Plus(x, d', n) { ModApart(x + d, x + d', n); }
    if Minus(x, d, n) == Minus(x, d', n) { ModApart(x - d + n, x - d' + n, n); }
  }

  /** The two ends of a transfer meet: `a` sends to `b` in round `k` exactly when `b` receives from `a` in round `k`. */
  lemma RoundsMatch(g: Grid, a: nat, b: nat, sa: seq<Round>, sb: seq<Round>, k: nat)
    requires g.Valid() && a < |g.node| && b < |g.node|
    requires IsSchedule(g, a, sa) && IsSchedule(g, b, sb) && k < |sa|
    ensures k < |sb|
    ensures sa[k].send == b <==> sb[k].recv == a
    ensures sa[k].send == a <==> sa[k].recv == a
  {
    var d := Deltas2(g.nNodes, g.nLocals)[k];
    var n, m := g.nNodes, g.nLocals;
    PlusMinus(g.node[a], d.node, g.node[b], n);
    PlusMinus(g.local[a], d.local, g.local[b], m);
    assert g.Back(a) && g.Back(b);
    assert g.Cell(Plus(g.node[a], d.node, n), Plus(g.local[a], d.local, m));
    assert g.Cell(Minus(g.node[b], d.node, n), Minus(g.local[b], d.local, m));
    assert g.Cell(Minus(g.node[a], d.node, n), Minus(g.local[a], d.local, m));
  }

  // ---- the construction ----

  /** The quadratic update walks the triangular numbers modulo the period. */
  lemma QuadraticUpdate(n: nat, round: nat)
    ensures (Tri(round) % PeriodOf(n) + (round + 1)) % PeriodOf(n) == Tri(round + 1) % PeriodOf(n)
  {
    var p := PeriodOf(n);
    DivMod(Tri(round), p);
    ModAddMultiple(Tri(round) % p + (round + 1), p, Tri(round) / p);
  }

  /** The quadratic update of a delta. */
  method NextDelta(n: nat, round: nat, delta: nat) returns (delta': nat)
    requires delta == Tri(round) % PeriodOf(n)
    ensures delta' == Tri(round + 1) % PeriodOf(n)
  {
    QuadraticUpdate(n, round);
    delta' := (delta + (round + 1)) % PeriodOf(n);
  }

  predicate AllBelow(s: seq<nat>, n: nat) { forall i :: 0 <= i < |s| ==> s[i] < n }

  lemma {:induction false} DeltasBelow(n: nat, rounds: nat)
    ensures AllBelow(DeltasAfter(n, rounds), n)
  {
    if rounds != 0 { DeltasBelow(n, rounds - 1); }
  }

  function RowRounds(g: Grid, sendNode: nat, recvNode: nat, local: nat, es: seq<nat>): (rs: seq<Round>)
    requires g.Sized() && sendNode < g.nNodes && recvNode < g.nNodes && local < g.nLocals && AllBelow(es, g.nLocals)
    ensures |rs| == |es| && forall i :: 0 <= i < |es| ==> rs[i] == RoundFrom(g, sendNode, recvNode, local, es[i])
  {
    seq(|es|, i requires 0 <= i < |es| => RoundFrom(g, sendNode, recvNode, local, es[i]))
  }

  /** The inner loop: all local deltas for one pair of nodes. */
  method LocalRounds(g: Grid, sendNode: nat, recvNode: nat, local: nat) returns (rounds: seq<Round>)
    requires g.Sized() && sendNode < g.nNodes && recvNode < g.nNodes && local < g.nLocals
    ensures AllBelow(Deltas(g.nLocals), g.nLocals)
    ensures rounds == RowRounds(g, sendNode, recvNode, local, Deltas(g.nLocals))
  {
    var period := PeriodOf(g.nLocals);
    var localRound: nat, localDelta: nat := 0, 0;
    ModSmall(0, period);
    rounds := [];
    while localRound != period
      invariant localRound <= period && localDelta == Tri(localRound) % period
      invariant AllBelow(DeltasAfter(g.nLocals, localRound), g.nLocals)
      invariant rounds == RowRounds(g, sendNode, recvNode, local, DeltasAfter(g.nLocals, localRound))
      decreases period - localRound
    {
      if localDelta < g.nLocals {
        rounds := rounds + [RoundFrom(g, sendNode, recvNode, local, localDelta)];
      }
      DeltasBelow(g.nLocals, localRound + 1);
      localDelta := NextDelta(g.nLocals, localRound, localDelta);
      localRound := localRound + 1;
    }
  }

  function PairRounds(g: Grid, r: nat, ds: seq<nat>, es: seq<nat>): (rs: seq<Round>)
    requires g.Sized() && r < |g.node| && AllBelow(ds, g.nNodes) && AllBelow(es, g.nLocals)
  {
    if ds == [] then [] else
    var d := ds[|ds| - 1];
    PairRounds(g, r, ds[..|ds| - 1], es)
      + RowRounds(g, Plus(g.node[r], d, g.nNodes), Minus(g.node[r], d, g.nNodes), g.local[r], es)
  }

  /** Row by row is pair by pair. */
  lemma {:induction false} PairRoundsAre(g: Grid, r: nat, ds: seq<nat>, es: seq<nat>)
    requires g.Sized() && r < |g.node| && AllBelow(ds, g.nNodes) && AllBelow(es, g.nLocals)
    ensures |PairRounds(g, r, ds, es)| == |Pairs(ds, es)|
    ensures forall k :: 0 <= k < |Pairs(ds, es)| ==>
      InGrid(g, Pairs(ds, es)[k]) && PairRounds(g, r, ds, es)[k] == RoundOf(g, r, Pairs(ds, es)[k])
  {
    if ds != [] { PairRoundsAre(g, r, ds[..|ds| - 1], es); }
  }

  lemma PairRoundsSchedule(g: Grid, r: nat)
    requires g.Sized() && r < |g.node|
    ensures AllBelow(Deltas(g.nNodes), g.nNodes) && AllBelow(Deltas(g.nLocals), g.nLocals)
    ensures IsSchedule(g, r, PairRounds(g, r, Deltas(g.nNodes), Deltas(g.nLocals)))
  {
    DeltasBelow(g.nNodes, PeriodOf(g.nNodes));
    DeltasBelow(g.nLocals, PeriodOf(g.nLocals));
    PairRoundsAre(g, r, Deltas(g.nNodes), Deltas(g.nLocals));
  }

  /** With one node left, every node number is the same modulo one. */
  lemma SameNodes(g: Grid, node: nat, r: nat, d: nat)
    requires g.Sized() && r < |g.node| && (g.flat || node == g.node[r]) && d < g.nNodes
    ensures (node + d) % g.nNodes == Plus(g.node[r], d, g.nNodes)
    ensures (node - d + g.nNodes) % g.nNodes == Minus(g.node[r], d, g.nNodes)
  {
  }

  /** One more delta is one more row. */
  lemma PairRoundsNext(g: Grid, r: nat, round: nat, es: seq<nat>)
    requires g.Sized() && r < |g.node| && AllBelow(es, g.nLocals)
    ensures AllBelow(DeltasAfter(g.nNodes, round), g.nNodes) && AllBelow(DeltasAfter(g.nNodes, round + 1), g.nNodes)
    ensures var d := Tri(round) % PeriodOf(g.nNodes);
      PairRounds(g, r, DeltasAfter(g.nNodes, round + 1), es) == PairRounds(g, r, DeltasAfter(g.nNodes, round), es)
        + if d < g.nNodes then RowRounds(g, Plus(g.node[r], d, g.nNodes), Minus(g.node[r], d, g.nNodes), g.local[r], es)
          else []
  {
    DeltasBelow(g.nNodes, round);
    DeltasBelow(g.nNodes, round + 1);
    var ds, d := DeltasAfter(g.nNodes, round), Tri(round) % PeriodOf(g.nNodes);
    if d < g.nNodes {
      assert (ds + [d])[..|ds|] == ds;
    } else {
      assert ds + [] == ds;
    }
  }

  /** The outer loop's body: one node delta, if it makes sense. */
  method NodeRounds(g: Grid, node: nat, local: nat, nodeDelta: nat, ghost r: nat) returns (rounds: seq<Round>)
    requires g.Sized() && r < |g.node| && local == g.local[r] && (g.flat || node == g.node[r])
    ensures AllBelow(Deltas(g.nLocals), g.nLocals)
    ensures rounds == if nodeDelta < g.nNodes
      then RowRounds(g, Plus(g.node[r], nodeDelta, g.nNodes), Minus(g.node[r], nodeDelta, g.nNodes), g.local[r],
          Deltas(g.nLocals))
      else []
  {
    rounds := [];
    if nodeDelta < g.nNodes {
      SameNodes(g, node, r, nodeDelta);
      var sendNode: nat := (node + nodeDelta) % g.nNodes;
      var recvNode: nat := (node - nodeDelta + g.nNodes) % g.nNodes;
      rounds := LocalRounds(g, sendNode, recvNode, local);
    }
    DeltasBelow(g.nLocals, PeriodOf(g.nLocals));
  }

  /** The outer loop: all node deltas. `node` may be any node number when there is only one node left. */
  method AllRounds(g: Grid, node: nat, local: nat, ghost r: nat) returns (rounds: seq<Round>)
    requires g.Sized() && r < |g.node| && local == g.local[r] && (g.flat || node == g.node[r])
    ensures AllBelow(Deltas(g.nNodes), g.nNodes) && AllBelow(Deltas(g.nLocals), g.nLocals)
    ensures rounds == PairRounds(g, r, Deltas(g.nNodes), Deltas(g.nLocals))
  {
    var period := PeriodOf(g.nNodes);
    var nodeRound: nat, nodeDelta: nat := 0, 0;
    ModSmall(0, period);
    DeltasBelow(g.nLocals, PeriodOf(g.nLocals));
    rounds := [];
    while nodeRound != period
      invariant nodeRound <= period && RowsDone(g, r, nodeRound, nodeDelta, rounds)
      decreases period - nodeRound
    {
      rounds, nodeDelta := NextRow(g, node, local, nodeRound, nodeDelta, rounds, r);
      nodeRound := nodeRound + 1;
    }
  }

  /** The rounds of the first `nodeRound` candidates for a node delta. */
  ghost predicate RowsDone(g: Grid, r: nat, nodeRound: nat, nodeDelta: nat, rounds: seq<Round>)
    requires g.Sized() && r < |g.node|
  {
    && nodeDelta == Tri(nodeRound) % PeriodOf(g.nNodes)
    && AllBelow(Deltas(g.nLocals), g.nLocals) && AllBelow(DeltasAfter(g.nNodes, nodeRound), g.nNodes)
    && rounds == PairRounds(g, r, DeltasAfter(g.nNodes, nodeRound), Deltas(g.nLocals))
  }

  method NextRow(g: Grid, node: nat, local: nat, nodeRound: nat, nodeDelta: nat, rounds: seq<Round>, ghost r: nat)
    returns (rounds': seq<Round>, nodeDelta': nat)
    requires g.Sized() && r < |g.node| && local == g.local[r] && (g.flat || node == g.node[r])
    requires RowsDone(g, r, nodeRound, nodeDelta, rounds)
    ensures RowsDone(g, r, nodeRound + 1, nodeDelta', rounds')
  {
    var more := NodeRounds(g, node, local, nodeDelta, r);
    rounds' := rounds + more;
    PairRoundsNext(g, r, nodeRound, Deltas(g.nLocals));
    nodeDelta' := NextDelta(g.nNodes, nodeRound, nodeDelta);
  }

  /** The grid every rank derives from the same node numbers. */
  ghost function GridOf(rankToNode: seq<nat>, nNodes: nat): Grid
    requires 0 < |rankToNode| && 0 < nNodes
  {
    var tables := seq(nNodes, n requires 0 <= n => Members(rankToNode, n, |rankToNode|));
    var locals := seq(|rankToNode|, r requires 0 <= r < |rankToNode| => |Members(rankToNode, rankToNode[r], r)|);
    if forall n :: 0 <= n < nNodes ==> |tables[n]| == |tables[0]|
    then Grid(false, nNodes, |tables[0]|, rankToNode, locals, tables)
    else FlatGrid(|rankToNode|, tables)
  }

  /** The tables and the schedule of one rank. The source's check that every round was filled cannot fail. */
  method BuildSchedule(rankToNode: seq<nat>, nNodes: nat, rank: nat) returns (sched: seq<Round>, ok: bool)
    requires rank < |rankToNode| && 0 < nNodes && forall r :: 0 <= r < |rankToNode| ==> rankToNode[r] < nNodes
    ensures ok
    ensures var g := GridOf(rankToNode, nNodes); g.Valid() && |g.node| == |rankToNode| && IsSchedule(g, rank, sched)
  {
    var nRanks := |rankToNode|;
    var rankToLocal, nodeRanks, maxLocals := BuildTables(rankToNode, nNodes);
    var node, local, nLocals, nodes := rankToNode[rank], rankToLocal[rank], maxLocals, nNodes;
    var flat := Uneven(nodeRanks, maxLocals);
    if flat { nodes, nLocals, local := 1, nRanks, rank; }
    var grid := if flat then FlatGrid(nRanks, nodeRanks)
      else Grid(false, nodes, nLocals, rankToNode, rankToLocal, nodeRanks);
    GridIs(rankToNode, nNodes, rankToLocal, nodeRanks, maxLocals);
    sched := AllRounds(grid, node, local, rank);
    PairRoundsSchedule(grid, rank);
    PeersArePermutations(grid, rank, sched);
    ok := |sched| == nRanks;
  }

  /** The loop that looks for a node with fewer ranks. */
  method Uneven(nodeRanks: seq<seq<nat>>, maxLocals: nat) returns (flat: bool)
    ensures flat <==> exists n :: 0 <= n < |nodeRanks| && |nodeRanks[n]| != maxLocals
  {
    flat := false;
    for n := 0 to |nodeRanks|
      invariant !flat && forall m :: 0 <= m < n ==> |nodeRanks[m]| == maxLocals
    {
      if |nodeRanks[n]| != maxLocals { return true; }
    }
  }

  lemma GridIs(rankToNode: seq<nat>, nNodes: nat, rankToLocal: seq<nat>, nodeRanks: seq<seq<nat>>, maxLocals: nat)
    requires 0 < |rankToNode| == |rankToLocal| && 0 < nNodes == |nodeRanks|
    requires forall r :: 0 <= r < |rankToNode| ==>
      rankToNode[r] < nNodes && rankToLocal[r] == |Members(rankToNode, rankToNode[r], r)|
    requires forall n :: 0 <= n < nNodes ==>
      nodeRanks[n] == Members(rankToNode, n, |rankToNode|) && |nodeRanks[n]| <= maxLocals
    requires maxLocals == 0 || exists n :: 0 <= n < nNodes && |nodeRanks[n]| == maxLocals
    ensures GridOf(rankToNode, nNodes).Valid()
    ensures GridOf(rankToNode, nNodes) ==
      if exists n :: 0 <= n < nNodes && |nodeRanks[n]| != maxLocals then FlatGrid(|rankToNode|, nodeRanks)
      else Grid(false, nNodes, maxLocals, rankToNode, rankToLocal, nodeRanks)
  {
    var g := GridOf(rankToNode, nNodes);
    assert g.nodeRanks == nodeRanks;
    MemberAt(rankToNode, 0, |rankToNode|);
    if !g.flat {
      assert g.local == rankToLocal;
      forall r | 0 <= r < |rankToNode| ensures rankToLocal[r] < g.nLocals { MemberAt(rankToNode, r, |rankToNode|); }
      TablesFormGrid(g);
    }
  }
}
