/**
 The rendezvous that builds the bootstrap ring. Ranks are divided among roots; every rank checks
 in with its root, and the first rank of each root also with the previous root. A root answers
 each of its own ranks with the connect information of the next one, as soon as it knows both.
 */
module Bootstrap {
  import opened Arith
  import opened Sequences

  // ---- the division of ranks among roots ----

  /** BOOTSTRAP_PID, for arguments of at least -n. */
  function Pid(i: int, n: nat): (p: nat)
    requires 0 < n
    ensures p < n
    ensures 0 <= i + n < n ==> p == i + n
    ensures 0 <= i < n ==> p == i
    ensures n <= i < 2 * n ==> p == i - n
  {
    DivMod(i + n, n);
    assert 0 <= i + n < n ==> (i + n) % n == i + n by { if 0 <= i + n < n { ModSmall(i + n, n); } }
    assert 0 <= i < n ==> (i + n) % n == i by { if 0 <= i < n { DivModUnique(i + n, n, 1, i); } }
    assert n <= i < 2 * n ==> (i + n) % n == i - n by { if n <= i < 2 * n { DivModUnique(i + n, n, 2, i - n); } }
    (i + n) % n
  }

  function FirstRankFromRoot(root: nat, nRanks: nat, nRoots: nat): nat
    requires 0 < nRoots
  {
    DivNonneg(nRanks, nRoots);
    MulNonneg(root, nRanks / nRoots);
    DivMod(nRanks, nRoots);
    root * (nRanks / nRoots) + Min(root, nRanks % nRoots)
  }

  function RootIdFromRank(rank: nat, nRanks: nat, nRoots: nat): int
    requires 0 < nRoots <= nRanks
  {
    var rmr, rpr := nRanks % nRoots, nRanks / nRoots;
    DivAtLeast(nRanks, nRoots, 1);
    var d := rmr * (rpr + 1);
    if rank < d then rank / (rpr + 1) else (rank - d) / rpr + rmr
  }

  function NRankFromRoot(root: nat, nRanks: nat, nRoots: nat): (n: nat)
    requires 0 < nRoots
  {
    DivNonneg(nRanks, nRoots);
    nRanks / nRoots + if Pid(root, nRoots) < nRanks % nRoots then 1 else 0
  }

  function LocalIdFromRoot(rank: nat, root: nat, nRanks: nat, nRoots: nat): int
    requires 0 < nRoots
  {
    rank - FirstRankFromRoot(Pid(root, nRoots), nRanks, nRoots)
  }

  /** Roots own consecutive, non-empty intervals that cover all ranks. */
  lemma Intervals(root: nat, nRanks: nat, nRoots: nat)
    requires 0 < nRoots <= nRanks && root < nRoots
    ensures FirstRankFromRoot(0, nRanks, nRoots) == 0
    ensures FirstRankFromRoot(nRoots, nRanks, nRoots) == nRanks
    ensures 1 <= NRankFromRoot(root, nRanks, nRoots)
    ensures FirstRankFromRoot(root + 1, nRanks, nRoots)
       == FirstRankFromRoot(root, nRanks, nRoots) + NRankFromRoot(root, nRanks, nRoots)
    ensures Pid(root, nRoots) == root
  {
    var rmr, rpr := nRanks % nRoots, nRanks / nRoots;
    DivMod(nRanks, nRoots);
    DivAtLeast(nRanks, nRoots, 1);
    MulDistributes(rpr, root, 1);
    ModAddMultiple(root, nRoots, 1);
    ModSmall(root, nRoots);
  }

  lemma {:induction false} FirstsGrow(a: nat, b: nat, nRanks: nat, nRoots: nat)
    requires 0 < nRoots <= nRanks && a <= b <= nRoots
    ensures FirstRankFromRoot(a, nRanks, nRoots) <= FirstRankFromRoot(b, nRanks, nRoots)
    decreases b
  {
    if a < b {
      FirstsGrow(a, b - 1, nRanks, nRoots);
      Intervals(b - 1, nRanks, nRoots);
    }
  }

  /** A rank's root is the one whose interval holds it. */
  lemma RootOwnsRank(rank: nat, nRanks: nat, nRoots: nat)
    requires 0 < nRoots <= nRanks && rank < nRanks
    ensures var g := RootIdFromRank(rank, nRanks, nRoots);
      0 <= g < nRoots && FirstRankFromRoot(g, nRanks, nRoots) <= rank < FirstRankFromRoot(g + 1, nRanks, nRoots)
  {
    var rmr, rpr := nRanks % nRoots, nRanks / nRoots;
    DivMod(nRanks, nRoots);
    DivAtLeast(nRanks, nRoots, 1);
    var d, g := rmr * (rpr + 1), RootIdFromRank(rank, nRanks, nRoots);
    MulDistributes(rmr, rpr, 1);
    if rank < d {
      DivMod(rank, rpr + 1);
      DivNonneg(rank, rpr + 1);
      DivBelow(rank, rpr + 1, rmr);
      MulDistributes(g, rpr, 1);
      MulDistributes(rpr, g, 1);
      assert (rpr + 1) * g == g * (rpr + 1);
    } else {
      var x := rank - d;
      DivMod(x, rpr);
      DivNonneg(x, rpr);
      MulDistributes(rpr, nRoots, rmr);
      assert nRoots * rpr == rpr * nRoots;
      DivBelow(x, rpr, nRoots - rmr);
      MulDistributes(rpr, x / rpr, rmr);
      MulDistributes(rpr, g, 1);
    }
  }

  function RootOf(rank: nat, nRanks: nat, nRoots: nat): (g: nat)
    requires 0 < nRoots <= nRanks && rank < nRanks
    ensures g == RootIdFromRank(rank, nRanks, nRoots) < nRoots
    ensures FirstRankFromRoot(g, nRanks, nRoots) <= rank < FirstRankFromRoot(g + 1, nRanks, nRoots)
  {
    RootOwnsRank(rank, nRanks, nRoots);
    RootIdFromRank(rank, nRanks, nRoots)
  }

  lemma RootUnique(rank: nat, g: nat, nRanks: nat, nRoots: nat)
    requires 0 < nRoots <= nRanks && rank < nRanks && g < nRoots
    requires FirstRankFromRoot(g, nRanks, nRoots) <= rank < FirstRankFromRoot(g + 1, nRanks, nRoots)
    ensures RootIdFromRank(rank, nRanks, nRoots) == g
  {
    RootOwnsRank(rank, nRanks, nRoots);
    var g' := RootIdFromRank(rank, nRanks, nRoots);
    if g < g' { FirstsGrow(g + 1, g', nRanks, nRoots); }
    if g' < g { FirstsGrow(g' + 1, g, nRanks, nRoots); }
  }

  // ---- one root ----

  /** What a rank tells a root. Addresses and connect information are numbers; zero means not known. */
  datatype ExtInfo = ExtInfo(rank: nat, nRanks: nat, iroot: nat, nRoots: nat, addr: nat, info: nat)

  datatype Reply = Reply(addr: nat, info: nat)

  /** A root's share: `n2send` ranks of its own and, with several roots, one more check-in. */
  datatype Share = Share(n2send: nat, multi: bool) {
    predicate Valid() { 0 < n2send }

    function NRecv(): nat { n2send + if multi then 1 else 0 }

    /** The local id that must be told about `id`; none if it belongs to another root. */
    function Prev(id: nat): int
      requires Valid()
    {
      if multi then id - 1 else Pid(id - 1, NRecv())
    }

    function NextOf(id: nat): (n: nat)
      requires Valid()
      ensures n < NRecv()
    {
      Pid(id + 1, NRecv())
    }
  }

  /** The root's tables, by local id, and what it has sent. */
  datatype Desk = Desk(infos: seq<nat>, addrs: seq<nat>, replies: seq<Reply>) {
    predicate Fits(p: Share) { p.Valid() && |infos| == |addrs| == p.NRecv() }

    /** One check-in: forward to the previous rank or keep the info; answer from the next rank or keep the address. */
    function CheckIn(p: Share, id: nat, addr: nat, info: nat): (d: Desk)
      requires Fits(p) && id < p.NRecv()
      ensures d.Fits(p)
    {
      var prev, next := p.Prev(id), p.NextOf(id);
      var d := if 0 <= prev < p.n2send && addrs[prev] != 0
        then this.(replies := replies + [Reply(addrs[prev], info)])
        else this.(infos := infos[id := info]);
      if id < p.n2send && d.infos[next] != 0
      then d.(replies := d.replies + [Reply(addr, d.infos[next])])
      else d.(addrs := d.addrs[id := addr])
    }
  }

  datatype Contact = Contact(addr: nat, info: nat)

  /** Whether `prev` has to be told about `id` when `id` checks in after `before`. */
  predicate TellsPrev(p: Share, before: seq<nat>, id: nat)
    requires p.Valid()
  {
    0 <= p.Prev(id) < p.n2send && p.Prev(id) in before
  }

  /** Whether `id` itself is answered at once. */
  predicate TellsSelf(p: Share, before: seq<nat>, id: nat)
    requires p.Valid()
  {
    id < p.n2send && (p.NextOf(id) in before || p.NextOf(id) == id)
  }

  /** The ranks a root has answered after the check-ins of `order`, in the order of its answers. */
  function Served(p: Share, order: seq<nat>): seq<nat>
    requires p.Valid()
  {
    if order == [] then [] else
    var id, before := order[|order| - 1], order[..|order| - 1];
    Served(p, before)
      + (if TellsPrev(p, before, id) then [p.Prev(id)] else [])
      + (if TellsSelf(p, before, id) then [id] else [])
  }

  /** On a root's own ranks, next and previous are inverse. */
  lemma NextPrev(p: Share, a: nat, b: nat)
    requires p.Valid() && a < p.n2send && b < p.NRecv()
    ensures p.NextOf(a) == b <==> p.Prev(b) == a
  {
  }

  /** A rank is answered exactly once, when both it and its next have checked in. */
  ghost predicate ServedOk(p: Share, order: seq<nat>, served: seq<nat>)
    requires p.Valid()
  {
    Distinct(served) && forall r: nat :: r in served <==> r < p.n2send && r in order && p.NextOf(r) in order
  }

  lemma {:induction false} ServedOnce(p: Share, order: seq<nat>)
    requires p.Valid() && Distinct(order) && forall k :: 0 <= k < |order| ==> order[k] < p.NRecv()
    ensures ServedOk(p, order, Served(p, order))
  {
    if order != [] {
      var id, before := order[|order| - 1], order[..|order| - 1];
      ServedOnce(p, before);
      ServedNext(p, before, id, Served(p, before));
      assert order == before + [id];
    }
  }

  lemma ServedNext(p: Share, before: seq<nat>, id: nat, served: seq<nat>)
    requires p.Valid() && id < p.NRecv() && id !in before && ServedOk(p, before, served)
    ensures ServedOk(p, before + [id],
      served + (if TellsPrev(p, before, id) then [p.Prev(id)] else [])
      + (if TellsSelf(p, before, id) then [id] else []))
  {
    var mid := if TellsPrev(p, before, id) then [p.Prev(id) as nat] else [];
    var own := if TellsSelf(p, before, id) then [id] else [];
    assert id !in served;
    if TellsPrev(p, before, id) { NextPrev(p, p.Prev(id), id); assert p.Prev(id) !in served; }
    forall r: nat
      ensures r in served + mid + own <==> r < p.n2send && r in before + [id] && p.NextOf(r) in before + [id]
    {
      if r < p.n2send { NextPrev(p, r, id); }
    }
  }

  /** A rank and its next: whoever came first waits in the tables; once both came, one entry stays empty. */
  ghost predicate PairInv(p: Share, d: Desk, table: seq<Contact>, order: seq<nat>, r: nat)
    requires d.Fits(p) && |table| == p.NRecv() && r < p.n2send
  {
    var n := p.NextOf(r);
    && (r in order && n !in order ==> d.addrs[r] == table[r].addr)
    && (r !in order && n in order ==> d.infos[n] == table[n].info)
    && (r in order && n in order ==> d.addrs[r] == 0 || d.infos[n] == 0)
  }

  /** What a rank must be told: the connect information of its next. */
  function Answer(p: Share, table: seq<Contact>, r: nat): Reply
    requires p.Valid() && |table| == p.NRecv() && r < p.n2send
  {
    Reply(table[r].addr, table[p.NextOf(r)].info)
  }

  ghost predicate RepliesOk(p: Share, table: seq<Contact>, served: seq<nat>, replies: seq<Reply>)
    requires p.Valid() && |table| == p.NRecv()
  {
    |replies| == |served| && forall k :: 0 <= k < |served| ==>
      served[k] < p.n2send && replies[k] == Answer(p, table, served[k])
  }

  ghost predicate DeskInv(p: Share, d: Desk, table: seq<Contact>, order: seq<nat>) {
    && d.Fits(p) && |table| == p.NRecv()
    && (forall i :: 0 <= i < p.NRecv() && i !in order ==> d.infos[i] == 0 && d.addrs[i] == 0)
    && (forall r :: 0 <= r < p.n2send ==> PairInv(p, d, table, order, r))
    && RepliesOk(p, table, Served(p, order), d.replies)
  }

  ghost predicate NonZero(table: seq<Contact>) {
    forall i :: 0 <= i < |table| ==> table[i].addr != 0 && table[i].info != 0
  }

  /** The tables tell the root exactly what `TellsPrev` and `TellsSelf` say. */
  lemma CheckInActs(p: Share, d: Desk, table: seq<Contact>, order: seq<nat>, id: nat)
    requires NonZero(table) && DeskInv(p, d, table, order) && id < p.NRecv() && id !in order
    ensures d.addrs[id] == 0 && d.infos[id] == 0
    ensures var prev := p.Prev(id); (0 <= prev < p.n2send && d.addrs[prev] != 0) <==> TellsPrev(p, order, id)
    ensures TellsPrev(p, order, id) ==> d.addrs[p.Prev(id)] == table[p.Prev(id)].addr
    ensures id < p.n2send && p.NextOf(id) in order ==> d.infos[p.NextOf(id)] == table[p.NextOf(id)].info
    ensures p.NextOf(id) !in order ==> d.infos[p.NextOf(id)] == 0
  {
    var prev := p.Prev(id);
    if 0 <= prev < p.n2send {
      NextPrev(p, prev, id);
      assert PairInv(p, d, table, order, prev);
    }
    if id < p.n2send { assert PairInv(p, d, table, order, id); }
  }

  lemma CheckInKeepsPair(p: Share, d: Desk, table: seq<Contact>, order: seq<nat>, id: nat, r: nat)
    requires NonZero(table) && DeskInv(p, d, table, order) && id < p.NRecv() && id !in order && r < p.n2send
    ensures PairInv(p, d.CheckIn(p, id, table[id].addr, table[id].info), table, order + [id], r)
  {
    CheckInActs(p, d, table, order, id);
    NextPrev(p, r, id);
    assert PairInv(p, d, table, order, r);
  }

  lemma CheckInKeepsInv(p: Share, d: Desk, table: seq<Contact>, order: seq<nat>, id: nat)
    requires NonZero(table) && DeskInv(p, d, table, order) && id < p.NRecv() && id !in order
    ensures DeskInv(p, d.CheckIn(p, id, table[id].addr, table[id].info), table, order + [id])
    ensures d.addrs[id] == 0 && d.infos[id] == 0
  {
    var d', order' := d.CheckIn(p, id, table[id].addr, table[id].info), order + [id];
    CheckInActs(p, d, table, order, id);
    forall r | 0 <= r < p.n2send
      ensures PairInv(p, d', table, order', r)
    {
      CheckInKeepsPair(p, d, table, order, id, r);
    }
    assert order'[..|order|] == order;
    if TellsPrev(p, order, id) { NextPrev(p, p.Prev(id), id); }
  }

  datatype Outcome = Collected | Mismatch | Duplicate

  function ShareOf(x: ExtInfo): Share
    requires 0 < x.nRoots
  {
    Share(NRankFromRoot(x.iroot, x.nRanks, x.nRoots), 1 < x.nRoots)
  }

  predicate SameHeader(x: ExtInfo, y: ExtInfo) { x.nRanks == y.nRanks && x.nRoots == y.nRoots && x.iroot == y.iroot }

  /** A check-in as the root that expects the header of `x` reads it. */
  datatype Arrival = Arrival(sameHeader: bool, id: nat, contact: Contact)

  function Read(x: ExtInfo, y: ExtInfo): Arrival
    requires 0 < x.nRoots && 0 <= LocalIdFromRoot(y.rank, x.iroot, x.nRanks, x.nRoots)
  {
    Arrival(SameHeader(x, y), LocalIdFromRoot(y.rank, x.iroot, x.nRanks, x.nRoots), Contact(y.addr, y.info))
  }

  /** The arrivals are check-ins of the contacts in `table`, each local id once, in the order `order`. */
  ghost predicate AllCheckIn(p: Share, arrivals: seq<Arrival>, table: seq<Contact>, order: seq<nat>) {
    && p.Valid() && |table| == |order| == p.NRecv() <= |arrivals|
    && NonZero(table) && Distinct(order)
    && forall k :: 0 <= k < |order| ==>
      arrivals[k].sameHeader && order[k] == arrivals[k].id < |table| && table[order[k]] == arrivals[k].contact
  }

  /** An entry of either table was put there by an earlier arrival with that local id. */
  ghost predicate Traced(arrivals: seq<Arrival>, c: nat, entries: seq<nat>)
    requires c <= |arrivals|
  {
    forall i :: 0 <= i < |entries| && entries[i] != 0 ==> exists k :: 0 <= k < c && arrivals[k].id == i
  }

  lemma TracedOn(arrivals: seq<Arrival>, c: nat, before: seq<nat>, after: seq<nat>)
    requires c < |arrivals| && Traced(arrivals, c, before)
    requires |before| == |after| && forall i :: 0 <= i < |before| && i != arrivals[c].id ==> after[i] == before[i]
    ensures Traced(arrivals, c + 1, after)
  {
    forall i | 0 <= i < |after| && after[i] != 0 ensures exists k :: 0 <= k < c + 1 && arrivals[k].id == i {
      if i != arrivals[c].id { assert before[i] != 0; }
    }
  }

  ghost predicate DeskTraced(arrivals: seq<Arrival>, c: nat, d: Desk)
    requires c <= |arrivals|
  {
    Traced(arrivals, c, d.infos) && Traced(arrivals, c, d.addrs)
  }

  lemma CheckInIsTraced(p: Share, arrivals: seq<Arrival>, c: nat, d: Desk)
    requires c < |arrivals| && d.Fits(p) && arrivals[c].id < p.NRecv() && DeskTraced(arrivals, c, d)
    ensures var a := arrivals[c]; DeskTraced(arrivals, c + 1, d.CheckIn(p, a.id, a.contact.addr, a.contact.info))
  {
    var d' := d.CheckIn(p, arrivals[c].id, arrivals[c].contact.addr, arrivals[c].contact.info);
    TracedOn(arrivals, c, d.infos, d'.infos);
    TracedOn(arrivals, c, d.addrs, d'.addrs);
  }

  lemma SeenBefore(arrivals: seq<Arrival>, c: nat, d: Desk)
    requires c < |arrivals| && DeskTraced(arrivals, c, d) && arrivals[c].id < |d.infos| == |d.addrs|
    requires d.addrs[arrivals[c].id] != 0 || d.infos[arrivals[c].id] != 0
    ensures exists j, k :: 0 <= j < k < |arrivals| && arrivals[j].id == arrivals[k].id
  {
    var j :| 0 <= j < c && arrivals[j].id == arrivals[c].id;
  }

  lemma NextArrival(p: Share, arrivals: seq<Arrival>, table: seq<Contact>, order: seq<nat>, c: nat, d: Desk)
    requires AllCheckIn(p, arrivals, table, order) && c < p.NRecv() && DeskInv(p, d, table, order[..c])
    ensures var a := arrivals[c];
      && a.sameHeader && a.id < p.NRecv() && d.addrs[a.id] == 0 && d.infos[a.id] == 0
      && DeskInv(p, d.CheckIn(p, a.id, a.contact.addr, a.contact.info), table, order[..c + 1])
  {
    var id := arrivals[c].id;
    assert order[c] == id && id !in order[..c];
    CheckInKeepsInv(p, d, table, order[..c], id);
    assert order[..c + 1] == order[..c] + [id];
  }

  /** The body of the collect loop, on the root's two arrays. */
  method HandleCheckIn(p: Share, rankInfo: array<nat>, rankAddress: array<nat>, localId: nat, addr: nat, info: nat,
      ghost sent: seq<Reply>)
    returns (replies: seq<Reply>)
    requires p.Valid() && rankInfo.Length == rankAddress.Length == p.NRecv() && localId < p.NRecv()
    requires rankInfo != rankAddress
    modifies rankInfo, rankAddress
    ensures Desk(rankInfo[..], rankAddress[..], sent + replies)
         == old(Desk(rankInfo[..], rankAddress[..], sent)).CheckIn(p, localId, addr, info)
    ensures forall i :: 0 <= i < p.NRecv() && i != localId ==>
      rankInfo[i] == old(rankInfo[i]) && rankAddress[i] == old(rankAddress[i])
  {
    replies := [];
    var prev: int := if p.multi then localId - 1 else Pid(localId - 1, rankInfo.Length);
    if 0 <= prev < p.n2send && rankAddress[prev] != 0 {
      replies := replies + [Reply(rankAddress[prev], info)];
    } else {
      rankInfo[localId] := info;
    }
    var next := Pid(localId + 1, rankInfo.Length);
    if localId < p.n2send && rankInfo[next] != 0 {
      replies := replies + [Reply(addr, rankInfo[next])];
    } else {
      rankAddress[localId] := addr;
    }
  }

  lemma EmptyDesk(p: Share, d: Desk, table: seq<Contact>)
    requires d.Fits(p) && |table| == p.NRecv() && d.replies == []
    requires forall i :: 0 <= i < p.NRecv() ==> d.infos[i] == 0 && d.addrs[i] == 0
    ensures DeskInv(p, d, table, [])
  {
    forall r | 0 <= r < p.n2send ensures PairInv(p, d, table, [], r) {}
  }

  /** One turn of the collect loop on values. */
  ghost function Turn(p: Share, d: Desk, a: Arrival): (r: (Outcome, Desk))
    requires p.Valid() && d.Fits(p) && a.id < p.NRecv()
    ensures r.1.Fits(p)
  {
    if !a.sameHeader then (Mismatch, d)
    else if d.addrs[a.id] != 0 || d.infos[a.id] != 0 then (Duplicate, d)
    else (Collected, d.CheckIn(p, a.id, a.contact.addr, a.contact.info))
  }

  /** The collect loop on values: the outcome and the tables after `c` check-ins. */
  ghost function Collecting(p: Share, arrivals: seq<Arrival>, c: nat): (r: (Outcome, Desk))
    requires p.Valid() && c <= |arrivals| && forall k :: 0 <= k < |arrivals| ==> arrivals[k].id < p.NRecv()
    ensures r.1.Fits(p)
  {
    if c == 0 then (Collected, Desk(seq(p.NRecv(), _ => 0), seq(p.NRecv(), _ => 0), [])) else
    var (outcome, d) := Collecting(p, arrivals, c - 1);
    if outcome != Collected then (outcome, d) else Turn(p, d, arrivals[c - 1])
  }

  lemma {:induction false} StaysRefused(p: Share, arrivals: seq<Arrival>, c: nat, n: nat)
    requires p.Valid() && c <= n <= |arrivals| && forall k :: 0 <= k < |arrivals| ==> arrivals[k].id < p.NRecv()
    requires Collecting(p, arrivals, c).0 != Collected
    ensures Collecting(p, arrivals, n) == Collecting(p, arrivals, c)
  {
    if c < n { StaysRefused(p, arrivals, c, n - 1); }
  }

  /** A mismatch and a repeated check-in are reported only if there is one. */
  lemma {:induction false} RefusedForReason(p: Share, arrivals: seq<Arrival>, c: nat)
    requires p.Valid() && c <= |arrivals| && forall k :: 0 <= k < |arrivals| ==> arrivals[k].id < p.NRecv()
    ensures var (outcome, d) := Collecting(p, arrivals, c);
      && (outcome.Mismatch? ==> exists k :: 0 <= k < |arrivals| && !arrivals[k].sameHeader)
      && (outcome.Duplicate? ==> exists j, k :: 0 <= j < k < |arrivals| && arrivals[j].id == arrivals[k].id)
      && (outcome.Collected? ==> DeskTraced(arrivals, c, d))
  {
    if c != 0 {
      RefusedForReason(p, arrivals, c - 1);
      var (outcome, d) := Collecting(p, arrivals, c - 1);
      if outcome == Collected {
        CheckInIsTraced(p, arrivals, c - 1, d);
        if d.addrs[arrivals[c - 1].id] != 0 || d.infos[arrivals[c - 1].id] != 0 { SeenBefore(arrivals, c - 1, d); }
      }
    }
  }

  /** Distinct check-ins of everyone are all taken. */
  lemma {:induction false} AllCollected(p: Share, arrivals: seq<Arrival>, table: seq<Contact>, order: seq<nat>, c: nat)
    requires AllCheckIn(p, arrivals, table, order) && c <= p.NRecv()
    requires forall k :: 0 <= k < |arrivals| ==> arrivals[k].id < p.NRecv()
    ensures var (outcome, d) := Collecting(p, arrivals, c); outcome == Collected && DeskInv(p, d, table, order[..c])
  {
    if c == 0 {
      EmptyDesk(p, Collecting(p, arrivals, 0).1, table);
    } else {
      AllCollected(p, arrivals, table, order, c - 1);
      NextArrival(p, arrivals, table, order, c - 1, Collecting(p, arrivals, c - 1).1);
    }
  }

  /** A turn of the collect loop, on the root's two arrays. */
  method CollectOne(p: Share, rankInfo: array<nat>, rankAddress: array<nat>, a: Arrival, sent: seq<Reply>)
    returns (outcome: Outcome, replies: seq<Reply>)
    requires p.Valid() && a.id < p.NRecv()
    requires rankInfo.Length == rankAddress.Length == p.NRecv() && rankInfo != rankAddress
    modifies rankInfo, rankAddress
    ensures (outcome, Desk(rankInfo[..], rankAddress[..], replies))
       == Turn(p, old(Desk(rankInfo[..], rankAddress[..], sent)), a)
  {
    if !a.sameHeader { return Mismatch, sent; }
    if rankAddress[a.id] != 0 || rankInfo[a.id] != 0 { return Duplicate, sent; }
    var more := HandleCheckIn(p, rankInfo, rankAddress, a.id, a.contact.addr, a.contact.info, sent);
    return Collected, sent + more;
  }

  /** The collect loop. */
  method CollectLoop(p: Share, rankInfo: array<nat>, rankAddress: array<nat>, arrivals: seq<Arrival>)
    returns (outcome: Outcome, replies: seq<Reply>)
    requires p.Valid() && p.NRecv() <= |arrivals| && forall k :: 0 <= k < |arrivals| ==> arrivals[k].id < p.NRecv()
    requires rankInfo.Length == rankAddress.Length == p.NRecv() && rankInfo != rankAddress
    requires forall i :: 0 <= i < p.NRecv() ==> rankInfo[i] == 0 && rankAddress[i] == 0
    modifies rankInfo, rankAddress
    ensures (outcome, Desk(rankInfo[..], rankAddress[..], replies)) == Collecting(p, arrivals, p.NRecv())
  {
    outcome, replies := Collected, [];
    assert rankInfo[..] == seq(p.NRecv(), _ => 0) && rankAddress[..] == seq(p.NRecv(), _ => 0);
    var c := 0;
    while c < p.NRecv() && outcome == Collected
      invariant 0 <= c <= p.NRecv()
      invariant (outcome, Desk(rankInfo[..], rankAddress[..], replies)) == Collecting(p, arrivals, c)
    {
      outcome, replies := CollectOne(p, rankInfo, rankAddress, arrivals[c], replies);
      c := c + 1;
    }
    if outcome != Collected { StaysRefused(p, arrivals, c, p.NRecv()); }
  }

  /** Collecting, then the closing sweep, which has nothing left to send when every local id checked in. */
  method Collect(p: Share, arrivals: seq<Arrival>, ghost table: seq<Contact>, ghost order: seq<nat>)
    returns (outcome: Outcome, replies: seq<Reply>)
    requires p.Valid() && p.NRecv() <= |arrivals| && forall k :: 0 <= k < |arrivals| ==> arrivals[k].id < p.NRecv()
    ensures outcome.Mismatch? ==> exists k :: 0 <= k < |arrivals| && !arrivals[k].sameHeader
    ensures outcome.Duplicate? ==> exists j, k :: 0 <= j < k < |arrivals| && arrivals[j].id == arrivals[k].id
    ensures AllCheckIn(p, arrivals, table, order) ==>
      outcome.Collected? && RepliesOk(p, table, Served(p, order), replies) && Permutation(Served(p, order), p.n2send)
  {
    var rankInfo, rankAddress := new nat[p.NRecv()](_ => 0), new nat[p.NRecv()](_ => 0);
    outcome, replies := CollectLoop(p, rankInfo, rankAddress, arrivals);
    ghost var desk := Desk(rankInfo[..], rankAddress[..], replies);
    RefusedForReason(p, arrivals, p.NRecv());
    if AllCheckIn(p, arrivals, table, order) {
      AllCollected(p, arrivals, table, order, p.NRecv());
      assert order[..p.NRecv()] == order;
      EveryoneServed(p, desk, table, order);
    }
    if outcome.Collected? {
      var more;
      ghost var left;
      more, left := Sweep(p, rankInfo, rankAddress);
      assert left != [] ==> left[0] in left;
      replies := replies + more;
    }
  }

  /**
   The closing sweep answers, in order, exactly the ranks `left` whose address is still kept together with the info of
   their next.
   */
  method Sweep(p: Share, rankInfo: array<nat>, rankAddress: array<nat>)
    returns (replies: seq<Reply>, ghost left: seq<nat>)
    requires p.Valid() && rankInfo.Length == rankAddress.Length == p.NRecv()
    ensures forall r: nat :: r in left <==> r < p.n2send && rankAddress[r] != 0 && rankInfo[p.NextOf(r)] != 0
    ensures forall j, k :: 0 <= j < k < |left| ==> left[j] < left[k]
    ensures |replies| == |left|
    ensures forall k :: 0 <= k < |left| ==>
      left[k] < p.n2send && replies[k] == Reply(rankAddress[left[k]], rankInfo[p.NextOf(left[k])])
  {
    replies, left := [], [];
    for r := 0 to p.n2send
      invariant forall q: nat :: q in left <==> q < r && rankAddress[q] != 0 && rankInfo[p.NextOf(q)] != 0
      invariant forall j, k :: 0 <= j < k < |left| ==> left[j] < left[k]
      invariant |replies| == |left|
      invariant forall k :: 0 <= k < |left| ==>
        left[k] < r && replies[k] == Reply(rankAddress[left[k]], rankInfo[p.NextOf(left[k])])
    {
      var next := p.NextOf(r);
      if rankAddress[r] != 0 && rankInfo[next] != 0 {
        replies, left := replies + [Reply(rankAddress[r], rankInfo[next])], left + [r];
      }
    }
  }

  lemma EveryoneServed(p: Share, d: Desk, table: seq<Contact>, order: seq<nat>)
    requires Distinct(order) && |order| == p.NRecv() && forall k :: 0 <= k < |order| ==> order[k] < p.NRecv()
    requires DeskInv(p, d, table, order)
    ensures Permutation(Served(p, order), p.n2send)
    ensures forall r :: 0 <= r < p.n2send ==> d.addrs[r] == 0 || d.infos[p.NextOf(r)] == 0
  {
    forall r | 0 <= r < p.n2send ensures d.addrs[r] == 0 || d.infos[p.NextOf(r)] == 0 {
      Pigeonhole(order, p.NRecv());
      assert PairInv(p, d, table, order, r);
    }
    Pigeonhole(order, p.NRecv());
    ServedOnce(p, order);
    ServedAll(Served(p, order), p.n2send);
  }

  /** A root's thread: its share follows from the first check-in. */
  method BootstrapRoot(infos: seq<ExtInfo>, ghost table: seq<Contact>, ghost order: seq<nat>)
    returns (outcome: Outcome, replies: seq<Reply>)
    requires 0 < |infos| && 0 < infos[0].nRoots
    requires ShareOf(infos[0]).Valid() && ShareOf(infos[0]).NRecv() <= |infos|
    requires var p, x := ShareOf(infos[0]), infos[0];
      forall k :: 0 <= k < |infos| ==> 0 <= LocalIdFromRoot(infos[k].rank, x.iroot, x.nRanks, x.nRoots) < p.NRecv()
    ensures outcome.Mismatch? ==> exists k :: 0 <= k < |infos| && !SameHeader(infos[0], infos[k])
    ensures outcome.Duplicate? ==> exists j, k :: 0 <= j < k < |infos| && infos[j].rank == infos[k].rank
    ensures var p := ShareOf(infos[0]);
      var arrivals := seq(|infos|, k requires 0 <= k < |infos| => Read(infos[0], infos[k]));
      AllCheckIn(p, arrivals, table, order) ==>
        outcome.Collected? && RepliesOk(p, table, Served(p, order), replies) && Permutation(Served(p, order), p.n2send)
  {
    var arrivals := seq(|infos|, k requires 0 <= k < |infos| => Read(infos[0], infos[k]));
    outcome, replies := Collect(ShareOf(infos[0]), arrivals, table, order);
  }

  lemma ServedAll(served: seq<nat>, n: nat)
    requires Distinct(served) && forall r: nat :: r in served <==> r < n
    ensures Permutation(served, n)
  {
    DistinctSize(served);
    BelowSize(n);
    assert Elements(served) == Below(n);
    forall i | 0 <= i < |served| ensures served[i] < n { assert served[i] in served; }
  }

  // ---- all roots together ----

  /** A rank's check-ins: with which root, and under which rank number. */
  datatype Visit = Visit(root: nat, seenRank: nat)

  /** The send phase of bootstrapInit. */
  method RankCheckIns(rank: nat, nRanks: nat, nRoots: nat) returns (visits: seq<Visit>)
    requires 0 < nRoots <= nRanks && rank < nRanks
    ensures visits == VisitsOf(rank, nRanks, nRoots) && Distinct(visits)
    ensures forall v :: v in visits ==> StandsFor(v, rank, nRanks, nRoots)
    ensures forall g, i :: IsSlot(g, i, nRanks, nRoots) && Behind(g, i, nRanks, nRoots) == rank ==>
      Visit(g, FirstRankFromRoot(g, nRanks, nRoots) + i) in visits
  {
    VisitsAreSlots(rank, nRanks, nRoots);
    RootOwnsRank(rank, nRanks, nRoots);
    var currRoot := RootIdFromRank(rank, nRanks, nRoots);
    visits := [Visit(currRoot, rank)];
    if nRoots > 1 && rank == FirstRankFromRoot(currRoot, nRanks, nRoots) {
      var prevRank := Pid(rank - 1, nRanks);
      RootOwnsRank(prevRank, nRanks, nRoots);
      var prevRoot := RootIdFromRank(prevRank, nRanks, nRoots);
      visits := visits + [Visit(prevRoot, prevRank + 1)];
    }
  }

  function VisitsOf(rank: nat, nRanks: nat, nRoots: nat): seq<Visit>
    requires 0 < nRoots <= nRanks && rank < nRanks
  {
    RootOwnsRank(rank, nRanks, nRoots);
    var g := RootIdFromRank(rank, nRanks, nRoots);
    var prev := Pid(rank - 1, nRanks);
    RootOwnsRank(prev, nRanks, nRoots);
    [Visit(g, rank)] + if nRoots > 1 && rank == FirstRankFromRoot(g, nRanks, nRoots)
      then [Visit(RootIdFromRank(prev, nRanks, nRoots), prev + 1)] else []
  }

  function ShareOfRoot(g: nat, nRanks: nat, nRoots: nat): (p: Share)
    requires 0 < nRoots <= nRanks && g < nRoots
    ensures p.Valid()
  {
    Intervals(g, nRanks, nRoots);
    Share(NRankFromRoot(g, nRanks, nRoots), 1 < nRoots)
  }

  /** The rank behind a root's local id: its own ranks, then the first rank of the next root. */
  function Behind(g: nat, i: nat, nRanks: nat, nRoots: nat): (r: nat)
    requires 0 < nRoots <= nRanks && g < nRoots && i < ShareOfRoot(g, nRanks, nRoots).NRecv()
    ensures r < nRanks
  {
    Intervals(g, nRanks, nRoots);
    FirstsGrow(g + 1, nRoots, nRanks, nRoots);
    var r := FirstRankFromRoot(g, nRanks, nRoots) + i;
    if r < nRanks then r else r - nRanks
  }

  /** A local id of a root. */
  predicate IsSlot(g: nat, i: nat, nRanks: nat, nRoots: nat)
    requires 0 < nRoots <= nRanks
  {
    g < nRoots && i < ShareOfRoot(g, nRanks, nRoots).NRecv()
  }

  /** A visit under a local id that stands for the visiting rank. */
  predicate StandsFor(v: Visit, rank: nat, nRanks: nat, nRoots: nat)
    requires 0 < nRoots <= nRanks
  {
    && v.root < nRoots && FirstRankFromRoot(v.root, nRanks, nRoots) <= v.seenRank
    && var i := v.seenRank - FirstRankFromRoot(v.root, nRanks, nRoots);
      IsSlot(v.root, i, nRanks, nRoots) && Behind(v.root, i, nRanks, nRoots) == rank
  }

  lemma VisitsAreSlots(rank: nat, nRanks: nat, nRoots: nat)
    requires 0 < nRoots <= nRanks && rank < nRanks
    ensures Distinct(VisitsOf(rank, nRanks, nRoots))
    ensures forall v :: v in VisitsOf(rank, nRanks, nRoots) ==> StandsFor(v, rank, nRanks, nRoots)
    ensures forall g, i :: IsSlot(g, i, nRanks, nRoots) && Behind(g, i, nRanks, nRoots) == rank ==>
      Visit(g, FirstRankFromRoot(g, nRanks, nRoots) + i) in VisitsOf(rank, nRanks, nRoots)
  {
    var visits := VisitsOf(rank, nRanks, nRoots);
    forall v | v in visits ensures StandsFor(v, rank, nRanks, nRoots) {
      VisitsFillRoots(rank, v, nRanks, nRoots);
      Intervals(v.root, nRanks, nRoots);
    }
    forall g, i | IsSlot(g, i, nRanks, nRoots) && Behind(g, i, nRanks, nRoots) == rank
      ensures Visit(g, FirstRankFromRoot(g, nRanks, nRoots) + i) in visits
    {
      RootsAreVisited(g, i, nRanks, nRoots);
    }
    if |visits| == 2 {
      var g, prev := RootOf(rank, nRanks, nRoots), Pid(rank - 1, nRanks);
      LastOfRoot(rank, g, prev, RootOf(prev, nRanks, nRoots), nRanks, nRoots);
      Intervals(g, nRanks, nRoots);
    }
  }

  /** Every local id of every root is used by exactly one rank, and only such ids are used. */
  lemma VisitsFillRoots(rank: nat, v: Visit, nRanks: nat, nRoots: nat)
    requires 0 < nRoots <= nRanks && rank < nRanks && v in VisitsOf(rank, nRanks, nRoots)
    ensures v.root < nRoots
    ensures var i := LocalIdFromRoot(v.seenRank, v.root, nRanks, nRoots);
      0 <= i < ShareOfRoot(v.root, nRanks, nRoots).NRecv() && Behind(v.root, i, nRanks, nRoots) == rank
  {
    RootOwnsRank(rank, nRanks, nRoots);
    var prev := Pid(rank - 1, nRanks);
    RootOwnsRank(prev, nRanks, nRoots);
    Intervals(v.root, nRanks, nRoots);
    var g := RootIdFromRank(rank, nRanks, nRoots);
    if v != Visit(g, rank) {
      var h := RootIdFromRank(prev, nRanks, nRoots);
      LastOfRoot(rank, g, prev, h, nRanks, nRoots);
    }
  }

  /** The rank before the first rank of a root is the last rank of its own root. */
  lemma LastOfRoot(rank: nat, g: nat, prev: nat, h: nat, nRanks: nat, nRoots: nat)
    requires 1 < nRoots <= nRanks && rank < nRanks && g < nRoots && h < nRoots
    requires rank == FirstRankFromRoot(g, nRanks, nRoots) && prev == Pid(rank - 1, nRanks)
    requires FirstRankFromRoot(h, nRanks, nRoots) <= prev < FirstRankFromRoot(h + 1, nRanks, nRoots)
    ensures prev + 1 == FirstRankFromRoot(h + 1, nRanks, nRoots)
    ensures rank == if prev + 1 == nRanks then 0 else prev + 1
  {
    Intervals(h, nRanks, nRoots);
    Intervals(g, nRanks, nRoots);
    FirstsGrow(h + 1, nRoots, nRanks, nRoots);
    if 0 < rank {
      if h + 1 <= g { FirstsGrow(h + 1, g, nRanks, nRoots); } else { FirstsGrow(g, h, nRanks, nRoots); }
    }
  }

  lemma RootsAreVisited(g: nat, i: nat, nRanks: nat, nRoots: nat)
    requires 0 < nRoots <= nRanks && g < nRoots && i < ShareOfRoot(g, nRanks, nRoots).NRecv()
    ensures Visit(g, FirstRankFromRoot(g, nRanks, nRoots) + i) in VisitsOf(Behind(g, i, nRanks, nRoots), nRanks, nRoots)
  {
    Intervals(g, nRanks, nRoots);
    FirstsGrow(g + 1, nRoots, nRanks, nRoots);
    var r := Behind(g, i, nRanks, nRoots);
    if i < NRankFromRoot(g, nRanks, nRoots) {
      RootUnique(r, g, nRanks, nRoots);
      assert VisitsOf(r, nRanks, nRoots)[0] == Visit(g, r);
    } else {
      VisitsPreviousRoot(g, r, FirstRankFromRoot(g, nRanks, nRoots) + i - 1, nRanks, nRoots);
    }
  }

  /** The first rank of the next root also visits root `g`. */
  lemma VisitsPreviousRoot(g: nat, r: nat, last: nat, nRanks: nat, nRoots: nat)
    requires 1 < nRoots <= nRanks && g < nRoots && last < nRanks
    requires FirstRankFromRoot(g + 1, nRanks, nRoots) == last + 1
    requires r == if last + 1 == nRanks then 0 else last + 1
    ensures Visit(g, last + 1) in VisitsOf(r, nRanks, nRoots)
  {
    Intervals(g, nRanks, nRoots);
    var next := if last + 1 == nRanks then 0 else g + 1;
    Intervals(next, nRanks, nRoots);
    RootUnique(r, next, nRanks, nRoots);
    RootUnique(last, g, nRanks, nRoots);
    assert VisitsOf(r, nRanks, nRoots)[1] == Visit(g, last + 1);
  }

  // ---- the whole rendezvous ----

  /** What a rank writes to the root of a visit. */
  function Letter(contacts: seq<Contact>, nRoots: nat, rank: nat, v: Visit): ExtInfo
    requires rank < |contacts|
  {
    ExtInfo(v.seenRank, |contacts|, v.root, nRoots, contacts[rank].addr, contacts[rank].info)
  }

  function LettersTo(contacts: seq<Contact>, nRoots: nat, g: nat, rank: nat, visits: seq<Visit>): seq<ExtInfo>
    requires rank < |contacts|
  {
    if visits == [] then [] else
    var v := visits[|visits| - 1];
    LettersTo(contacts, nRoots, g, rank, visits[..|visits| - 1])
    + if v.root == g then [Letter(contacts, nRoots, rank, v)] else []
  }

  /** All that the ranks below `end` write to root `g`. */
  function MailTo(contacts: seq<Contact>, nRoots: nat, g: nat, end: nat): seq<ExtInfo>
    requires 0 < nRoots <= |contacts| && end <= |contacts|
  {
    if end == 0 then [] else
    MailTo(contacts, nRoots, g, end - 1)
    + LettersTo(contacts, nRoots, g, end - 1, VisitsOf(end - 1, |contacts|, nRoots))
  }

  /** What root `g` hears under its local id `i`. */
  function LetterAt(contacts: seq<Contact>, nRoots: nat, g: nat, i: nat): ExtInfo
    requires 0 < nRoots <= |contacts| && IsSlot(g, i, |contacts|, nRoots)
  {
    var n := |contacts|;
    Letter(contacts, nRoots, Behind(g, i, n, nRoots), Visit(g, FirstRankFromRoot(g, n, nRoots) + i))
  }

  /** A letter that one of the ranks from `start` to `end` owes root `g`. */
  ghost predicate Owed(contacts: seq<Contact>, nRoots: nat, g: nat, start: nat, end: nat, x: ExtInfo)
    requires 0 < nRoots <= |contacts|
  {
    exists i ::
      && IsSlot(g, i, |contacts|, nRoots) && start <= Behind(g, i, |contacts|, nRoots) < end
      && x == LetterAt(contacts, nRoots, g, i)
  }

  lemma {:induction false} LettersAre(contacts: seq<Contact>, nRoots: nat, g: nat, rank: nat, visits: seq<Visit>)
    requires rank < |contacts| && Distinct(visits)
    ensures forall x :: x in LettersTo(contacts, nRoots, g, rank, visits) <==>
      exists v :: v in visits && v.root == g && x == Letter(contacts, nRoots, rank, v)
    ensures Distinct(LettersTo(contacts, nRoots, g, rank, visits))
  {
    if visits != [] {
      var before, v := visits[..|visits| - 1], visits[|visits| - 1];
      LettersAre(contacts, nRoots, g, rank, before);
      assert visits == before + [v];
      assert v.root == g ==> Letter(contacts, nRoots, rank, v) !in LettersTo(contacts, nRoots, g, rank, before);
    }
  }

  lemma SentIsOwed(contacts: seq<Contact>, nRoots: nat, g: nat, rank: nat, x: ExtInfo)
    requires 0 < nRoots <= |contacts| && rank < |contacts| && g < nRoots
    requires x in LettersTo(contacts, nRoots, g, rank, VisitsOf(rank, |contacts|, nRoots))
    ensures Owed(contacts, nRoots, g, rank, rank + 1, x)
  {
    var n := |contacts|;
    var visits := VisitsOf(rank, n, nRoots);
    VisitsAreSlots(rank, n, nRoots);
    LettersAre(contacts, nRoots, g, rank, visits);
    var v :| v in visits && v.root == g && x == Letter(contacts, nRoots, rank, v);
    VisitIsSlot(contacts, nRoots, rank, v);
  }

  lemma VisitIsSlot(contacts: seq<Contact>, nRoots: nat, rank: nat, v: Visit)
    requires 0 < nRoots <= |contacts| && rank < |contacts| && StandsFor(v, rank, |contacts|, nRoots)
    ensures Owed(contacts, nRoots, v.root, rank, rank + 1, Letter(contacts, nRoots, rank, v))
  {
    var i := v.seenRank - FirstRankFromRoot(v.root, |contacts|, nRoots);
    assert IsSlot(v.root, i, |contacts|, nRoots)
      && Letter(contacts, nRoots, rank, v) == LetterAt(contacts, nRoots, v.root, i);
  }

  lemma OwedIsSent(contacts: seq<Contact>, nRoots: nat, g: nat, rank: nat, x: ExtInfo)
    requires 0 < nRoots <= |contacts| && rank < |contacts| && g < nRoots && Owed(contacts, nRoots, g, rank, rank + 1, x)
    ensures x in LettersTo(contacts, nRoots, g, rank, VisitsOf(rank, |contacts|, nRoots))
  {
    var n := |contacts|;
    var i :| IsSlot(g, i, n, nRoots) && rank <= Behind(g, i, n, nRoots) < rank + 1
      && x == LetterAt(contacts, nRoots, g, i);
    RootsAreVisited(g, i, n, nRoots);
    VisitIsMailed(contacts, nRoots, rank, VisitsOf(rank, n, nRoots), Visit(g, FirstRankFromRoot(g, n, nRoots) + i));
  }

  lemma {:induction false} VisitIsMailed(contacts: seq<Contact>, nRoots: nat, rank: nat, visits: seq<Visit>, v: Visit)
    requires rank < |contacts| && v in visits
    ensures Letter(contacts, nRoots, rank, v) in LettersTo(contacts, nRoots, v.root, rank, visits)
  {
    if v != visits[|visits| - 1] { VisitIsMailed(contacts, nRoots, rank, visits[..|visits| - 1], v); }
  }

  lemma RankMail(contacts: seq<Contact>, nRoots: nat, g: nat, rank: nat, x: ExtInfo)
    requires 0 < nRoots <= |contacts| && rank < |contacts| && g < nRoots
    ensures x in LettersTo(contacts, nRoots, g, rank, VisitsOf(rank, |contacts|, nRoots)) <==>
      Owed(contacts, nRoots, g, rank, rank + 1, x)
  {
    if Owed(contacts, nRoots, g, rank, rank + 1, x) { OwedIsSent(contacts, nRoots, g, rank, x); }
    if x in LettersTo(contacts, nRoots, g, rank, VisitsOf(rank, |contacts|, nRoots)) {
      SentIsOwed(contacts, nRoots, g, rank, x);
    }
  }

  /** A letter names its local id, and so its writer. */
  lemma OneWriter(contacts: seq<Contact>, nRoots: nat, g: nat, a: nat, b: nat, x: ExtInfo)
    requires 0 < nRoots <= |contacts| && Owed(contacts, nRoots, g, 0, a, x)
    ensures !Owed(contacts, nRoots, g, a, b, x)
  {
  }

  lemma OwedGrows(contacts: seq<Contact>, nRoots: nat, g: nat, m: nat, x: ExtInfo)
    requires 0 < nRoots <= |contacts|
    ensures Owed(contacts, nRoots, g, 0, m + 1, x) <==>
      Owed(contacts, nRoots, g, 0, m, x) || Owed(contacts, nRoots, g, m, m + 1, x)
  {
  }

  lemma {:induction false} MailIs(contacts: seq<Contact>, nRoots: nat, g: nat, end: nat)
    requires 0 < nRoots <= |contacts| && g < nRoots && end <= |contacts|
    ensures forall x :: x in MailTo(contacts, nRoots, g, end) <==> Owed(contacts, nRoots, g, 0, end, x)
    ensures Distinct(MailTo(contacts, nRoots, g, end))
  {
    if end != 0 {
      var m := end - 1;
      MailIs(contacts, nRoots, g, m);
      MailNext(contacts, nRoots, g, m, MailTo(contacts, nRoots, g, m));
    }
  }

  /** The letters of one rank more. */
  lemma MailNext(contacts: seq<Contact>, nRoots: nat, g: nat, m: nat, before: seq<ExtInfo>)
    requires 0 < nRoots <= |contacts| && g < nRoots && m < |contacts| && Distinct(before)
    requires forall x :: x in before <==> Owed(contacts, nRoots, g, 0, m, x)
    ensures var now := LettersTo(contacts, nRoots, g, m, VisitsOf(m, |contacts|, nRoots));
      Distinct(before + now) && forall x :: x in before + now <==> Owed(contacts, nRoots, g, 0, m + 1, x)
  {
    var visits := VisitsOf(m, |contacts|, nRoots);
    var now := LettersTo(contacts, nRoots, g, m, visits);
    VisitsAreSlots(m, |contacts|, nRoots);
    LettersAre(contacts, nRoots, g, m, visits);
    forall x ensures x in before + now <==> Owed(contacts, nRoots, g, 0, m + 1, x) {
      RankMail(contacts, nRoots, g, m, x);
      OwedGrows(contacts, nRoots, g, m, x);
    }
    forall x | x in before ensures x !in now {
      RankMail(contacts, nRoots, g, m, x);
      OneWriter(contacts, nRoots, g, m, m + 1, x);
    }
    DistinctJoin(before, now);
  }

  /** The contacts behind a root's local ids. */
  function TableOf(contacts: seq<Contact>, nRoots: nat, g: nat): (t: seq<Contact>)
    requires 0 < nRoots <= |contacts| && g < nRoots
    ensures |t| == ShareOfRoot(g, |contacts|, nRoots).NRecv()
    ensures forall i :: 0 <= i < |t| ==> t[i] == contacts[Behind(g, i, |contacts|, nRoots)]
  {
    var n := |contacts|;
    seq(ShareOfRoot(g, n, nRoots).NRecv(), i requires 0 <= i < ShareOfRoot(g, n, nRoots).NRecv() =>
      contacts[Behind(g, i, n, nRoots)])
  }

  /** The inbox holds each letter of the ranks once, in any order. */
  ghost predicate Delivered(contacts: seq<Contact>, nRoots: nat, g: nat, inbox: seq<ExtInfo>)
    requires 0 < nRoots <= |contacts|
  {
    multiset(inbox) == multiset(MailTo(contacts, nRoots, g, |contacts|))
  }

  /** Letter `k` of an inbox came under the local id `order[k]`. */
  ghost predicate Filed(contacts: seq<Contact>, nRoots: nat, g: nat, inbox: seq<ExtInfo>, order: seq<nat>)
    requires 0 < nRoots <= |contacts|
  {
    |order| == |inbox| && forall k :: 0 <= k < |order| ==>
      IsSlot(g, order[k], |contacts|, nRoots) && inbox[k] == LetterAt(contacts, nRoots, g, order[k])
  }

  lemma InboxIsOwed(contacts: seq<Contact>, nRoots: nat, g: nat, inbox: seq<ExtInfo>)
    requires 0 < nRoots <= |contacts| && g < nRoots && Delivered(contacts, nRoots, g, inbox)
    ensures Distinct(inbox) && forall x :: x in inbox <==> Owed(contacts, nRoots, g, 0, |contacts|, x)
  {
    var mail := MailTo(contacts, nRoots, g, |contacts|);
    MailIs(contacts, nRoots, g, |contacts|);
    DistinctRearranged(inbox, mail);
    SameMembers(inbox, mail);
  }

  /** A letter tells its local id. */
  lemma IdOfLetter(contacts: seq<Contact>, nRoots: nat, g: nat, x: ExtInfo)
    requires 0 < nRoots <= |contacts| && g < nRoots && Owed(contacts, nRoots, g, 0, |contacts|, x)
    ensures var i := x.rank - FirstRankFromRoot(g, |contacts|, nRoots);
      0 <= i && IsSlot(g, i, |contacts|, nRoots) && x == LetterAt(contacts, nRoots, g, i)
  {
    var i :| IsSlot(g, i, |contacts|, nRoots) && 0 <= Behind(g, i, |contacts|, nRoots) < |contacts|
      && x == LetterAt(contacts, nRoots, g, i);
    assert x.rank == FirstRankFromRoot(g, |contacts|, nRoots) + i;
  }

  lemma FileInbox(contacts: seq<Contact>, nRoots: nat, g: nat, inbox: seq<ExtInfo>) returns (order: seq<nat>)
    requires 0 < nRoots <= |contacts| && g < nRoots && Delivered(contacts, nRoots, g, inbox)
    ensures Filed(contacts, nRoots, g, inbox, order)
  {
    var first := FirstRankFromRoot(g, |contacts|, nRoots);
    InboxIsOwed(contacts, nRoots, g, inbox);
    forall k | 0 <= k < |inbox|
      ensures first <= inbox[k].rank && IsSlot(g, inbox[k].rank - first, |contacts|, nRoots)
      ensures inbox[k] == LetterAt(contacts, nRoots, g, inbox[k].rank - first)
    {
      assert inbox[k] in inbox;
      IdOfLetter(contacts, nRoots, g, inbox[k]);
    }
    order := seq(|inbox|, k requires 0 <= k < |inbox| => inbox[k].rank - first);
  }

  lemma SlotIsFiled(contacts: seq<Contact>, nRoots: nat, g: nat, inbox: seq<ExtInfo>, order: seq<nat>, r: nat)
    requires 0 < nRoots <= |contacts| && IsSlot(g, r, |contacts|, nRoots) && Filed(contacts, nRoots, g, inbox, order)
    requires LetterAt(contacts, nRoots, g, r) in inbox
    ensures r in order
  {
    var k :| 0 <= k < |inbox| && inbox[k] == LetterAt(contacts, nRoots, g, r);
    assert order[k] == r;
  }

  /** The local ids of an inbox are all of them, each once. */
  lemma InboxIsComplete(contacts: seq<Contact>, nRoots: nat, g: nat, inbox: seq<ExtInfo>) returns (order: seq<nat>)
    requires 0 < nRoots <= |contacts| && g < nRoots && Delivered(contacts, nRoots, g, inbox)
    ensures Filed(contacts, nRoots, g, inbox, order) && Permutation(order, ShareOfRoot(g, |contacts|, nRoots).NRecv())
  {
    order := FileInbox(contacts, nRoots, g, inbox);
    InboxIsOwed(contacts, nRoots, g, inbox);
    var slots := ShareOfRoot(g, |contacts|, nRoots).NRecv();
    forall r: nat | r < slots ensures r in order {
      assert IsSlot(g, r, |contacts|, nRoots)
        && Owed(contacts, nRoots, g, 0, |contacts|, LetterAt(contacts, nRoots, g, r));
      SlotIsFiled(contacts, nRoots, g, inbox, order, r);
    }
    forall r: nat | r in order ensures r < slots { assert IsSlot(g, r, |contacts|, nRoots); }
    ServedAll(order, slots);
  }

  /** The next rank of the ring. */
  function Successor(rank: nat, nRanks: nat): nat
    requires rank < nRanks
  {
    if rank + 1 < nRanks then rank + 1 else 0
  }

  lemma AroundTheRing(rank: nat, nRanks: nat)
    requires rank < nRanks
    ensures Successor(rank, nRanks) == (rank + 1) % nRanks
  {
    if rank + 1 < nRanks { ModSmall(rank + 1, nRanks); } else { DivModUnique(rank + 1, nRanks, 1, 0); }
  }

  /** What every rank must be told: the connect information of the next rank, modulo the number of ranks. */
  function RingReplies(contacts: seq<Contact>): (r: seq<Reply>)
    ensures |r| == |contacts|
    ensures forall k :: 0 <= k < |r| ==> r[k] == Reply(contacts[k].addr, contacts[Successor(k, |contacts|)].info)
  {
    seq(|contacts|, k requires 0 <= k < |contacts| => Reply(contacts[k].addr, contacts[Successor(k, |contacts|)].info))
  }

  /** The next local id of one of a root's own ranks stands for the next rank. */
  lemma NextIsSuccessor(nRanks: nat, nRoots: nat, g: nat, i: nat)
    requires 0 < nRoots <= nRanks && g < nRoots && i < ShareOfRoot(g, nRanks, nRoots).n2send
    ensures var r := FirstRankFromRoot(g, nRanks, nRoots) + i;
      r < nRanks && Behind(g, i, nRanks, nRoots) == r
      && Behind(g, ShareOfRoot(g, nRanks, nRoots).NextOf(i), nRanks, nRoots) == Successor(r, nRanks)
  {
    Intervals(g, nRanks, nRoots);
    FirstsGrow(g + 1, nRoots, nRanks, nRoots);
  }

  /** A root's answer is an entry of the ring. */
  lemma AnswerIsInRing(contacts: seq<Contact>, nRoots: nat, g: nat, i: nat)
    requires 0 < nRoots <= |contacts| && g < nRoots && i < ShareOfRoot(g, |contacts|, nRoots).n2send
    ensures var r := FirstRankFromRoot(g, |contacts|, nRoots) + i;
      r < |contacts|
      && RingReplies(contacts)[r] == Answer(ShareOfRoot(g, |contacts|, nRoots), TableOf(contacts, nRoots, g), i)
  {
    var n := |contacts|;
    NextIsSuccessor(n, nRoots, g, i);
    var table, next := TableOf(contacts, nRoots, g), ShareOfRoot(g, n, nRoots).NextOf(i);
    var r := FirstRankFromRoot(g, n, nRoots) + i;
    assert table[i] == contacts[r] && table[next] == contacts[Successor(r, n)];
  }

  lemma OwnRoot(rank: nat, g: nat, i: nat, nRanks: nat, nRoots: nat)
    requires 0 < nRoots <= nRanks && rank < nRanks && g < nRoots && i < ShareOfRoot(g, nRanks, nRoots).n2send
    requires Behind(g, i, nRanks, nRoots) == rank
    ensures g == RootOf(rank, nRanks, nRoots) && i == rank - FirstRankFromRoot(g, nRanks, nRoots)
  {
    Intervals(g, nRanks, nRoots);
    FirstsGrow(g + 1, nRoots, nRanks, nRoots);
    RootUnique(rank, g, nRanks, nRoots);
  }

  lemma OnlyRoot(rank: nat, n: nat, nRoots: nat)
    requires 0 < nRoots <= n && rank < n
    ensures forall g, i ::
      0 <= g < nRoots && 0 <= i < ShareOfRoot(g, n, nRoots).n2send && Behind(g, i, n, nRoots) == rank ==>
        g == RootOf(rank, n, nRoots) && i == rank - FirstRankFromRoot(g, n, nRoots)
  {
    forall g, i | 0 <= g < nRoots && 0 <= i < ShareOfRoot(g, n, nRoots).n2send && Behind(g, i, n, nRoots) == rank
      ensures g == RootOf(rank, n, nRoots) && i == rank - FirstRankFromRoot(g, n, nRoots)
    {
      OwnRoot(rank, g, i, n, nRoots);
    }
  }

  lemma OwnPlace(rank: nat, n: nat, nRoots: nat)
    requires 0 < nRoots <= n && rank < n
    ensures var g := RootOf(rank, n, nRoots);
      0 <= rank - FirstRankFromRoot(g, n, nRoots) < ShareOfRoot(g, n, nRoots).n2send
  {
    Intervals(RootOf(rank, n, nRoots), n, nRoots);
  }

  lemma AnswerToRank(contacts: seq<Contact>, nRoots: nat, g: nat, rank: nat, i: nat)
    requires 0 < nRoots <= |contacts| && g < nRoots && i < ShareOfRoot(g, |contacts|, nRoots).n2send
    requires rank == FirstRankFromRoot(g, |contacts|, nRoots) + i < |contacts|
    ensures Answer(ShareOfRoot(g, |contacts|, nRoots), TableOf(contacts, nRoots, g), i)
         == Reply(contacts[rank].addr, contacts[Successor(rank, |contacts|)].info)
  {
    AnswerIsInRing(contacts, nRoots, g, i);
  }

  lemma OwnAnswer(contacts: seq<Contact>, rank: nat, nRoots: nat)
    requires 0 < nRoots <= |contacts| && rank < |contacts|
    ensures var n := |contacts|; var g := RootOf(rank, n, nRoots);
      var p, i := ShareOfRoot(g, n, nRoots), rank - FirstRankFromRoot(g, n, nRoots);
      && 0 <= i < p.n2send
      && Answer(p, TableOf(contacts, nRoots, g), i) == Reply(contacts[rank].addr, contacts[Successor(rank, n)].info)
  {
    var n := |contacts|;
    var g := RootOf(rank, n, nRoots);
    OwnPlace(rank, n, nRoots);
    AnswerToRank(contacts, nRoots, g, rank, rank - FirstRankFromRoot(g, n, nRoots));
  }

  /** One ring: every rank is one root's own, and that root's answer to it is its place in the ring. */
  lemma RankHearsItsSuccessor(contacts: seq<Contact>, rank: nat, nRoots: nat)
    requires 0 < nRoots <= |contacts| && rank < |contacts|
    ensures var n := |contacts|; var g := RootOf(rank, n, nRoots);
      var p, i := ShareOfRoot(g, n, nRoots), rank - FirstRankFromRoot(g, n, nRoots);
      && 0 <= i < p.n2send
      && Answer(p, TableOf(contacts, nRoots, g), i) == Reply(contacts[rank].addr, contacts[Successor(rank, n)].info)
      && forall g', i' ::
        0 <= g' < nRoots && 0 <= i' < ShareOfRoot(g', n, nRoots).n2send && Behind(g', i', n, nRoots) == rank ==>
          g' == g && i' == i
  {
    OwnAnswer(contacts, rank, nRoots);
    OnlyRoot(rank, |contacts|, nRoots);
  }

  /** The ranks of root `g`, on the ring. */
  function Stretch(contacts: seq<Contact>, nRoots: nat, g: nat): (s: seq<Reply>)
    requires 0 < nRoots <= |contacts| && g < nRoots
    ensures FirstRankFromRoot(g, |contacts|, nRoots) <= FirstRankFromRoot(g + 1, |contacts|, nRoots) <= |contacts|
    ensures |s| == ShareOfRoot(g, |contacts|, nRoots).n2send
  {
    var n := |contacts|;
    Intervals(g, n, nRoots);
    FirstsGrow(g + 1, nRoots, n, nRoots);
    RingReplies(contacts)[FirstRankFromRoot(g, n, nRoots)..FirstRankFromRoot(g + 1, n, nRoots)]
  }

  lemma StretchAt(contacts: seq<Contact>, nRoots: nat, g: nat, i: nat)
    requires 0 < nRoots <= |contacts| && g < nRoots && i < ShareOfRoot(g, |contacts|, nRoots).n2send
    ensures Stretch(contacts, nRoots, g)[i]
       == Answer(ShareOfRoot(g, |contacts|, nRoots), TableOf(contacts, nRoots, g), i)
  {
    AnswerIsInRing(contacts, nRoots, g, i);
  }

  lemma AnswersAreStretch(contacts: seq<Contact>, nRoots: nat, g: nat, served: seq<nat>, replies: seq<Reply>)
    requires 0 < nRoots <= |contacts| && g < nRoots && Permutation(served, ShareOfRoot(g, |contacts|, nRoots).n2send)
    requires RepliesOk(ShareOfRoot(g, |contacts|, nRoots), TableOf(contacts, nRoots, g), served, replies)
    ensures multiset(replies) == multiset(Stretch(contacts, nRoots, g))
  {
    var stretch := Stretch(contacts, nRoots, g);
    assert replies == Pick(stretch, served) by {
      forall k | 0 <= k < |served|
        ensures replies[k] == stretch[served[k]]
      {
        StretchAt(contacts, nRoots, g, served[k]);
      }
    }
    PickAll(stretch, served);
  }

  /** One root, whatever the order in which its letters arrive. */
  method RunRoot(ghost contacts: seq<Contact>, ghost nRoots: nat, ghost g: nat, inbox: seq<ExtInfo>)
    returns (outcome: Outcome, replies: seq<Reply>)
    requires 0 < nRoots <= |contacts| && g < nRoots && NonZero(contacts) && Delivered(contacts, nRoots, g, inbox)
    ensures outcome == Collected && multiset(replies) == multiset(Stretch(contacts, nRoots, g))
  {
    ghost var order := InboxIsComplete(contacts, nRoots, g, inbox);
    InboxChecksIn(contacts, nRoots, g, inbox, order);
    outcome, replies := BootstrapRoot(inbox, TableOf(contacts, nRoots, g), order);
    AnswersAreStretch(contacts, nRoots, g, Served(ShareOfRoot(g, |contacts|, nRoots), order), replies);
  }

  lemma InboxChecksIn(contacts: seq<Contact>, nRoots: nat, g: nat, inbox: seq<ExtInfo>, order: seq<nat>)
    requires 0 < nRoots <= |contacts| && g < nRoots && NonZero(contacts) && Filed(contacts, nRoots, g, inbox, order)
    requires Permutation(order, ShareOfRoot(g, |contacts|, nRoots).NRecv())
    ensures inbox != [] && inbox[0].nRoots == nRoots && ShareOf(inbox[0]) == ShareOfRoot(g, |contacts|, nRoots)
    ensures var x := inbox[0];
      forall k :: 0 <= k < |inbox| ==> LocalIdFromRoot(inbox[k].rank, x.iroot, x.nRanks, x.nRoots) == order[k]
    ensures var p := ShareOfRoot(g, |contacts|, nRoots);
      var arrivals := seq(|inbox|, k requires 0 <= k < |inbox| => Read(inbox[0], inbox[k]));
      AllCheckIn(p, arrivals, TableOf(contacts, nRoots, g), order)
  {
    Intervals(g, |contacts|, nRoots);
  }

  /** The ring up to the first rank of root `g`. */
  ghost function RingBefore(contacts: seq<Contact>, nRoots: nat, g: nat): (s: seq<Reply>)
    requires 0 < nRoots <= |contacts| && g <= nRoots
  {
    Intervals(0, |contacts|, nRoots);
    FirstsGrow(g, nRoots, |contacts|, nRoots);
    RingReplies(contacts)[..FirstRankFromRoot(g, |contacts|, nRoots)]
  }

  lemma RingEnds(contacts: seq<Contact>, nRoots: nat)
    requires 0 < nRoots <= |contacts|
    ensures RingBefore(contacts, nRoots, 0) == [] && RingBefore(contacts, nRoots, nRoots) == RingReplies(contacts)
  {
    Intervals(0, |contacts|, nRoots);
  }

  lemma NextStretch(contacts: seq<Contact>, nRoots: nat, g: nat)
    requires 0 < nRoots <= |contacts| && g < nRoots
    ensures RingBefore(contacts, nRoots, g + 1) == RingBefore(contacts, nRoots, g) + Stretch(contacts, nRoots, g)
  {
    Intervals(g, |contacts|, nRoots);
    FirstsGrow(g + 1, nRoots, |contacts|, nRoots);
    Extend(RingReplies(contacts), FirstRankFromRoot(g, |contacts|, nRoots),
        FirstRankFromRoot(g + 1, |contacts|, nRoots));
  }

  /**
   The whole rendezvous: however the letters to each root are ordered, every root collects, and all
   replies together are one for each rank, with the connect information of its successor.
   */
  method Rendezvous(ghost contacts: seq<Contact>, nRoots: nat, inboxes: seq<seq<ExtInfo>>)
    returns (outcomes: seq<Outcome>, replies: seq<Reply>)
    requires 0 < nRoots <= |contacts| && NonZero(contacts)
    requires |inboxes| == nRoots && forall g :: 0 <= g < nRoots ==> Delivered(contacts, nRoots, g, inboxes[g])
    ensures |outcomes| == nRoots && forall g :: 0 <= g < nRoots ==> outcomes[g] == Collected
    ensures multiset(replies) == multiset(RingReplies(contacts))
  {
    outcomes, replies := [], [];
    RingEnds(contacts, nRoots);
    for g := 0 to nRoots
      invariant |outcomes| == g && forall h :: 0 <= h < g ==> outcomes[h] == Collected
      invariant multiset(replies) == multiset(RingBefore(contacts, nRoots, g))
    {
      var outcome, more := RunRoot(contacts, nRoots, g, inboxes[g]);
      NextStretch(contacts, nRoots, g);
      outcomes, replies := outcomes + [outcome], replies + more;
    }
  }

  lemma RingHasOne(contacts: seq<Contact>, x: Reply, rank: nat)
    requires x in RingReplies(contacts) && rank < |contacts| && x.addr == contacts[rank].addr
    requires forall i, j :: 0 <= i < j < |contacts| ==> contacts[i].addr != contacts[j].addr
    ensures x == RingReplies(contacts)[rank]
  {
    var ring := RingReplies(contacts);
    var k :| 0 <= k < |ring| && ring[k] == x;
    assert contacts[k].addr == contacts[rank].addr;
    assert k == rank;
  }

  /** With addresses of their own, each rank finds one reply, and it is the right one. */
  lemma EachRankHearsOnce(contacts: seq<Contact>, replies: seq<Reply>, rank: nat)
    requires rank < |contacts| && multiset(replies) == multiset(RingReplies(contacts))
    requires forall i, j :: 0 <= i < j < |contacts| ==> contacts[i].addr != contacts[j].addr
    ensures exists k :: 0 <= k < |replies| && replies[k] == RingReplies(contacts)[rank]
    ensures forall k :: 0 <= k < |replies| && replies[k].addr == contacts[rank].addr ==>
      replies[k] == RingReplies(contacts)[rank]
    ensures forall j, k :: 0 <= j < k < |replies| && replies[k].addr == contacts[rank].addr ==>
      replies[j].addr != contacts[rank].addr
  {
    var ring := RingReplies(contacts);
    SameMembers(replies, ring);
    assert ring[rank] in replies by { assert ring[rank] in ring; }
    forall k | 0 <= k < |replies| && replies[k].addr == contacts[rank].addr ensures replies[k] == ring[rank] {
      assert replies[k] in replies;
      RingHasOne(contacts, replies[k], rank);
    }
    assert Distinct(ring);
    DistinctRearranged(replies, ring);
  }
}
