/**
 In which order, and how grouped, posted operations are consumed. Operations that a rank appends one
 after the other under one id form a group that the progress thread must take in one drain, so that
 it can aggregate them.
 */
module ProxyOrder {
  import opened SlotLists
  import opened ProxySlots

  /** An appended operation: its rank, its id, and the number of its group. */
  datatype Item = Item(rank: nat, opCount: nat, group: nat)

  /** An operation consumed in the drain with number `call`. */
  datatype Event = Event(item: Item, call: nat)

  /**
   Contents of the chains and the history; `current` are the groups of the drain going on, `closed` those of earlier
   ones.
   */
  datatype History = History(pending: seq<seq<Item>>, posted: seq<Item>, rest: seq<Item>, appended: seq<seq<Item>>,
      log: seq<Event>,
                             call: nat, nGroups: nat, current: seq<nat>, closed: set<nat>)

  // ---- order ----

  function Select(l: seq<Item>, r: nat): seq<Item> {
    if l == [] then [] else Select(l[..|l| - 1], r) + if l[|l| - 1].rank == r then [l[|l| - 1]] else []
  }

  lemma {:induction false} SelectConcat(a: seq<Item>, b: seq<Item>, r: nat)
    ensures Select(a + b, r) == Select(a, r) + Select(b, r)
  {
    if b == [] {
      assert a + b == a;
    } else {
      SelectConcat(a, b[..|b| - 1], r);
      assert (a + b)[..|a + b| - 1] == a + b[..|b| - 1];
    }
  }

  ghost predicate OfRank(l: seq<Item>, r: nat) { forall i :: 0 <= i < |l| ==> l[i].rank == r }

  lemma {:induction false} SelectRank(l: seq<Item>, r: nat, q: nat)
    requires OfRank(l, r)
    ensures Select(l, q) == if q == r then l else []
  {
    if l != [] { SelectRank(l[..|l| - 1], r, q); }
  }

  function Items(log: seq<Event>): (l: seq<Item>)
    ensures |l| == |log| && forall i :: 0 <= i < |l| ==> l[i] == log[i].item
  {
    seq(|log|, i requires 0 <= i < |log| => log[i].item)
  }

  /** What a rank appended is what was consumed of it, followed by what is on its way, in order. */
  ghost predicate InOrder(h: History, r: nat)
    requires r < |h.pending| == |h.appended|
  {
    h.appended[r] == Select(Items(h.log) + h.rest + h.posted, r) + h.pending[r] && OfRank(h.pending[r], r)
  }

  // ---- groups ----

  /** A group's operations stand together and have one rank and one id. */
  ghost predicate Grouped(l: seq<Item>) {
    && (forall i, j, k :: 0 <= i < j < k < |l| && l[i].group == l[k].group ==> l[j].group == l[i].group)
    && forall i, j :: 0 <= i < j < |l| && l[i].group == l[j].group ==>
      l[i].opCount == l[j].opCount && l[i].rank == l[j].rank
  }

  ghost predicate Apart(a: seq<Item>, b: seq<Item>) {
    forall i, j :: 0 <= i < |a| && 0 <= j < |b| ==> a[i].group != b[j].group
  }

  /** Groups of `l` have been numbered and none of them is in `used`. */
  ghost predicate Unused(l: seq<Item>, nGroups: nat, used: set<nat>) {
    forall i :: 0 <= i < |l| ==> l[i].group < nGroups && l[i].group !in used
  }

  /** Only the group consumed last goes on in the chain, and the drain would recognize it. */
  ghost predicate GoesOn(current: seq<nat>, rest: seq<Item>, lastOpCount: nat, lastPeer: int) {
    && (current == [] ==> lastPeer == NONE && lastOpCount == 0)
    && (forall i, j :: 0 <= i < |current| && 0 <= j < |rest| && rest[j].group == current[i] ==>
        rest[0].group == current[i] == current[|current| - 1] && rest[j].opCount == lastOpCount
        && rest[j].rank == lastPeer)
  }

  ghost predicate AllGrouped(h: History) {
    (forall r :: 0 <= r < |h.pending| ==> Grouped(h.pending[r])) && Grouped(h.posted) && Grouped(h.rest)
  }

  /** No group is in two chains. */
  ghost predicate AllApart(h: History) {
    && Apart(h.posted, h.rest)
    && (forall r :: 0 <= r < |h.pending| ==> Apart(h.pending[r], h.posted) && Apart(h.pending[r], h.rest))
    && forall r, q :: 0 <= r < |h.pending| && 0 <= q < |h.pending| && r != q ==> Apart(h.pending[r], h.pending[q])
  }

  ghost predicate GroupsOk(cfg: Config, pc: ProgressPc, h: History) {
    && AllGrouped(h) && AllApart(h) && Numbered(h)
    && (if pc.Draining? then GoesOn(h.current, h.rest, pc.lastOpCount, pc.lastPeer) && pc.count <= cfg.batch
      else h.current == [])
  }

  ghost function Used(h: History): set<nat> { h.closed + set g | g in h.current }

  ghost predicate Numbered(h: History) {
    && (forall g :: g in Used(h) ==> g < h.nGroups)
    && (forall i :: 0 <= i < |h.current| ==> h.current[i] !in h.closed)
    && (forall r :: 0 <= r < |h.pending| ==> Unused(h.pending[r], h.nGroups, Used(h)))
    && Unused(h.posted, h.nGroups, Used(h)) && Unused(h.rest, h.nGroups, h.closed)
  }

  /** Every consumed group belongs to one drain. */
  ghost predicate OneCall(h: History) {
    && (forall i :: 0 <= i < |h.log| ==> h.log[i].call <= h.call)
    && (forall i :: 0 <= i < |h.log| && h.log[i].call < h.call ==> h.log[i].item.group in h.closed)
    && (forall i :: 0 <= i < |h.log| && h.log[i].call == h.call ==> h.log[i].item.group in h.current)
    && forall i, j :: 0 <= i < |h.log| && 0 <= j < |h.log| && h.log[i].item.group == h.log[j].item.group ==>
      h.log[i].call == h.log[j].call
  }

  // ---- steps of the history ----

  function NewItem(h: History, r: nat, c: nat): Item
    requires r < |h.pending|
  {
    var l := h.pending[r];
    Item(r, c, if l != [] && l[|l| - 1].opCount == c then l[|l| - 1].group else h.nGroups)
  }

  function Appended(h: History, r: nat, c: nat): History
    requires r < |h.pending| == |h.appended|
  {
    var x := NewItem(h, r, c);
    h.(pending := h.pending[r := h.pending[r] + [x]], appended := h.appended[r := h.appended[r] + [x]],
        nGroups := h.nGroups + 1)
  }

  function PostedUpTo(h: History, r: nat, n: nat): History
    requires r < |h.pending| && n <= |h.pending[r]|
  {
    h.(pending := h.pending[r := h.pending[r][n..]], posted := h.posted + h.pending[r][..n])
  }

  function Grabbed(h: History): History { h.(rest := h.rest + h.posted, posted := []) }

  function Consumed(h: History): History
    requires h.rest != []
  {
    h.(rest := h.rest[1..], log := h.log + [Event(h.rest[0], h.call)], current := h.current + [h.rest[0].group])
  }

  function Ended(h: History): History {
    h.(call := h.call + 1, closed := h.closed + (set g | g in h.current), current := [])
  }

  // ---- grouping survives every step ----

  lemma GroupGrows(l: seq<Item>, x: Item, nGroups: nat, used: set<nat>)
    requires Grouped(l) && Unused(l, nGroups, used)
    requires if l != [] && l[|l| - 1].opCount == x.opCount then x.group == l[|l| - 1].group && x.rank == l[|l| - 1].rank
      else x.group == nGroups
    ensures Grouped(l + [x])
  {
  }

  lemma NewGroupApart(l: seq<Item>, x: Item, other: seq<Item>, nGroups: nat, used: set<nat>)
    requires Apart(l, other) && Apart(other, l) && Unused(other, nGroups, used)
    requires x.group == nGroups || (l != [] && x.group == l[|l| - 1].group)
    ensures Apart(l + [x], other) && Apart(other, l + [x])
  {
  }

  lemma AppendGroups(cfg: Config, pc: ProgressPc, h: History, r: nat, c: nat)
    requires GroupsOk(cfg, pc, h) && r < |h.pending| == |h.appended| && OfRank(h.pending[r], r)
    ensures GroupsOk(cfg, pc, Appended(h, r, c))
  {
    var h', x, l := Appended(h, r, c), NewItem(h, r, c), h.pending[r];
    var g, used := h.nGroups, Used(h);
    assert Used(h') == used;
    GroupGrows(l, x, g, used);
    NewGroupApart(l, x, h.posted, g, used);
    NewGroupApart(l, x, h.rest, g, h.closed);
    forall q | 0 <= q < |h.pending| && q != r ensures Apart(l + [x], h.pending[q]) && Apart(h.pending[q], l + [x]) {
      NewGroupApart(l, x, h.pending[q], g, used);
    }
    assert Unused(l, g, used);
  }

  lemma SplitGrouped(l: seq<Item>, n: nat)
    requires Grouped(l) && n <= |l|
    ensures Grouped(l[..n]) && Grouped(l[n..])
  {
  }

  lemma SplitApart(l: seq<Item>, n: nat)
    requires Grouped(l) && n <= |l| && (0 < n < |l| ==> l[n - 1].group != l[n].group)
    ensures Apart(l[n..], l[..n])
  {
  }

  lemma JoinGroups(a: seq<Item>, b: seq<Item>)
    requires Grouped(a) && Grouped(b) && Apart(b, a)
    ensures Grouped(a + b)
  {
    var l := a + b;
    forall i, j, k | 0 <= i < j < k < |l| && l[i].group == l[k].group ensures l[j].group == l[i].group {}
  }

  /** A chain is cut only between groups. */
  lemma PostGroups(cfg: Config, pc: ProgressPc, h: History, r: nat, n: nat)
    requires GroupsOk(cfg, pc, h) && r < |h.pending| && n <= |h.pending[r]|
    requires 0 < n < |h.pending[r]| ==> h.pending[r][n - 1].group != h.pending[r][n].group
    ensures GroupsOk(cfg, pc, PostedUpTo(h, r, n))
  {
    var h', l := PostedUpTo(h, r, n), h.pending[r];
    assert Used(h') == Used(h);
    SplitGrouped(l, n);
    SplitApart(l, n);
    JoinGroups(h.posted, l[..n]);
    assert AllApart(h') by { PostApart(h, r, n); }
    assert Unused(l, h.nGroups, Used(h));
  }

  lemma PostApart(h: History, r: nat, n: nat)
    requires AllApart(h) && r < |h.pending| && n <= |h.pending[r]| && Apart(h.pending[r][n..], h.pending[r][..n])
    ensures AllApart(PostedUpTo(h, r, n))
  {
    var l := h.pending[r];
    forall q | 0 <= q < |h.pending| && q != r
      ensures Apart(h.pending[q], h.posted + l[..n]) && Apart(h.pending[q], l[n..]) && Apart(l[n..], h.pending[q])
    {
      assert Apart(h.pending[q], l) && Apart(l, h.pending[q]);
    }
    assert Apart(l, h.posted) && Apart(l, h.rest);
  }

  lemma GrabGroups(cfg: Config, pc: ProgressPc, h: History)
    requires GroupsOk(cfg, pc, h) && h.rest == [] && !pc.Draining?
    ensures GroupsOk(cfg, Draining(0, NONE, 0), Grabbed(h))
  {
    var h' := h.(rest := h.posted, posted := []);
    assert h.rest + h.posted == h.posted;
    assert Grabbed(h) == h';
    GrabApart(h, h');
    GrabNumbered(h, h');
  }

  lemma GrabApart(h: History, h': History)
    requires AllGrouped(h) && AllApart(h) && h' == h.(rest := h.posted, posted := [])
    ensures AllGrouped(h') && AllApart(h')
  {
    forall r | 0 <= r < |h.pending| ensures Apart(h.pending[r], h'.posted) && Apart(h.pending[r], h'.rest) {}
  }

  lemma GrabNumbered(h: History, h': History)
    requires Numbered(h) && h' == h.(rest := h.posted, posted := []) && h.current == []
    ensures Numbered(h')
  {
    assert Used(h') == Used(h) == h.closed;
  }

  /** The next operation is consumed; its group may go on. */
  lemma ConsumeGroups(cfg: Config, pc: ProgressPc, h: History, count: nat)
    requires GroupsOk(cfg, pc, h) && pc.Draining? && h.rest != [] && count <= cfg.batch
    ensures GroupsOk(cfg, Draining(h.rest[0].opCount, h.rest[0].rank, count), Consumed(h))
  {
    var h', x := Consumed(h), h.rest[0];
    SplitGrouped(h.rest, 1);
    assert h.rest == [x] + h.rest[1..];
    assert Used(h') == Used(h) + {x.group} by {
      assert forall g :: g in h'.current <==> g in h.current || g == x.group;
    }
    ConsumeGoesOn(h, pc);
  }

  lemma ConsumeGoesOn(h: History, pc: ProgressPc)
    requires Grouped(h.rest) && h.rest != [] && pc.Draining? && GoesOn(h.current, h.rest, pc.lastOpCount, pc.lastPeer)
    ensures GoesOn(Consumed(h).current, h.rest[1..], h.rest[0].opCount, h.rest[0].rank)
  {
    var current, rest, x := Consumed(h).current, h.rest[1..], h.rest[0];
    forall i, j | 0 <= i < |current| && 0 <= j < |rest| && rest[j].group == current[i]
      ensures rest[0].group == current[i] == current[|current| - 1] && rest[j].opCount == x.opCount
      ensures rest[j].rank == x.rank
    {
      assert rest[j] == h.rest[j + 1];
      if i < |h.current| { assert h.rest[0].group == h.current[i]; }
    }
  }

  /** When a drain ends, no group it has taken from is left over. */
  lemma EndGroups(cfg: Config, pc: ProgressPc, h: History, i: nat)
    requires GroupsOk(cfg, pc, h) && pc.Draining?
    requires h.rest == [] || (pc.lastOpCount != 0 && h.rest[0].opCount != pc.lastOpCount)
      || (pc.lastPeer != NONE && h.rest[0].rank != pc.lastPeer)
    ensures GroupsOk(cfg, Returning(i), Ended(h))
  {
    var h' := Ended(h);
    assert Used(h') == Used(h);
    assert forall j :: 0 <= j < |h.rest| ==> h.rest[j].group !in h.current;
  }

  // ---- the history of a run ----

  function Record(cfg: Config, s: State, a: Action, h: History): History
    requires ConfigOk(cfg) && Sized(cfg, s) && Enabled(cfg, s, a) && |h.pending| == |h.appended| == cfg.ranks
  {
    match a
    case Append(r, c) => Appended(h, r, c)
    case Overflow(r) => var n := CutOf(s, r).1; if n <= |h.pending[r]| then PostedUpTo(h, r, n) else h
    case Start(r) => PostedUpTo(h, r, |h.pending[r]|)
    case Grab => Grabbed(h)
    case Drain => if Takes(cfg, s) && h.rest != [] then Consumed(h) else Ended(h)
    case _ => h
  }

  function Begin(ranks: nat): History { History(seq(ranks, _ => []), [], [], seq(ranks, _ => []), [], 0, 0, [], {}) }

  /** Slots and items agree. */
  ghost predicate Matches(cfg: Config, opCount: seq<nat>, l: seq<nat>, items: seq<Item>)
    requires ConfigOk(cfg)
  {
    |l| == |items| && forall i :: 0 <= i < |l| ==>
      l[i] < |opCount| && items[i].opCount == opCount[l[i]] && items[i].rank == Home(cfg, l[i])
  }

  ghost predicate Agrees(cfg: Config, s: State, ls: Lists, h: History)
    requires ConfigOk(cfg) && Domain(cfg, ls)
  {
    && |h.pending| == |h.appended| == cfg.ranks
    && Matches(cfg, s.opCount, ls[Posted], h.posted) && Matches(cfg, s.opCount, ls[Rest], h.rest)
    && forall r :: 0 <= r < cfg.ranks ==> Matches(cfg, s.opCount, ls[Pending(r)], h.pending[r])
  }

  ghost predicate AllInOrder(cfg: Config, h: History)
    requires |h.pending| == |h.appended| == cfg.ranks
  {
    forall r :: 0 <= r < cfg.ranks ==> InOrder(h, r)
  }

  lemma AppendAgrees(cfg: Config, s: State, ls: Lists, owner: seq<Place>, pos: seq<nat>, h: History, r: nat, c: nat)
    requires Inv(cfg, s, ls, owner, pos) && Enabled(cfg, s, Append(r, c)) && Agrees(cfg, s, ls, h)
    requires ls[Private(r)] != [] && s.ranks[r].freeOp == ls[Private(r)][0]
    ensures Agrees(cfg, Apply(cfg, s, Append(r, c)), Moved(ls, Private(r), Pending(r), 1, false), Appended(h, r, c))
  {
    var s', ls' := Apply(cfg, s, Append(r, c)), Moved(ls, Private(r), Pending(r), 1, false);
    var h', x := Appended(h, r, c), ls[Private(r)][0];
    assert Owned(ls, owner, pos, Private(r), 0) && AtHome(cfg, ls, Private(r), 0);
    forall p, i | p in ls && !p.Private? && 0 <= i < |ls[p]|
      ensures ls[p][i] != x
    {
      assert Owned(ls, owner, pos, p, i);
    }
    assert ls'[Pending(r)] == ls[Pending(r)] + [x];
    forall q | 0 <= q < cfg.ranks ensures Matches(cfg, s'.opCount, ls'[Pending(q)], h'.pending[q]) {
      assert Matches(cfg, s.opCount, ls[Pending(q)], h.pending[q]);
    }
  }

  lemma PostAgrees(cfg: Config, s: State, s': State, ls: Lists, h: History, r: nat, n: nat)
    requires ConfigOk(cfg) && Domain(cfg, ls) && Agrees(cfg, s, ls, h) && r < cfg.ranks && n <= |ls[Pending(r)]|
    requires s'.opCount == s.opCount
    ensures n <= |h.pending[r]| && Agrees(cfg, s', Moved(ls, Pending(r), Posted, n, false), PostedUpTo(h, r, n))
  {
    var ls', h' := Moved(ls, Pending(r), Posted, n, false), PostedUpTo(h, r, n);
    assert Matches(cfg, s.opCount, ls[Pending(r)], h.pending[r]);
    forall q | 0 <= q < cfg.ranks ensures Matches(cfg, s'.opCount, ls'[Pending(q)], h'.pending[q]) {
      assert Matches(cfg, s.opCount, ls[Pending(q)], h.pending[q]);
    }
  }

  lemma {:induction false} CutIsBetween(opCount: seq<nat>, l: seq<nat>, k: nat, c: nat)
    requires k <= |l| && forall i :: 0 <= i < |l| ==> l[i] < |opCount|
    ensures var n := CutLen(opCount, l, k, c);
      (0 < n ==> opCount[l[n - 1]] != c) && forall i :: n <= i < k ==> opCount[l[i]] == c
  {
    if k != 0 && opCount[l[k - 1]] == c { CutIsBetween(opCount, l, k - 1, c); }
  }

  lemma CutSeparates(cfg: Config, opCount: seq<nat>, l: seq<nat>, items: seq<Item>, n: nat)
    requires ConfigOk(cfg) && Matches(cfg, opCount, l, items) && l != []
    requires n == CutLen(opCount, l, |l| - 1, opCount[l[|l| - 1]])
    ensures n < |l| && (0 < n ==> items[n - 1].opCount != items[n].opCount)
  {
    CutIsBetween(opCount, l, |l| - 1, opCount[l[|l| - 1]]);
  }

  lemma AppendInOrder(cfg: Config, h: History, r: nat, c: nat)
    requires |h.pending| == |h.appended| == cfg.ranks && AllInOrder(cfg, h) && r < cfg.ranks
    ensures AllInOrder(cfg, Appended(h, r, c))
  {
    var h' := Appended(h, r, c);
    forall q | 0 <= q < cfg.ranks ensures InOrder(h', q) { assert InOrder(h, q); }
  }

  lemma PostInOrder(cfg: Config, h: History, r: nat, n: nat)
    requires |h.pending| == |h.appended| == cfg.ranks && AllInOrder(cfg, h) && r < cfg.ranks && n <= |h.pending[r]|
    ensures AllInOrder(cfg, PostedUpTo(h, r, n))
  {
    var h', l, before := PostedUpTo(h, r, n), h.pending[r], Items(h.log) + h.rest;
    assert InOrder(h, r);
    assert before + (h.posted + l[..n]) == before + h.posted + l[..n];
    forall q | 0 <= q < cfg.ranks ensures InOrder(h', q) {
      assert InOrder(h, q);
      PostOneRank(before + h.posted, l, n, r, q, h.pending[q], h.appended[q]);
    }
  }

  lemma PostOneRank(before: seq<Item>, l: seq<Item>, n: nat, r: nat, q: nat, pending: seq<Item>, appended: seq<Item>)
    requires n <= |l| && OfRank(l, r) && (q == r ==> pending == l) && appended == Select(before, q) + pending
    ensures appended == Select(before + l[..n], q) + if q == r then l[n..] else pending
  {
    SelectConcat(before, l[..n], q);
    SelectRank(l[..n], r, q);
    if q == r {
      assert Select(before, q) + l[..n] + l[n..] == Select(before, q) + l;
    } else {
      assert Select(before, q) + [] == Select(before, q);
    }
  }

  /** The progress thread's steps only move the line between done and not done. */
  lemma SameLine(cfg: Config, h: History, h': History)
    requires |h.pending| == |h.appended| == cfg.ranks && AllInOrder(cfg, h)
    requires h'.pending == h.pending && h'.appended == h.appended
    requires Items(h'.log) + h'.rest + h'.posted == Items(h.log) + h.rest + h.posted
    ensures AllInOrder(cfg, h')
  {
    forall q | 0 <= q < cfg.ranks ensures InOrder(h', q) { assert InOrder(h, q); }
  }

  /** Everything the history promises. */
  ghost predicate HistoryOk(cfg: Config, s: State, ls: Lists, h: History)
    requires ConfigOk(cfg) && Domain(cfg, ls)
  {
    Agrees(cfg, s, ls, h) && AllInOrder(cfg, h) && GroupsOk(cfg, s.pc, h) && OneCall(h)
  }

  lemma AppendRecorded(cfg: Config, s: State, ls: Lists, owner: seq<Place>, pos: seq<nat>, h: History, r: nat, c: nat)
    requires Inv(cfg, s, ls, owner, pos) && Enabled(cfg, s, Append(r, c)) && HistoryOk(cfg, s, ls, h)
    requires ls[Private(r)] != [] && s.ranks[r].freeOp == ls[Private(r)][0]
    ensures HistoryOk(cfg, Apply(cfg, s, Append(r, c)), Moved(ls, Private(r), Pending(r), 1, false), Appended(h, r, c))
  {
    assert InOrder(h, r);
    AppendAgrees(cfg, s, ls, owner, pos, h, r, c);
    AppendInOrder(cfg, h, r, c);
    AppendGroups(cfg, s.pc, h, r, c);
  }

  lemma PostRecorded(cfg: Config, s: State, s': State, ls: Lists, h: History, r: nat, n: nat)
    requires ConfigOk(cfg) && Domain(cfg, ls) && HistoryOk(cfg, s, ls, h) && r < cfg.ranks && n <= |ls[Pending(r)]|
    requires s'.opCount == s.opCount && s'.pc == s.pc && n <= |h.pending[r]|
    requires 0 < n < |h.pending[r]| ==> h.pending[r][n - 1].opCount != h.pending[r][n].opCount
    ensures HistoryOk(cfg, s', Moved(ls, Pending(r), Posted, n, false), PostedUpTo(h, r, n))
  {
    PostAgrees(cfg, s, s', ls, h, r, n);
    PostInOrder(cfg, h, r, n);
    assert Grouped(h.pending[r]);
    PostGroups(cfg, s.pc, h, r, n);
  }

  lemma OverflowRecorded(cfg: Config, s: State, ls: Lists, owner: seq<Place>, pos: seq<nat>, h: History, r: nat)
    returns (n: nat)
    requires Inv(cfg, s, ls, owner, pos) && Enabled(cfg, s, Overflow(r)) && HistoryOk(cfg, s, ls, h)
    ensures CutOf(s, r).1 == n <= |ls[Pending(r)]|
    ensures HistoryOk(cfg, Apply(cfg, s, Overflow(r)), Moved(ls, Pending(r), Posted, n, false),
        Record(cfg, s, Overflow(r), h))
  {
    assert RankOk(s, ls, r);
    n := CutIs(cfg, s, ls, owner, pos, r);
    assert Matches(cfg, s.opCount, ls[Pending(r)], h.pending[r]);
    CutSeparates(cfg, s.opCount, ls[Pending(r)], h.pending[r], n);
    OverflowFrame(cfg, s, r);
    PostRecorded(cfg, s, Apply(cfg, s, Overflow(r)), ls, h, r, n);
  }

  lemma OverflowFrame(cfg: Config, s: State, r: nat)
    requires ConfigOk(cfg) && Sized(cfg, s) && Enabled(cfg, s, Overflow(r))
    ensures Apply(cfg, s, Overflow(r)).opCount == s.opCount && Apply(cfg, s, Overflow(r)).pc == s.pc
  {
  }

  lemma StartRecorded(cfg: Config, s: State, ls: Lists, h: History, r: nat)
    requires ConfigOk(cfg) && Sized(cfg, s) && Domain(cfg, ls) && Enabled(cfg, s, Start(r)) && HistoryOk(cfg, s, ls, h)
    ensures HistoryOk(cfg, Apply(cfg, s, Start(r)), Moved(ls, Pending(r), Posted, |ls[Pending(r)]|, false),
        Record(cfg, s, Start(r), h))
  {
    assert Matches(cfg, s.opCount, ls[Pending(r)], h.pending[r]);
    PostRecorded(cfg, s, Apply(cfg, s, Start(r)), ls, h, r, |h.pending[r]|);
  }

  lemma PendingAgrees(cfg: Config, s: State, s': State, ls: Lists, ls': Lists, h: History, h': History)
    requires ConfigOk(cfg) && Domain(cfg, ls) && Domain(cfg, ls') && Agrees(cfg, s, ls, h) && s'.opCount == s.opCount
    requires h'.pending == h.pending
    requires forall r :: 0 <= r < cfg.ranks ==> ls'[Pending(r)] == ls[Pending(r)]
    ensures forall r :: 0 <= r < cfg.ranks ==> Matches(cfg, s'.opCount, ls'[Pending(r)], h'.pending[r])
  {
    forall r | 0 <= r < cfg.ranks ensures Matches(cfg, s'.opCount, ls'[Pending(r)], h'.pending[r]) {
      assert Matches(cfg, s.opCount, ls[Pending(r)], h.pending[r]);
    }
  }

  lemma GrabLine(h: History)
    ensures var h' := Grabbed(h); Items(h'.log) + h'.rest + h'.posted == Items(h.log) + h.rest + h.posted
  {
    var done := Items(h.log);
    assert done + (h.rest + h.posted) + [] == done + h.rest + h.posted;
  }

  lemma GrabRecorded(cfg: Config, s: State, ls: Lists, h: History)
    requires ConfigOk(cfg) && Sized(cfg, s) && Domain(cfg, ls) && Enabled(cfg, s, Grab) && HistoryOk(cfg, s, ls, h)
    requires ls[Rest] == []
    ensures HistoryOk(cfg, Apply(cfg, s, Grab), Moved(ls, Posted, Rest, |ls[Posted]|, true), Grabbed(h))
  {
    GrabAgrees(cfg, s, Apply(cfg, s, Grab), ls, h);
    GrabLine(h);
    SameLine(cfg, h, Grabbed(h));
    GrabGroups(cfg, s.pc, h);
  }

  lemma GrabAgrees(cfg: Config, s: State, s': State, ls: Lists, h: History)
    requires ConfigOk(cfg) && Domain(cfg, ls) && Agrees(cfg, s, ls, h) && s'.opCount == s.opCount && ls[Rest] == []
    ensures Agrees(cfg, s', Moved(ls, Posted, Rest, |ls[Posted]|, true), Grabbed(h))
  {
    var ls' := Moved(ls, Posted, Rest, |ls[Posted]|, true);
    assert ls'[Posted] == [] && ls'[Rest] == ls[Posted] && h.rest + h.posted == h.posted;
    PendingAgrees(cfg, s, s', ls, ls', h, Grabbed(h));
  }

  lemma ConsumeOneCall(h: History)
    requires OneCall(h) && Numbered(h) && h.rest != []
    ensures OneCall(Consumed(h))
  {
    var h', x := Consumed(h), h.rest[0];
    assert x.group !in h.closed;
    assert forall g :: g in h'.current <==> g in h.current || g == x.group;
    forall i | 0 <= i < |h.log| && h.log[i].item.group == x.group ensures h.log[i].call == h.call {}
  }

  lemma ConsumeLine(h: History)
    requires h.rest != []
    ensures var h' := Consumed(h); Items(h'.log) + h'.rest + h'.posted == Items(h.log) + h.rest + h.posted
  {
    var done, x := Items(h.log), h.rest[0];
    assert Items(Consumed(h).log) == done + [x];
    assert done + [x] + h.rest[1..] == done + h.rest;
  }

  lemma ConsumeRecorded(cfg: Config, s: State, ls: Lists, h: History, q: nat)
    requires ConfigOk(cfg) && Sized(cfg, s) && Domain(cfg, ls) && Enabled(cfg, s, Drain) && HistoryOk(cfg, s, ls, h)
    requires Takes(cfg, s)
    requires ls[Rest] != [] && s.nextOps == ls[Rest][0] && q < cfg.ranks
    ensures h.rest != [] && HistoryOk(cfg, Apply(cfg, s, Drain), Moved(ls, Rest, Freed(q), 1, true), Consumed(h))
  {
    var s', ls' := Apply(cfg, s, Drain), Moved(ls, Rest, Freed(q), 1, true);
    PendingAgrees(cfg, s, s', ls, ls', h, Consumed(h));
    ConsumeLine(h);
    SameLine(cfg, h, Consumed(h));
    ConsumeGroups(cfg, s.pc, h, s'.pc.count);
    ConsumeOneCall(h);
  }

  lemma EndRecorded(cfg: Config, s: State, ls: Lists, h: History)
    requires ConfigOk(cfg) && Sized(cfg, s) && Domain(cfg, ls) && Enabled(cfg, s, Drain) && HistoryOk(cfg, s, ls, h)
    requires !Takes(cfg, s)
    requires ls[Rest] == [] || s.nextOps == ls[Rest][0]
    ensures HistoryOk(cfg, Apply(cfg, s, Drain), ls, Ended(h))
  {
    PendingAgrees(cfg, s, Apply(cfg, s, Drain), ls, ls, h, Ended(h));
    SameLine(cfg, h, Ended(h));
    EndGroups(cfg, s.pc, h, 0);
  }

  /** Steps that the history does not see. */
  lemma SilentRecorded(cfg: Config, s: State, s': State, ls: Lists, ls': Lists, h: History)
    requires ConfigOk(cfg) && Domain(cfg, ls) && Domain(cfg, ls') && HistoryOk(cfg, s, ls, h) && s'.opCount == s.opCount
    requires ls'[Posted] == ls[Posted] && ls'[Rest] == ls[Rest]
    requires forall r :: 0 <= r < cfg.ranks ==> ls'[Pending(r)] == ls[Pending(r)]
    requires s'.pc == s.pc || s'.pc == Draining(0, NONE, 0) || !s'.pc.Draining?
    requires s'.pc != s.pc ==> !s.pc.Draining?
    ensures HistoryOk(cfg, s', ls', h)
  {
    PendingAgrees(cfg, s, s', ls, ls', h, h);
  }

  predicate IsSilent(a: Action) { a.Read? || a.Swap? || a.Resume? || a.Link? || a.Give? || a.Store? }

  /** What a silent step does not touch. */
  lemma SilentStep(cfg: Config, s: State, a: Action, ls: Lists, ls': Lists)
    requires ConfigOk(cfg) && Sized(cfg, s) && Enabled(cfg, s, a) && IsSilent(a) && Domain(cfg, ls) && Domain(cfg, ls')
    requires ListStep(cfg, s, a, ls, ls')
    ensures ls'[Posted] == ls[Posted] && ls'[Rest] == ls[Rest]
    ensures forall r :: 0 <= r < cfg.ranks ==> ls'[Pending(r)] == ls[Pending(r)]
    ensures var s' := Apply(cfg, s, a);
      s'.opCount == s.opCount && (s'.pc == s.pc || s'.pc == Draining(0, NONE, 0) || !s'.pc.Draining?)
      && (s'.pc != s.pc ==> !s.pc.Draining?)
  {
  }

  lemma DrainRecorded(cfg: Config, s: State, ls: Lists, owner: seq<Place>, pos: seq<nat>, h: History, ls': Lists)
    requires Inv(cfg, s, ls, owner, pos) && Enabled(cfg, s, Drain) && HistoryOk(cfg, s, ls, h)
    requires ListStep(cfg, s, Drain, ls, ls') && Domain(cfg, ls')
    ensures HistoryOk(cfg, Apply(cfg, s, Drain), ls', Record(cfg, s, Drain, h))
  {
    if Takes(cfg, s) {
      ConsumeRecorded(cfg, s, ls, h, Home(cfg, ls[Rest][0]));
    } else {
      EndRecorded(cfg, s, ls, h);
    }
  }

  lemma AppendStep(cfg: Config, s: State, a: Action, ls: Lists, owner: seq<Place>, pos: seq<nat>, h: History,
      ls': Lists)
    requires Inv(cfg, s, ls, owner, pos) && Enabled(cfg, s, a) && HistoryOk(cfg, s, ls, h) && a.Append?
    requires ListStep(cfg, s, a, ls, ls')
    ensures Domain(cfg, ls') && HistoryOk(cfg, Apply(cfg, s, a), ls', Record(cfg, s, a, h))
  {
    AppendRecorded(cfg, s, ls, owner, pos, h, a.r, a.opCount);
  }

  lemma OverflowStep(cfg: Config, s: State, a: Action, ls: Lists, owner: seq<Place>, pos: seq<nat>, h: History,
      ls': Lists)
    requires Inv(cfg, s, ls, owner, pos) && Enabled(cfg, s, a) && HistoryOk(cfg, s, ls, h) && a.Overflow?
    requires ListStep(cfg, s, a, ls, ls')
    ensures Domain(cfg, ls') && HistoryOk(cfg, Apply(cfg, s, a), ls', Record(cfg, s, a, h))
  {
    CutMoves(cfg, s, a.r, ls, owner, pos, ls');
    var n := OverflowRecorded(cfg, s, ls, owner, pos, h, a.r);
  }

  lemma CutMoves(cfg: Config, s: State, r: nat, ls: Lists, owner: seq<Place>, pos: seq<nat>, ls': Lists)
    requires Inv(cfg, s, ls, owner, pos) && Enabled(cfg, s, Overflow(r)) && ListStep(cfg, s, Overflow(r), ls, ls')
    ensures CutOf(s, r).1 <= |ls[Pending(r)]| && ls' == Moved(ls, Pending(r), Posted, CutOf(s, r).1, false)
  {
    var n := CutIs(cfg, s, ls, owner, pos, r);
  }

  lemma StartStep(cfg: Config, s: State, a: Action, ls: Lists, owner: seq<Place>, pos: seq<nat>, h: History, ls': Lists)
    requires Inv(cfg, s, ls, owner, pos) && Enabled(cfg, s, a) && HistoryOk(cfg, s, ls, h) && a.Start?
    requires ListStep(cfg, s, a, ls, ls')
    ensures Domain(cfg, ls') && HistoryOk(cfg, Apply(cfg, s, a), ls', Record(cfg, s, a, h))
  {
    StartRecorded(cfg, s, ls, h, a.r);
  }

  lemma GrabStep(cfg: Config, s: State, a: Action, ls: Lists, owner: seq<Place>, pos: seq<nat>, h: History, ls': Lists)
    requires Inv(cfg, s, ls, owner, pos) && Enabled(cfg, s, a) && HistoryOk(cfg, s, ls, h) && a.Grab?
    requires ListStep(cfg, s, a, ls, ls')
    ensures Domain(cfg, ls') && HistoryOk(cfg, Apply(cfg, s, a), ls', Record(cfg, s, a, h))
  {
    GrabRecorded(cfg, s, ls, h);
  }

  lemma Recorded(cfg: Config, s: State, a: Action, ls: Lists, owner: seq<Place>, pos: seq<nat>, h: History, ls': Lists)
    requires Inv(cfg, s, ls, owner, pos) && Enabled(cfg, s, a) && HistoryOk(cfg, s, ls, h)
    requires ListStep(cfg, s, a, ls, ls') && Domain(cfg, ls')
    ensures HistoryOk(cfg, Apply(cfg, s, a), ls', Record(cfg, s, a, h))
  {
    if IsSilent(a) {
      SilentStep(cfg, s, a, ls, ls');
      SilentRecorded(cfg, s, Apply(cfg, s, a), ls, ls', h);
    } else if a.Append? {
      AppendStep(cfg, s, a, ls, owner, pos, h, ls');
    } else if a.Overflow? {
      OverflowStep(cfg, s, a, ls, owner, pos, h, ls');
    } else if a.Start? {
      StartStep(cfg, s, a, ls, owner, pos, h, ls');
    } else if a.Grab? {
      GrabStep(cfg, s, a, ls, owner, pos, h, ls');
    } else {
      DrainRecorded(cfg, s, ls, owner, pos, h, ls');
    }
  }

  // ---- all runs ----

  /** The history of the first `k` steps. */
  ghost function HistoryAfter(cfg: Config, ss: seq<State>, steps: seq<Action>, k: nat): (h: History)
    requires ConfigOk(cfg) && IsRun(cfg, ss, steps) && k < |ss|
    ensures |h.pending| == |h.appended| == cfg.ranks
  {
    if k == 0 then Begin(cfg.ranks) else Record(cfg, ss[k - 1], steps[k - 1], HistoryAfter(cfg, ss, steps, k - 1))
  }

  lemma {:induction false} HistoryHolds(cfg: Config, ss: seq<State>, steps: seq<Action>, k: nat)
    returns (ls: Lists, owner: seq<Place>, pos: seq<nat>)
    requires ConfigOk(cfg) && IsRun(cfg, ss, steps) && k < |ss|
    ensures Inv(cfg, ss[k], ls, owner, pos) && HistoryOk(cfg, ss[k], ls, HistoryAfter(cfg, ss, steps, k))
  {
    if k == 0 {
      ls := InitLists(cfg, cfg.ranks);
      owner, pos := InitInv(cfg, ss[0]);
      BeginOk(cfg, ss[0]);
    } else {
      ls, owner, pos := HistoryHolds(cfg, ss, steps, k - 1);
      var ls0, owner0, pos0 := ls, owner, pos;
      assert ss[k - 1 + 1] == Apply(cfg, ss[k - 1], steps[k - 1]);
      ls, owner, pos := StepKeeps(cfg, ss[k - 1], steps[k - 1], ls0, owner0, pos0);
      Recorded(cfg, ss[k - 1], steps[k - 1], ls0, owner0, pos0, HistoryAfter(cfg, ss, steps, k - 1), ls);
    }
  }

  lemma BeginOk(cfg: Config, s: State)
    requires Init(cfg, s)
    ensures HistoryOk(cfg, s, InitLists(cfg, cfg.ranks), Begin(cfg.ranks))
  {
    BeginInOrder(cfg);
    BeginGroups(cfg);
    var ls, h := InitLists(cfg, cfg.ranks), Begin(cfg.ranks);
    assert ls[Posted] == [] && ls[Rest] == [];
    forall r | 0 <= r < cfg.ranks
      ensures Matches(cfg, s.opCount, ls[Pending(r)], h.pending[r])
    {
      assert ls[Pending(r)] == [] && h.pending[r] == [];
    }
  }

  lemma BeginInOrder(cfg: Config)
    ensures AllInOrder(cfg, Begin(cfg.ranks))
  {
    var h := Begin(cfg.ranks);
    var none: seq<Item> := [];
    assert Items(h.log) + h.rest + h.posted == none;
    forall r | 0 <= r < cfg.ranks ensures InOrder(h, r) { assert Select(none, r) + none == none; }
  }

  lemma BeginGroups(cfg: Config)
    ensures GroupsOk(cfg, Idle, Begin(cfg.ranks)) && OneCall(Begin(cfg.ranks))
  {
    var h := Begin(cfg.ranks);
    assert Used(h) == {};
    assert forall r :: 0 <= r < |h.pending| ==> h.pending[r] == [];
  }

  /**
   In every run, operations of a rank are consumed in the order they were appended, none twice and none left out, and
   operations appended one after the other under one id without a start in between are consumed in one drain.
   */
  lemma ConsumedInOrder(cfg: Config, ss: seq<State>, steps: seq<Action>, k: nat)
    requires ConfigOk(cfg) && IsRun(cfg, ss, steps) && k < |ss|
    ensures var h := HistoryAfter(cfg, ss, steps, k);
      && (forall r :: 0 <= r < cfg.ranks ==> Select(Items(h.log), r) <= h.appended[r])
      && (forall i, j :: 0 <= i < |h.log| && 0 <= j < |h.log| && h.log[i].item.group == h.log[j].item.group ==>
          h.log[i].call == h.log[j].call)
  {
    var ls, owner, pos := HistoryHolds(cfg, ss, steps, k);
    var h := HistoryAfter(cfg, ss, steps, k);
    forall r | 0 <= r < cfg.ranks ensures Select(Items(h.log), r) <= h.appended[r] {
      assert InOrder(h, r);
      var done := Items(h.log);
      assert done + h.rest + h.posted == done + (h.rest + h.posted);
      SelectConcat(done, h.rest + h.posted, r);
    }
  }
}
