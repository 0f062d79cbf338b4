/**
 The dissemination barrier of the bootstrap layer, over any number of consecutive barriers.
 In round k a rank sends to the rank 2^k ahead and waits for the rank 2^k behind. Messages may
 be delayed and overtake each other; a receiver keeps what it did not wait for in a list of
 unexpected connections and looks there first.
 */
module Barrier {
  import opened Arith

  function Ahead(r: nat, m: nat, n: nat): (q: nat)
    requires r < n && m < n
    ensures q < n && q == (if r + m < n then r + m else r + m - n)
  {
    if r + m < n then ModSmall(r + m, n); (r + m) % n
    else DivModUnique(r + m, n, 1, r + m - n); (r + m) % n
  }

  function Back(r: nat, m: nat, n: nat): (q: nat)
    requires r < n && m < n
    ensures q < n && q == (if m <= r then r - m else r - m + n)
  {
    if m <= r then DivModUnique(r - m + n, n, 1, r - m); (r - m + n) % n
    else ModSmall(r - m + n, n); (r - m + n) % n
  }

  // ---- the list of unexpected connections ----

  /** A connection as its receiver knows it. */
  datatype Conn = Conn(peer: nat, tag: int)

  /** Removes the first match, as unexpectedDequeue does; the order of the others is kept. */
  function Dequeue(list: seq<Conn>, c: Conn): (rest: seq<Conn>)
    requires c in list
    ensures multiset(rest) == multiset(list) - multiset{c}
  {
    if list[0] == c then
      assert list == [c] + list[1..];
      list[1..]
    else
      assert list == [list[0]] + list[1..];
      [list[0]] + Dequeue(list[1..], c)
  }

  /** The list walk: where the first match is, if anywhere. */
  method FindFirst(list: seq<Conn>, c: Conn) returns (found: bool, rest: seq<Conn>)
    ensures found <==> c in list
    ensures rest == if c in list then Dequeue(list, c) else list
  {
    found, rest := false, list;
    var i := 0;
    while i < |list|
      invariant 0 <= i <= |list|
      invariant forall j :: 0 <= j < i ==> list[j] != c
    {
      if list[i] == c {
        DequeueAt(list, c, i);
        return true, list[..i] + list[i + 1..];
      }
      i := i + 1;
    }
  }

  lemma {:induction false} DequeueAt(list: seq<Conn>, c: Conn, i: nat)
    requires i < |list| && list[i] == c && forall j :: 0 <= j < i ==> list[j] != c
    ensures c in list && Dequeue(list, c) == list[..i] + list[i + 1..]
  {
    if i == 0 {
      assert list[..0] + list[1..] == list[1..];
    } else {
      DequeueAt(list[1..], c, i - 1);
      Regrouped(list, i);
    }
  }

  lemma Regrouped(list: seq<Conn>, i: nat)
    requires 0 < i < |list|
    ensures [list[0]] + (list[1..][..i - 1] + list[1..][i..]) == list[..i] + list[i + 1..]
  {
  }

  // ---- all ranks ----

  datatype Msg = Msg(from: nat, to: nat, tag: int)

  /**
   `epoch` barriers completed; inside the next one when `active`, with `round` rounds done and, if `sent`, this round's
   message out.
   */
  datatype Rank = Rank(epoch: nat, active: bool, round: nat, sent: bool, unexpected: seq<Conn>)

  datatype State = State(tag: int, ranks: seq<Rank>, net: multiset<Msg>)

  datatype Action =
    | Enter(r: nat)
    | Send(r: nat)
    | TakeUnexpected(r: nat)
    | Accept(r: nat, m: Msg)
    | Leave(r: nat)
    | Other(m: Msg)      // bootstrap traffic with another tag

  function Mask(k: Rank): nat { Pow2(k.round) }

  ghost predicate Waiting(s: State, r: nat)
    requires r < |s.ranks|
  {
    s.ranks[r].active && Mask(s.ranks[r]) < |s.ranks| && s.ranks[r].sent
  }

  function Expected(s: State, r: nat): Conn
    requires r < |s.ranks| && Mask(s.ranks[r]) < |s.ranks|
  {
    Conn(Back(r, Mask(s.ranks[r]), |s.ranks|), s.tag)
  }

  ghost predicate Enabled(s: State, a: Action) {
    match a
    case Enter(r) => r < |s.ranks| && !s.ranks[r].active
    case Send(r) => r < |s.ranks| && s.ranks[r].active && Mask(s.ranks[r]) < |s.ranks| && !s.ranks[r].sent
    case TakeUnexpected(r) => r < |s.ranks| && Waiting(s, r) && Expected(s, r) in s.ranks[r].unexpected
    case Accept(r, m) => r < |s.ranks| && Waiting(s, r) && Expected(s, r) !in s.ranks[r].unexpected && m in s.net
      && m.to == r
    case Leave(r) => r < |s.ranks| && s.ranks[r].active && |s.ranks| <= Mask(s.ranks[r])
    case Other(m) => m.tag != s.tag
  }

  function NextRound(k: Rank): Rank { k.(round := k.round + 1, sent := false) }

  ghost function Apply(s: State, a: Action): (s': State)
    requires Enabled(s, a)
    ensures |s'.ranks| == |s.ranks| && s'.tag == s.tag
  {
    match a
    case Enter(r) => s.(ranks := s.ranks[r := s.ranks[r].(active := true, round := 0, sent := false)])
    case Send(r) =>
      s.(ranks := s.ranks[r := s.ranks[r].(sent := true)],
         net := s.net + multiset{Msg(r, Ahead(r, Mask(s.ranks[r]), |s.ranks|), s.tag)})
    case TakeUnexpected(r) =>
      var k := s.ranks[r];
      s.(ranks := s.ranks[r := NextRound(k.(unexpected := Dequeue(k.unexpected, Expected(s, r))))])
    case Accept(r, m) =>
      var k, c := s.ranks[r], Conn(m.from, m.tag);
      s.(net := s.net - multiset{m},
         ranks := s.ranks[r := if c == Expected(s, r) then NextRound(k) else k.(unexpected := k.unexpected + [c])])
    case Leave(r) => var k := s.ranks[r]; s.(ranks := s.ranks[r := k.(epoch := k.epoch + 1, active := false)])
    case Other(m) => s.(net := s.net + multiset{m})
  }

  ghost predicate Init(s: State) {
    && (forall r :: 0 <= r < |s.ranks| ==> s.ranks[r].epoch == 0 && !s.ranks[r].active && s.ranks[r].unexpected == [])
    && forall m :: m in s.net ==> m.tag != s.tag
  }

  ghost predicate IsRun(run: seq<State>) {
    && 0 < |run| && Init(run[0])
    && forall t :: 0 <= t < |run| - 1 ==> exists a :: Enabled(run[t], a) && run[t + 1] == Apply(run[t], a)
  }

  /** The rank has entered barrier number `e`. */
  ghost predicate Entered(k: Rank, e: nat) { e < k.epoch || (e == k.epoch && k.active) }

  // ---- powers of two below n are different distances ----

  lemma {:induction false} Pow2Grows(i: nat, j: nat)
    requires i < j
    ensures Pow2(i) < Pow2(j)
    decreases j
  {
    if i < j - 1 { Pow2Grows(i, j - 1); }
  }

  /** Sender and receiver determine the round, so matching by peer and tag never confuses rounds. */
  lemma RoundOfPair(q: nat, r: nat, i: nat, j: nat, n: nat)
    requires q < n && r < n && Pow2(i) < n && Pow2(j) < n
    requires Ahead(q, Pow2(i), n) == r && q == Back(r, Pow2(j), n)
    ensures i == j
  {
    if i < j { Pow2Grows(i, j); }
    if j < i { Pow2Grows(j, i); }
  }

  // ---- message accounting ----

  ghost function InFlight(s: State, q: nat, r: nat): nat
    requires r < |s.ranks|
  {
    s.net[Msg(q, r, s.tag)] + multiset(s.ranks[r].unexpected)[Conn(q, s.tag)]
  }

  /** Round-`i` messages a rank has received, respectively sent, over all its barriers. */
  ghost function Received(k: Rank, i: nat): nat { k.epoch + if k.active && i < k.round then 1 else 0 }

  ghost function Sent(k: Rank, i: nat): nat {
    k.epoch + if k.active && (i < k.round || (i == k.round && k.sent)) then 1 else 0
  }

  ghost predicate Balanced(s: State, q: nat, i: nat)
    requires q < |s.ranks| && Pow2(i) < |s.ranks|
  {
    var r := Ahead(q, Pow2(i), |s.ranks|);
    InFlight(s, q, r) + Received(s.ranks[r], i) == Sent(s.ranks[q], i)
  }

  /** After the rounds it has done, a rank knows that so many predecessors have entered its barrier. */
  ghost predicate Heard(s: State, r: nat)
    requires r < |s.ranks|
  {
    var n, k := |s.ranks|, s.ranks[r];
    && (forall q :: 0 <= q < n ==> 0 < k.epoch ==> Entered(s.ranks[q], k.epoch - 1))
    && (k.active ==> forall d :: 0 <= d < n && d < Mask(k) ==> Entered(s.ranks[Back(r, d, n)], k.epoch))
  }

  ghost predicate Inv(s: State) {
    && (forall r :: 0 <= r < |s.ranks| ==> Heard(s, r))
    && forall q, i: nat :: 0 <= q < |s.ranks| && Pow2(i) < |s.ranks| ==> Balanced(s, q, i)
  }

  /** Entering is never undone. */
  lemma EnteredStays(s: State, a: Action, q: nat, e: nat)
    requires Enabled(s, a) && q < |s.ranks| && Entered(s.ranks[q], e)
    ensures Entered(Apply(s, a).ranks[q], e)
  {
  }

  lemma SendKeepsBalance(s: State, r: nat, q: nat, i: nat)
    requires Inv(s) && Enabled(s, Send(r)) && q < |s.ranks| && Pow2(i) < |s.ranks|
    ensures Balanced(Apply(s, Send(r)), q, i)
  {
    var n := |s.ranks|;
    assert Balanced(s, q, i);
    var to := Ahead(q, Pow2(i), n);
    if q == r && to == Ahead(r, Mask(s.ranks[r]), n) { RoundOfPair(r, to, i, s.ranks[r].round, n); }
  }

  lemma LeaveKeepsBalance(s: State, r: nat, q: nat, i: nat)
    requires Inv(s) && Enabled(s, Leave(r)) && q < |s.ranks| && Pow2(i) < |s.ranks|
    ensures Balanced(Apply(s, Leave(r)), q, i)
  {
    assert Balanced(s, q, i);
    if s.ranks[r].round < i { Pow2Grows(s.ranks[r].round, i); }
  }

  /** What a receive does to the messages in flight towards the receiver. */
  lemma ReceiveFlight(s: State, a: Action, q: nat, to: nat)
    requires Enabled(s, a) && (a.TakeUnexpected? || a.Accept?) && to < |s.ranks|
    ensures var c := Expected(s, a.r);
      var consumed := to == a.r && q == c.peer && (a.Accept? ==> Conn(a.m.from, a.m.tag) == c);
      InFlight(Apply(s, a), q, to) == InFlight(s, q, to) - if consumed then 1 else 0
  {
    var s', c := Apply(s, a), Expected(s, a.r);
    if a.Accept? && to == a.r && Conn(a.m.from, a.m.tag) != c {
      assert s'.ranks[to].unexpected == s.ranks[to].unexpected + [Conn(a.m.from, a.m.tag)];
    }
  }

  lemma ReceiveKeepsBalance(s: State, a: Action, q: nat, i: nat)
    requires Inv(s) && Enabled(s, a) && (a.TakeUnexpected? || a.Accept?) && q < |s.ranks| && Pow2(i) < |s.ranks|
    ensures Balanced(Apply(s, a), q, i)
  {
    var n, r := |s.ranks|, a.r;
    assert Balanced(s, q, i);
    var to := Ahead(q, Pow2(i), n);
    ReceiveFlight(s, a, q, to);
    var s', k := Apply(s, a), s.ranks[r];
    var advanced := a.Accept? ==> Conn(a.m.from, a.m.tag) == Expected(s, r);
    assert s'.ranks[r].round == if advanced then k.round + 1 else k.round;
    if to == r && q == Expected(s, r).peer { RoundOfPair(q, r, i, k.round, n); }
    if to == r && i == k.round { assert q == Back(r, Pow2(i), n); }
  }

  lemma StepKeepsBalance(s: State, a: Action, q: nat, i: nat)
    requires Inv(s) && Enabled(s, a) && q < |s.ranks| && Pow2(i) < |s.ranks|
    ensures Balanced(Apply(s, a), q, i)
  {
    match a
    case Send(r) => SendKeepsBalance(s, r, q, i);
    case Leave(r) => LeaveKeepsBalance(s, r, q, i);
    case TakeUnexpected(_) => ReceiveKeepsBalance(s, a, q, i);
    case Accept(_, _) => ReceiveKeepsBalance(s, a, q, i);
    case Enter(_) => assert Balanced(s, q, i);
    case Other(_) => assert Balanced(s, q, i);
  }

  /** When a rank completes a round, the sender had already heard from as many ranks behind it. */
  lemma SenderHeard(s: State, r: nat, d: nat)
    requires Inv(s) && r < |s.ranks| && Waiting(s, r) && d < |s.ranks| && d < Mask(s.ranks[r])
    requires var c := Expected(s, r); 0 < InFlight(s, c.peer, r)
    ensures var c := Expected(s, r); Entered(s.ranks[Back(c.peer, d, |s.ranks|)], s.ranks[r].epoch)
  {
    var n, k, q := |s.ranks|, s.ranks[r], Expected(s, r).peer;
    assert Balanced(s, q, k.round);
    assert Heard(s, q);
    if s.ranks[q].epoch == k.epoch && k.round < s.ranks[q].round { Pow2Grows(k.round, s.ranks[q].round); }
  }

  /** Doubling: the ranks heard of directly and those the sender had heard of are twice as many. */
  lemma RoundKeepsHeard(s: State, a: Action)
    requires Inv(s) && Enabled(s, a) && (a.TakeUnexpected? || a.Accept?)
    requires Apply(s, a).ranks[a.r].round == s.ranks[a.r].round + 1
    ensures Heard(Apply(s, a), a.r)
  {
    var n, r, k, s' := |s.ranks|, a.r, s.ranks[a.r], Apply(s, a);
    var q := Expected(s, r).peer;
    ReceiveFlight(s, a, q, r);
    assert Heard(s, r);
    forall p | 0 <= p < n && 0 < k.epoch
      ensures Entered(s'.ranks[p], k.epoch - 1)
    {
      EnteredStays(s, a, p, k.epoch - 1);
    }
    forall d | 0 <= d < n && d < Pow2(k.round + 1) ensures Entered(s'.ranks[Back(r, d, n)], k.epoch) {
      var p := Back(r, d, n);
      if Mask(k) <= d {
        SenderHeard(s, r, d - Mask(k));
        assert Back(q, d - Mask(k), n) == p;
      }
      EnteredStays(s, a, p, k.epoch);
    }
  }

  lemma StepKeepsHeard(s: State, a: Action, r: nat)
    requires Inv(s) && Enabled(s, a) && r < |s.ranks|
    ensures Heard(Apply(s, a), r)
  {
    var n, k, s' := |s.ranks|, s.ranks[r], Apply(s, a);
    if (a.TakeUnexpected? || a.Accept?) && a.r == r && s'.ranks[r].round != k.round {
      RoundKeepsHeard(s, a);
    } else {
      assert Heard(s, r);
      var k' := s'.ranks[r];
      forall q | 0 <= q < n && 0 < k'.epoch ensures Entered(s'.ranks[q], k'.epoch - 1) {
        if a == Leave(r) {
          assert Back(r, Back(r, q, n), n) == q;
          EnteredStays(s, a, q, k.epoch);
        } else {
          EnteredStays(s, a, q, k.epoch - 1);
        }
      }
      if k'.active {
        forall d | 0 <= d < n && d < Mask(k') ensures Entered(s'.ranks[Back(r, d, n)], k'.epoch) {
          if a != Enter(r) { EnteredStays(s, a, Back(r, d, n), k.epoch); }
        }
      }
    }
  }

  lemma {:induction false} RunsKeepInv(run: seq<State>, t: nat)
    requires IsRun(run) && t < |run|
    ensures Inv(run[t])
  {
    if t == 0 {
      forall q, i: nat | 0 <= q < |run[0].ranks| && Pow2(i) < |run[0].ranks| ensures Balanced(run[0], q, i) {}
    } else {
      RunsKeepInv(run, t - 1);
      var s := run[t - 1];
      var a :| Enabled(s, a) && run[t - 1 + 1] == Apply(s, a);
      forall r | 0 <= r < |run[t].ranks| ensures Heard(run[t], r) { StepKeepsHeard(s, a, r); }
      forall q, i: nat | 0 <= q < |run[t].ranks| && Pow2(i) < |run[t].ranks| ensures Balanced(run[t], q, i) {
        StepKeepsBalance(s, a, q, i);
      }
    }
  }

  /** No rank returns from a barrier, the first or any later one, before every rank has entered it. */
  lemma NobodyLeavesEarly(run: seq<State>, t: nat, r: nat, q: nat, e: nat)
    requires IsRun(run) && t < |run| && r < |run[t].ranks| && q < |run[t].ranks|
    requires e < run[t].ranks[r].epoch
    ensures Entered(run[t].ranks[q], e)
  {
    RunsKeepInv(run, t);
    assert Heard(run[t], r);
    assert Entered(run[t].ranks[q], run[t].ranks[r].epoch - 1);
  }

  /** The count the algorithm's authors give: k rounds bring news of 2^k - 1 predecessors. */
  lemma RoundsHeard(run: seq<State>, t: nat, r: nat, d: nat)
    requires IsRun(run) && t < |run| && r < |run[t].ranks| && run[t].ranks[r].active
    requires d < |run[t].ranks| && d < Pow2(run[t].ranks[r].round)
    ensures Entered(run[t].ranks[Back(r, d, |run[t].ranks|)], run[t].ranks[r].epoch)
  {
    RunsKeepInv(run, t);
    assert Heard(run[t], r);
  }

  // ---- the barrier goes on ----

  /** A rank is inside barrier number `e`. */
  predicate Inside(k: Rank, e: nat) { k.epoch == e && k.active }

  /** Of the ranks inside, one that has done the fewest rounds. */
  lemma {:induction false} Slowest(ranks: seq<Rank>, e: nat, some: nat) returns (r: nat)
    requires some < |ranks| && Inside(ranks[some], e)
    ensures r < |ranks| && Inside(ranks[r], e)
    ensures forall q :: 0 <= q < |ranks| && Inside(ranks[q], e) ==> ranks[r].round <= ranks[q].round
    decreases ranks[some].round
  {
    r := some;
    if better: nat :| better < |ranks| && Inside(ranks[better], e) && ranks[better].round < ranks[some].round {
      r := Slowest(ranks, e, better);
    }
  }

  predicate StepInside(s: State, a: Action, e: nat) {
    (a.Send? || a.TakeUnexpected? || a.Accept? || a.Leave?) && a.r < |s.ranks| && Inside(s.ranks[a.r], e)
  }

  /** Once everyone has entered a barrier, someone inside it can send, receive or leave until nobody is left inside. */
  lemma EveryoneGetsOut(run: seq<State>, t: nat, e: nat, some: nat) returns (a: Action)
    requires IsRun(run) && t < |run| && (forall q :: 0 <= q < |run[t].ranks| ==> Entered(run[t].ranks[q], e))
    requires some < |run[t].ranks| && Inside(run[t].ranks[some], e)
    ensures Enabled(run[t], a) && StepInside(run[t], a, e)
  {
    RunsKeepInv(run, t);
    var r := Slowest(run[t].ranks, e, some);
    a := NextInside(run[t], e, r);
  }

  lemma NextInside(s: State, e: nat, r: nat) returns (a: Action)
    requires Inv(s) && (forall q :: 0 <= q < |s.ranks| ==> Entered(s.ranks[q], e))
    requires r < |s.ranks| && Inside(s.ranks[r], e)
    requires forall q :: 0 <= q < |s.ranks| && Inside(s.ranks[q], e) ==> s.ranks[r].round <= s.ranks[q].round
    ensures Enabled(s, a) && StepInside(s, a, e)
  {
    var n, k := |s.ranks|, s.ranks[r];
    if n <= Mask(k) {
      a := Leave(r);
    } else if !k.sent {
      a := Send(r);
    } else {
      var q := Back(r, Mask(k), n);
      assert Balanced(s, q, k.round) && Ahead(q, Mask(k), n) == r;
      assert Entered(s.ranks[q], e);
      if Inside(s.ranks[q], e) && s.ranks[q].round == k.round && !s.ranks[q].sent {
        a := Send(q);
      } else {
        assert 0 < InFlight(s, q, r);
        a := if Expected(s, r) in k.unexpected then TakeUnexpected(r) else Accept(r, Msg(q, r, s.tag));
      }
    }
  }
}
