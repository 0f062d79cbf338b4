/**
 User-defined reduction operators: a growing array of slots whose free ones form a list that ends at
 the capacity, and handles that are slot numbers scrambled per communicator.
 */
module RedOpSlab {
  import opened Arith

  const NUM_OPS: nat := 5
  const MAX_RED_OP: nat := 0x7fff_ffff

  // ---- handles ----

  /** Exclusive or, bit by bit from the lowest one. */
  function Xor(a: nat, b: nat): nat {
    if a == 0 && b == 0 then 0 else 2 * Xor(a / 2, b / 2) + (a % 2 + b % 2) % 2
  }

  lemma LowBit(rest: nat, bit: nat)
    requires bit < 2
    ensures (2 * rest + bit) / 2 == rest && (2 * rest + bit) % 2 == bit
  {
  }

  lemma XorStep(a: nat, b: nat)
    ensures Xor(a, b) / 2 == Xor(a / 2, b / 2) && Xor(a, b) % 2 == (a % 2 + b % 2) % 2
  {
    var rest, bit := Xor(a / 2, b / 2), (a % 2 + b % 2) % 2;
    if a != 0 || b != 0 {
      assert Xor(a, b) == 2 * rest + bit;
      LowBit(rest, bit);
    }
  }

  lemma {:induction false} XorTwice(a: nat, b: nat)
    ensures Xor(a, Xor(a, b)) == b
  {
    if a != 0 || b != 0 {
      XorTwice(a / 2, b / 2);
      var x := Xor(a, b);
      XorStep(a, b);
      XorStep(a, x);
      BitTwice(a % 2, b % 2);
      DivMod(Xor(a, x), 2);
      DivMod(b, 2);
    }
  }

  lemma BitTwice(p: nat, q: nat)
    requires p < 2 && q < 2
    ensures (p + (p + q) % 2) % 2 == q
  {
  }

  lemma {:induction false} XorBelow(a: nat, b: nat, k: nat)
    requires a < Pow2(k) && b < Pow2(k)
    ensures Xor(a, b) < Pow2(k)
  {
    if k != 0 { XorBelow(a / 2, b / 2, k - 1); }
  }

  /** ncclUserRedOpMangle; `h` is the communicator's hash, masked with the largest operator. */
  function Mangle(h: nat, op: nat): nat {
    if op < NUM_OPS then op else if Xor(h, op) < NUM_OPS then op else Xor(h, op)
  }

  /** Scrambling is its own inverse, stays in range and keeps user operators apart from built-in ones. */
  lemma MangleTwice(h: nat, op: nat)
    requires h <= MAX_RED_OP && op <= MAX_RED_OP
    ensures Mangle(h, op) <= MAX_RED_OP && Mangle(h, Mangle(h, op)) == op
    ensures NUM_OPS <= op ==> NUM_OPS <= Mangle(h, op)
  {
    XorTwice(h, op);
    assert Pow2(31) == MAX_RED_OP + 1 by {
      assert Pow2(8) == 256;
      assert Pow2(16) == 256 * Pow2(8);
      assert Pow2(24) == 256 * Pow2(16);
    }
    XorBelow(h, op, 31);
  }

  // ---- slots ----

  /** The operator's arguments, as one value. */
  type Scalar = nat

  /** `freeNext` is -1 in a slot that is taken, else the next free slot or the capacity. */
  datatype UserOp = UserOp(freeNext: int, scalar: Scalar)

  datatype Status = Success | InvalidArgument | InternalError

  /** The slot below position `i` of the free stack, whose end is the capacity. */
  function Under(stack: seq<nat>, i: nat, capacity: nat): nat
    requires i <= |stack|
  {
    if i == 0 then capacity else stack[i - 1]
  }

  /** Position `i` of the free stack. */
  ghost predicate FreeAt(ops: seq<UserOp>, stack: seq<nat>, place: seq<int>, i: nat)
    requires i < |stack| && |ops| == |place|
  {
    stack[i] < |ops| && place[stack[i]] == i && ops[stack[i]].freeNext == Under(stack, i, |ops|)
  }

  /** A slot is taken, or has its place in the free stack. */
  ghost predicate SlotAt(ops: seq<UserOp>, stack: seq<nat>, place: seq<int>, x: nat)
    requires x < |ops| == |place|
  {
    if ops[x].freeNext == -1 then place[x] == -1 else 0 <= place[x] < |stack| && stack[place[x]] == x
  }

  /** The free list visits every free slot once and ends at the capacity; all other slots are taken. */
  ghost predicate SlabOk(freeHead: nat, ops: seq<UserOp>, stack: seq<nat>, place: seq<int>) {
    && |ops| == |place| && freeHead == Under(stack, |stack|, |ops|)
    && (forall i :: 0 <= i < |stack| ==> FreeAt(ops, stack, place, i))
    && forall x :: 0 <= x < |ops| ==> SlotAt(ops, stack, place, x)
  }

  /** The operators that exist: slot and arguments. */
  ghost function LiveIn(ops: seq<UserOp>): map<nat, Scalar> {
    map x: nat | x < |ops| && ops[x].freeNext == -1 :: ops[x].scalar
  }

  lemma HeadIsFree(freeHead: nat, ops: seq<UserOp>, stack: seq<nat>, place: seq<int>)
    requires SlabOk(freeHead, ops, stack, place) && freeHead != |ops|
    ensures stack != [] && freeHead < |ops|
  {
    assert FreeAt(ops, stack, place, |stack| - 1);
  }

  lemma PopKeeps(freeHead: nat, ops: seq<UserOp>, stack: seq<nat>, place: seq<int>, u: UserOp)
    requires SlabOk(freeHead, ops, stack, place) && freeHead != |ops| && u.freeNext == -1
    ensures stack != [] && freeHead < |ops| && ops[freeHead].freeNext == Under(stack, |stack| - 1, |ops|)
    ensures SlabOk(ops[freeHead].freeNext, ops[freeHead := u], stack[..|stack| - 1], place[freeHead := -1])
    ensures freeHead !in LiveIn(ops) && LiveIn(ops[freeHead := u]) == LiveIn(ops)[freeHead := u.scalar]
  {
    var n := |stack| - 1;
    assert FreeAt(ops, stack, place, n);
    var ops', stack', place' := ops[freeHead := u], stack[..n], place[freeHead := -1];
    forall i | 0 <= i < n ensures FreeAt(ops', stack', place', i) { assert FreeAt(ops, stack, place, i); }
    forall x | 0 <= x < |ops| ensures SlotAt(ops', stack', place', x) { assert SlotAt(ops, stack, place, x); }
  }

  lemma SetKeeps(freeHead: nat, ops: seq<UserOp>, stack: seq<nat>, place: seq<int>, x: nat, scalar: Scalar)
    requires SlabOk(freeHead, ops, stack, place) && x < |ops| && ops[x].freeNext == -1
    ensures SlabOk(freeHead, ops[x := UserOp(-1, scalar)], stack, place)
    ensures LiveIn(ops[x := UserOp(-1, scalar)]) == LiveIn(ops)[x := scalar]
  {
    var ops' := ops[x := UserOp(-1, scalar)];
    forall i | 0 <= i < |stack| ensures FreeAt(ops', stack, place, i) { assert FreeAt(ops, stack, place, i); }
    forall y | 0 <= y < |ops| ensures SlotAt(ops', stack, place, y) { assert SlotAt(ops, stack, place, y); }
  }

  lemma PushKeeps(freeHead: nat, ops: seq<UserOp>, stack: seq<nat>, place: seq<int>, x: nat, u: UserOp)
    requires SlabOk(freeHead, ops, stack, place) && x < |ops| && ops[x].freeNext == -1 && u.freeNext == freeHead
    ensures SlabOk(x, ops[x := u], stack + [x], place[x := |stack|])
    ensures x in LiveIn(ops) && LiveIn(ops[x := u]) == LiveIn(ops) - {x}
  {
    var ops', stack', place' := ops[x := u], stack + [x], place[x := |stack|];
    assert SlotAt(ops, stack, place, x);
    forall i | 0 <= i < |stack'| ensures FreeAt(ops', stack', place', i) {
      if i < |stack| { assert FreeAt(ops, stack, place, i); }
    }
    forall y | 0 <= y < |ops| ensures SlotAt(ops', stack', place', y) { assert SlotAt(ops, stack, place, y); }
  }

  lemma GrownOk(ops: seq<UserOp>, stack: seq<nat>, place: seq<int>, ops': seq<UserOp>)
    requires SlabOk(|ops|, ops, stack, place) && |ops| < |ops'| && ops'[..|ops|] == ops
    requires forall y :: |ops| <= y < |ops'| ==> ops'[y].freeNext == y + 1
    ensures SlabOk(|ops|, ops', CountDown(|ops|, |ops'|), Places(|ops|, |ops'|)) && LiveIn(ops') == LiveIn(ops)
  {
    assert stack == [] || FreeAt(ops, stack, place, |stack| - 1);
    var n, stack', place' := |ops|, CountDown(|ops|, |ops'|), Places(|ops|, |ops'|);
    forall y | 0 <= y < n ensures ops'[y] == ops[y] && ops[y].freeNext == -1 {
      assert ops'[y] == ops'[..n][y];
      assert SlotAt(ops, stack, place, y);
    }
    forall i | 0 <= i < |stack'| ensures FreeAt(ops', stack', place', i) {}
    forall x | 0 <= x < |ops'| ensures SlotAt(ops', stack', place', x) {}
  }

  ghost function CountDown(n: nat, cap: nat): (s: seq<nat>)
    requires n <= cap
    ensures |s| == cap - n && forall i :: 0 <= i < |s| ==> s[i] == cap - 1 - i
    decreases cap - n
  {
    if n == cap then [] else CountDown(n + 1, cap) + [n]
  }

  ghost function Places(n: nat, cap: nat): (p: seq<int>)
    requires n <= cap
    ensures |p| == cap && forall x :: 0 <= x < cap ==> p[x] == if x < n then -1 else cap - 1 - x
  {
    seq(cap, x requires 0 <= x < cap => if x < n then -1 else cap - 1 - x)
  }

  class RedOps {
    const hash: nat
    var capacity: nat
    var freeHead: nat
    var ops: seq<UserOp>
    /** The free list, its head last, and every slot's place in it. */
    ghost var stack: seq<nat>
    ghost var place: seq<int>

    ghost predicate Valid()
      reads this
    {
      hash <= MAX_RED_OP && |ops| == capacity && SlabOk(freeHead, ops, stack, place)
    }

    ghost function Live(): map<nat, Scalar>
      reads this
    {
      LiveIn(ops)
    }

    constructor (hash: nat)
      requires hash <= MAX_RED_OP
      ensures Valid() && Live() == map[] && this.hash == hash
    {
      this.hash := hash;
      capacity, freeHead, ops, stack, place := 0, 0, [], [], [];
    }

    /** Double the slots, at least to four, once none is free. */
    method Grow()
      requires Valid() && freeHead == capacity
      modifies this
      ensures Valid() && Live() == old(Live())
      ensures capacity == Max(2 * old(capacity), 4) && freeHead == old(capacity) < capacity
    {
      var n, cap := capacity, 2 * capacity;
      if cap < 4 { cap := 4; }
      var bigger := ops;
      for x := n to cap
        invariant |bigger| == x && bigger[..n] == ops
        invariant forall y :: n <= y < x ==> bigger[y].freeNext == y + 1
      {
        bigger := bigger + [UserOp(x + 1, 0)];
      }
      GrownOk(ops, stack, place, bigger);
      ops, capacity := bigger, cap;
      stack, place := CountDown(n, cap), Places(n, cap);
    }

    /** Take the slot at the head of the free list, growing the slab if it is empty. What the slot held stays in it. */
    method TakeSlot() returns (x: nat)
      requires Valid() && capacity < MAX_RED_OP / 4
      modifies this
      ensures Valid() && x < capacity && NUM_OPS + x <= MAX_RED_OP && x !in old(Live())
      ensures ops[x].freeNext == -1 && Live() == old(Live())[x := ops[x].scalar]
    {
      if freeHead == capacity { Grow(); }
      x := freeHead;
      HeadIsFree(freeHead, ops, stack, place);
      var stale := ops[x].(freeNext := -1);
      PopKeeps(freeHead, ops, stack, place, stale);
      freeHead := ops[x].freeNext;
      ops := ops[x := stale];
      stack, place := stack[..|stack| - 1], place[x := -1];
    }

    /** Take a slot; with no type size for an immediate scalar the call fails, and the slot stays taken. */
    method Create(scalar: Scalar, immediate: bool, typeSize: int) returns (status: Status, op: nat)
      requires Valid() && capacity < MAX_RED_OP / 4
      modifies this
      ensures Valid()
      ensures status == if immediate && typeSize < 1 then InternalError else Success
      ensures status == Success ==> NUM_OPS <= op <= MAX_RED_OP && NUM_OPS <= Mangle(hash, op)
      ensures status == Success ==>
        var x := Mangle(hash, op) - NUM_OPS; x !in old(Live()) && Live() == old(Live())[x := scalar]
      ensures status != Success ==> exists x: nat :: x !in old(Live()) && x in Live() && Live() - {x} == old(Live())
    {
      var x := TakeSlot();
      if immediate && typeSize < 1 {
        assert x in Live() && Live() - {x} == old(Live());
        return InternalError, 0;
      }
      SetKeeps(freeHead, ops, stack, place, x, scalar);
      ops := ops[x := ops[x].(scalar := scalar)];
      MangleTwice(hash, NUM_OPS + x);
      status, op := Success, Mangle(hash, NUM_OPS + x);
    }

    /** Give a slot back; handles that are built in, out of range or not taken are refused. */
    method Destroy(op: int) returns (status: Status)
      requires Valid()
      modifies this
      ensures Valid()
      ensures status == Success <==>
        NUM_OPS <= op <= MAX_RED_OP && NUM_OPS <= Mangle(hash, op) && Mangle(hash, op) - NUM_OPS in old(Live())
      ensures status == Success ==> Live() == old(Live()) - {Mangle(hash, op) - NUM_OPS}
      ensures status != Success ==> status == InvalidArgument && Live() == old(Live())
    {
      if 0 <= op < NUM_OPS { return InvalidArgument; }
      if op < 0 || MAX_RED_OP < op { return InvalidArgument; }
      MangleTwice(hash, op);
      var x := Mangle(hash, op) - NUM_OPS;
      if capacity <= x || ops[x].freeNext != -1 { return InvalidArgument; }
      PushKeeps(freeHead, ops, stack, place, x, ops[x].(freeNext := freeHead));
      ops := ops[x := ops[x].(freeNext := freeHead)];
      stack, place := stack + [x], place[x := |stack|];
      freeHead := x;
      status := Success;
    }
  }
}
