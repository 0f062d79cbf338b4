/** Arithmetic shared by the models: multiplication, Euclidean division, rounding and powers of two. */
module Arith {

  function Min(a: int, b: int): int { if a < b then a else b }

  function Max(a: int, b: int): int { if a < b then b else a }

  lemma {:induction false} MulNonneg(x: nat, y: nat)
    ensures 0 <= x * y
    ensures 0 < x && 0 < y ==> 0 < x * y
  {
  }

  lemma MulDistributes(c: int, x: int, y: int)
    ensures c * (x + y) == c * x + c * y
    ensures c * (x - y) == c * x - c * y
    ensures (x + y) * c == x * c + y * c
    ensures (x - y) * c == x * c - y * c
  {
  }

  lemma MulLe(c: int, x: int, y: int)
    requires 0 <= c && x <= y
    ensures c * x <= c * y
    ensures x * c <= y * c
  {
    MulDistributes(c, y, x);
    MulNonneg(c, y - x);
  }

  lemma MulLt(c: int, x: int, y: int)
    requires 0 < c && x < y
    ensures c * x + c <= c * y
    ensures x * c + c <= y * c
  {
    MulLe(c, x + 1, y);
    MulDistributes(c, x, 1);
  }

  lemma MulLeInverse(c: int, x: int, y: int)
    requires 0 < c && c * x <= c * y
    ensures x <= y
  {
    if y < x { MulLt(c, y, x); }
  }

  lemma MulLtInverse(c: int, x: int, y: int)
    requires 0 < c && c * x < c * y
    ensures x < y
  {
    if y <= x { MulLe(c, y, x); }
  }

  /** Quotient and remainder are the only solution of the division equation. */
  lemma DivModUnique(x: int, n: int, q: int, r: int)
    requires 0 < n && 0 <= r < n && x == n * q + r
    ensures x / n == q && x % n == r
  {
    var q', r' := x / n, x % n;
    assert x == n * q' + r';
    if q < q' { MulLt(n, q, q'); }
    if q' < q { MulLt(n, q', q); }
  }

  lemma DivMod(x: int, n: int)
    requires 0 < n
    ensures x == n * (x / n) + x % n
    ensures 0 <= x % n < n
  {
  }

  lemma DivNonneg(x: int, n: int)
    requires 0 < n && 0 <= x
    ensures 0 <= x / n
  {
    DivMod(x, n);
    if x / n < 0 { MulLe(n, x / n, -1); }
  }

  lemma DivBelow(x: int, n: int, b: int)
    requires 0 < n && x < n * b
    ensures x / n < b
  {
    DivMod(x, n);
    if b <= x / n { MulLe(n, b, x / n); }
  }

  lemma DivAtLeast(x: int, n: int, b: int)
    requires 0 < n && n * b <= x
    ensures b <= x / n
  {
    DivMod(x, n);
    if x / n < b { MulLt(n, x / n, b); }
  }

  lemma ModAddMultiple(x: int, n: int, q: int)
    requires 0 < n
    ensures (x + n * q) % n == x % n
    ensures (x + n * q) / n == x / n + q
  {
    DivMod(x, n);
    MulDistributes(n, x / n, q);
    DivModUnique(x + n * q, n, x / n + q, x % n);
  }

  lemma ModSmall(x: int, n: int)
    requires 0 <= x < n
    ensures x % n == x && x / n == 0
  {
    DivModUnique(x, n, 0, x);
  }

  /** Numbers with the same remainder that are less than the modulus apart are equal. */
  lemma ModApart(x: int, y: int, n: int)
    requires 0 < n && x % n == y % n && -n < y - x < n
    ensures x == y
  {
    DivMod(x, n);
    DivMod(y, n);
    if x / n < y / n { MulLt(n, x / n, y / n); }
    if y / n < x / n { MulLt(n, y / n, x / n); }
  }

  lemma ModEqual(x: int, y: int, n: int, k: int)
    requires 0 < n && y == x + n * k
    ensures x % n == y % n
  {
    ModAddMultiple(x, n, k);
  }

  function DivUp(x: nat, n: nat): (q: nat)
    requires 0 < n
    ensures x <= n * q
    ensures 0 < x ==> n * q < x + n && 0 < q
  {
    DivMod(x + n - 1, n);
    DivNonneg(x + n - 1, n);
    if x > 0 then
      DivAtLeast(x + n - 1, n, 1);
      (x + n - 1) / n
    else
      (x + n - 1) / n
  }

  lemma DivUpUnique(x: nat, n: nat, q: nat)
    requires 0 < n && x <= n * q && n * q < x + n
    ensures DivUp(x, n) == q
  {
    MulDistributes(n, q, 1);
    DivModUnique(x + n - 1, n, q, x + n - 1 - n * q);
  }

  lemma DivUpLe(x: nat, n: nat, q: nat)
    requires 0 < n && x <= n * q
    ensures DivUp(x, n) <= q
  {
    var p := DivUp(x, n);
    if q < p {
      MulLt(n, q, p);
      if x == 0 { ModSmall(n - 1, n); }
    }
  }

  /** alignUp of bitops.h on its domain (a power-of-two alignment), as arithmetic. */
  function AlignUp(x: nat, a: nat): (y: nat)
    requires 0 < a
    ensures x <= y < x + a && y % a == 0
  {
    DivMod(x + a - 1, a);
    var y := x + a - 1 - (x + a - 1) % a;
    DivModUnique(y, a, (x + a - 1) / a, 0);
    y
  }

  lemma AlignUpLe(x: nat, a: nat, y: nat)
    requires 0 < a && x <= y && y % a == 0
    ensures AlignUp(x, a) <= y
  {
    var z := AlignUp(x, a);
    if y < z { ModApart(y, z, a); }
  }

  function Pow2(k: nat): (p: nat)
    ensures 1 <= p
  {
    if k == 0 then 1 else 2 * Pow2(k - 1)
  }
}
