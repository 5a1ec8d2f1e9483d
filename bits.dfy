/** Byte values and the bitwise operations the driver applies to Python integers. */
module Bits {

  /** A value that Python's `bytearray` accepts as one element. */
  type byte = x: int | 0 <= x < 256

  predicate IsByte(v: int) {
    0 <= v < 256
  }

  function Pow2(k: nat): (p: nat)
    ensures p >= 1
  {
    if k == 0 then 1 else 2 * Pow2(k - 1)
  }

  /** Python's `a | b` on non-negative integers, taken one bit at a time from the least significant end. */
  function Or(a: nat, b: nat): (r: nat)
    ensures a <= r && b <= r
    ensures r <= a + b
    decreases a + b
  {
    if a == 0 then b
    else if b == 0 then a
    else 2 * Or(a / 2, b / 2) + (if a % 2 == 1 || b % 2 == 1 then 1 else 0)
  }

  /** `a | b` stays below a power of two exactly when both operands do. */
  lemma {:induction false} OrBelow(a: nat, b: nat, k: nat)
    ensures Or(a, b) < Pow2(k) <==> a < Pow2(k) && b < Pow2(k)
  {
    if a != 0 && b != 0 && k != 0 && a < Pow2(k) && b < Pow2(k) {
      OrBelow(a / 2, b / 2, k - 1);
    }
  }

  /** `a | b` is a byte exactly when both operands are. */
  lemma OrIsByte(a: nat, b: nat)
    ensures IsByte(Or(a, b)) <==> IsByte(a) && IsByte(b)
  {
    OrBelow(a, b, 8);
  }

  /** Multiplying by a positive factor never makes a natural number smaller. */
  lemma MulAtLeast(m: nat, d: nat)
    requires d >= 1
    ensures m * d >= m
  {
  }

  /** Euclidean division has one remainder: any decomposition `a == m * t + rem` with `0 <= rem < m` gives it. */
  lemma ModUnique(a: nat, m: nat, t: nat, rem: nat)
    requires m >= 1 && a == m * t + rem && rem < m
    ensures a % m == rem
  {
    var t', rem' := a / m, a % m;
    assert a == m * t' + rem';
    if t' > t {
      var d := t' - t;
      assert m * t' == m * t + m * d;
      MulAtLeast(m, d);
      assert false;
    } else if t' < t {
      var d := t - t';
      assert m * t == m * t' + m * d;
      MulAtLeast(m, d);
      assert false;
    }
  }

  lemma HalfMod(a: nat, q: nat)
    requires q >= 1
    ensures a % (2 * q) == 2 * ((a / 2) % q) + a % 2
  {
    var h := a / 2;
    var t, s := h / q, h % q;
    assert h == q * t + s;
    assert a == 2 * h + a % 2;
    assert a == (2 * q) * t + (2 * s + a % 2) by {
      assert 2 * (q * t) == (2 * q) * t;
    }
    ModUnique(a, 2 * q, t, 2 * s + a % 2);
  }

  /** Setting bit `k` of a number below `2^(k+1)`: the bit is added on top of the `k` low bits. */
  lemma {:induction false} OrHighBit(a: nat, k: nat)
    requires a < 2 * Pow2(k)
    ensures Or(a, Pow2(k)) == Pow2(k) + a % Pow2(k)
  {
    if k == 0 {
      assert a == 0 || a == 1;
    } else if a != 0 {
      var p, q := Pow2(k), Pow2(k - 1);
      assert p == 2 * q;
      assert p / 2 == q && p % 2 == 0;
      OrHighBit(a / 2, k - 1);
      assert Or(a, p) == 2 * Or(a / 2, q) + a % 2;
      HalfMod(a, q);
    }
  }
}
