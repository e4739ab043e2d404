/**
 * Bitwise AND on non-negative integers, as C++ evaluates `a & b` on two
 * non-negative `int` operands, and the fact the spectrogram's bin remap relies
 * on: masking with `m - 1` wraps an index modulo `m` when `m` is a power of two.
 */
module Bits {

  /** `a & b` for non-negative operands, computed from the least significant bit upwards. */
  function BitAnd(a: nat, b: nat): (r: nat)
    ensures r <= a && r <= b
    decreases a
  {
    if a == 0 || b == 0 then 0
    else 2 * BitAnd(a / 2, b / 2) + (if a % 2 == 1 && b % 2 == 1 then 1 else 0)
  }

  /** n is 2^k for some k >= 0. */
  predicate IsPowerOfTwo(n: nat)
    decreases n
  {
    n == 1 || (n >= 2 && n % 2 == 0 && IsPowerOfTwo(n / 2))
  }

  /** Multiplying by a non-negative factor keeps the order of its partner. */
  lemma MulMonotone(x: nat, y: nat, z: nat)
    requires y <= z
    ensures x * y <= x * z
  {
    assert x * z == x * y + x * (z - y);
  }

  /** No non-zero multiple of d lies strictly between -d and d. */
  lemma MultipleOutsideOpenInterval(d: int, n: int)
    requires d > 0
    ensures n == 0 || d * n >= d || d * n <= -d
  {
    if n >= 1 {
      assert d * n == d + d * (n - 1);
      MulMonotone(d, 0, n - 1);
    } else if n <= -1 {
      assert d * n == -d - d * (-n - 1);
      MulMonotone(d, 0, -n - 1);
    }
  }

  /** Euclidean remainders are unique: the remainder of a by d is the s with a == d * k + s, 0 <= s < d. */
  lemma ModuloUnique(a: nat, d: nat, k: nat, s: nat)
    requires d > 0 && a == d * k + s && s < d
    ensures a % d == s && a / d == k
  {
    var q, r := a / d, a % d;
    assert d * (q - k) == s - r;
    MultipleOutsideOpenInterval(d, q - k);
  }

  /** Splitting off the lowest bit: a mod 2h is twice (a/2 mod h) plus the lowest bit of a. */
  lemma ModuloOfHalves(a: nat, h: nat)
    requires h > 0
    ensures 2 * ((a / 2) % h) + a % 2 == a % (2 * h)
  {
    var q := a / 2;
    var s := 2 * (q % h) + a % 2;
    assert q == h * (q / h) + q % h;
    assert a == 2 * q + a % 2;
    assert a == (2 * h) * (q / h) + s;
    ModuloUnique(a, 2 * h, q / h, s);
  }

  /** Against an odd mask, the lowest bit of a survives and the rest is masked one bit down. */
  lemma OddMaskKeepsLowBit(a: nat, m: nat)
    requires a != 0 && m % 2 == 1
    ensures BitAnd(a, m) == 2 * BitAnd(a / 2, m / 2) + a % 2
  {
  }

  /** For m a power of two, `a & (m - 1)` equals `a % m`. */
  lemma {:induction false} LowMaskIsModulo(a: nat, m: nat)
    requires IsPowerOfTwo(m)
    ensures BitAnd(a, m - 1) == a % m
    decreases m
  {
    if m == 1 {
      assert BitAnd(a, 0) == 0;
    } else if a == 0 {
      assert BitAnd(0, m - 1) == 0;
    } else {
      var h := m / 2;
      assert m == 2 * h && IsPowerOfTwo(h);
      ModuloUnique(m - 1, 2, h - 1, 1);
      OddMaskKeepsLowBit(a, m - 1);
      LowMaskIsModulo(a / 2, h);
      ModuloOfHalves(a, h);
    }
  }
}
