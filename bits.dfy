/**
 * Unbounded-integer view of the kernel's bit-field helpers.
 *
 * A field is `width` bits starting at bit `lo` (the mask GENMASK(lo+width-1, lo)).
 * `Encode` is what `u64_encode_bits`/`u32_encode_bits`/`FIELD_PREP` compute for
 * such a mask, `Get` what `u64_get_bits`/`u32_get_bits`/`FIELD_GET` compute.
 */
module Bits {

  function Pow2(n: nat): (r: nat)
    ensures r >= 1
  {
    if n == 0 then 1 else 2 * Pow2(n - 1)
  }

  lemma {:induction false} Pow2Add(a: nat, b: nat)
    ensures Pow2(a + b) == Pow2(a) * Pow2(b)
  {
    if a > 0 {
      Pow2Add(a - 1, b);
      calc {
        Pow2(a + b);
        2 * Pow2(a - 1 + b);
        2 * (Pow2(a - 1) * Pow2(b));
        (2 * Pow2(a - 1)) * Pow2(b);
      }
    }
  }

  lemma {:induction false} Pow2Monotone(a: nat, b: nat)
    requires a <= b
    ensures Pow2(a) <= Pow2(b)
  {
    if a < b {
      Pow2Monotone(a, b - 1);
    }
  }

  /** Euclidean division is determined by quotient and remainder. */
  lemma DivModUnique(x: int, d: int, q: int, r: int)
    requires 0 < d && 0 <= r < d && x == q * d + r
    ensures x / d == q && x % d == r
  {
    var q0, r0 := x / d, x % d;
    assert (q0 - q) * d == r - r0;
    if q0 > q {
      MulAtLeast(q0 - q, d);
    } else if q0 < q {
      MulAtLeast(q - q0, d);
    }
  }

  lemma MulAtLeast(k: int, d: int)
    requires k >= 1 && d > 0
    ensures k * d >= d
  {
    assert k * d == (k - 1) * d + d;
    assert (k - 1) * d >= 0;
  }

  lemma MulMonotone(a: nat, b: nat, c: nat)
    requires a <= b
    ensures a * c <= b * c
  {
    assert b * c == a * c + (b - a) * c;
  }

  /** (q*d + r) / d == q for a remainder below d. */
  lemma DivAdd(q: int, d: int, r: int)
    requires 0 < d && 0 <= r < d
    ensures (q * d + r) / d == q && (q * d + r) % d == r
  {
    DivModUnique(q * d + r, d, q, r);
  }

  /** Adding multiples of m does not change a remainder modulo m. */
  lemma ModAddMultiple(a: int, k: int, m: int)
    requires m > 0
    ensures (a + k * m) % m == a % m
  {
    var q := a / m;
    assert a + k * m == (q + k) * m + a % m;
    DivModUnique(a + k * m, m, q + k, a % m);
  }

  /** Counting up by one in an m-wrapping counter. */
  lemma ModSucc(a: nat, m: nat)
    requires m > 0
    ensures (a % m + 1) % m == (a + 1) % m
  {
    var q := a / m;
    assert a + 1 == q * m + (a % m + 1);
    if a % m + 1 < m {
      DivAdd(q, m, a % m + 1);
      DivAdd(0, m, a % m + 1);
    } else {
      assert a + 1 == (q + 1) * m + 0;
      DivAdd(q + 1, m, 0);
      DivAdd(1, m, 0);
    }
  }

  /** x / (a*b) == (x / a) / b. */
  lemma DivDiv(x: nat, a: nat, b: nat)
    requires a > 0 && b > 0
    ensures x / (a * b) == (x / a) / b
  {
    var q1 := x / a;
    var q2 := q1 / b;
    var r := (q1 % b) * a + x % a;
    assert x == q1 * a + x % a;
    assert q1 == q2 * b + q1 % b;
    assert x == q2 * (a * b) + r;
    MulMonotone(q1 % b, b - 1, a);
    assert r < a * b;
    DivModUnique(x, a * b, q2, r);
  }

  /** A contiguous bit field: `width` bits starting at bit `lo`. */
  datatype Field = Field(lo: nat, width: nat)

  /** The field's bits do not overlap. */
  predicate Disjoint(f: Field, g: Field)
  {
    f.lo + f.width <= g.lo || g.lo + g.width <= f.lo
  }

  /** Place `v` into field `f`, truncating it to the field width (two's complement for negative `v`). */
  function Encode(v: int, f: Field): (r: nat)
    ensures r < Pow2(f.lo + f.width)
    ensures r % Pow2(f.lo) == 0
  {
    EncodeBounds(v, f);
    (v % Pow2(f.width)) * Pow2(f.lo)
  }

  lemma EncodeBounds(v: int, f: Field)
    ensures (v % Pow2(f.width)) * Pow2(f.lo) < Pow2(f.lo + f.width)
    ensures ((v % Pow2(f.width)) * Pow2(f.lo)) % Pow2(f.lo) == 0
  {
    Pow2Add(f.width, f.lo);
    MulMonotone(v % Pow2(f.width), Pow2(f.width) - 1, Pow2(f.lo));
    DivAdd(v % Pow2(f.width), Pow2(f.lo), 0);
  }

  /** The value held in field `f` of `x`. */
  function Get(x: nat, f: Field): (r: nat)
    ensures r < Pow2(f.width)
  {
    (x / Pow2(f.lo)) % Pow2(f.width)
  }

  /** Every field of 0 is 0. */
  lemma GetZero(f: Field)
    ensures Get(0, f) == 0
  {
    DivAdd(0, Pow2(f.lo), 0);
    DivAdd(0, Pow2(f.width), 0);
  }

  /** Reading a field back returns the value written, truncated to the field width. */
  lemma GetEncode(v: int, f: Field)
    ensures Get(Encode(v, f), f) == v % Pow2(f.width)
  {
    var P, W := Pow2(f.lo), Pow2(f.width);
    var A := v % W;
    assert Encode(v, f) == A * P + 0;
    DivAdd(A, P, 0);
    assert Encode(v, f) / P == A;
    DivAdd(0, W, A);
    assert (0 * W + A) % W == A;
  }

  /** Writing a disjoint field leaves this field's value in place. */
  lemma GetEncodeOther(a: int, f: Field, b: int, g: Field)
    requires Disjoint(f, g)
    ensures Get(Encode(a, f) + Encode(b, g), f) == a % Pow2(f.width)
  {
    if g.lo + g.width <= f.lo {
      GetEncodeBelow(a, f, b, g);
    } else {
      GetEncodeAbove(a, f, b, g);
    }
  }

  lemma GetEncodeBelow(a: int, f: Field, b: int, g: Field)
    requires g.lo + g.width <= f.lo
    ensures Get(Encode(a, f) + Encode(b, g), f) == a % Pow2(f.width)
  {
    var P, W := Pow2(f.lo), Pow2(f.width);
    var A, E := a % W, Encode(b, g);
    Pow2Monotone(g.lo + g.width, f.lo);
    assert E < P;
    assert Encode(a, f) + E == A * P + E;
    DivAdd(A, P, E);
    DivAdd(0, W, A);
  }

  lemma GetEncodeAbove(a: int, f: Field, b: int, g: Field)
    requires f.lo + f.width <= g.lo
    ensures Get(Encode(a, f) + Encode(b, g), f) == a % Pow2(f.width)
  {
    var P, W := Pow2(f.lo), Pow2(f.width);
    var k := g.lo - f.lo - f.width;
    var A, B, K := a % W, b % Pow2(g.width), Pow2(k);
    Pow2Add(f.lo, f.width + k);
    Pow2Add(f.width, k);
    assert Pow2(g.lo) == P * (W * K);
    Regroup(A, B, P, W, K);
    assert Encode(a, f) + Encode(b, g) == (A + (B * K) * W) * P;
    DivAdd(A + (B * K) * W, P, 0);
    ModAddMultiple(A, B * K, W);
    DivAdd(0, W, A);
  }

  lemma Regroup(A: int, B: int, P: int, W: int, K: int)
    ensures A * P + B * (P * (W * K)) == (A + (B * K) * W) * P
  {
  }

  /** Whether bit `k` of `x` is set. */
  predicate BitSet(x: nat, k: nat)
  {
    Get(x, Field(k, 1)) == 1
  }

  /** The powers of two the register layouts use. */
  lemma Pow2Small()
    ensures Pow2(4) == 0x10 && Pow2(6) == 0x40 && Pow2(8) == 0x100 && Pow2(16) == 0x1_0000
  {
    assert Pow2(2) == 4;
    Pow2Add(2, 2);
    Pow2Add(4, 2);
    Pow2Add(4, 4);
    Pow2Add(8, 8);
  }

  /** The powers of two of the 48- and 64-bit layouts. */
  lemma Pow2Wide()
    ensures Pow2(48) == 0x1_0000_0000_0000 && Pow2(49) == 0x2_0000_0000_0000
    ensures Pow2(64) == 0x1_0000_0000_0000_0000
  {
    Pow2Small();
    Pow2Add(16, 16);
    Pow2Add(32, 16);
    Pow2Add(48, 16);
    Pow2Add(48, 1);
  }

  /** Bitwise OR of the low `n` bits of `x` and `y`. */
  function Or(x: nat, y: nat, n: nat): nat
  {
    if n == 0 then 0 else 2 * Or(x / 2, y / 2, n - 1) + (if x % 2 == 1 || y % 2 == 1 then 1 else 0)
  }

  lemma {:induction false} OrZero(x: nat, n: nat)
    requires x < Pow2(n)
    ensures Or(x, 0, n) == x
  {
    if n > 0 {
      OrZero(x / 2, n - 1);
    }
  }

  /** OR of a value whose low `k` bits are clear with one below 2^k is their sum. */
  lemma {:induction false} OrDisjoint(a: nat, y: nat, k: nat, n: nat)
    requires k <= n && y < Pow2(k) && a * Pow2(k) < Pow2(n)
    ensures Or(a * Pow2(k), y, n) == a * Pow2(k) + y
  {
    if k == 0 {
      OrZero(a, n);
    } else {
      var x := a * Pow2(k);
      assert x == 2 * (a * Pow2(k - 1));
      OrDisjoint(a, y / 2, k - 1, n - 1);
    }
  }

  /** OR with all ones gives all ones. */
  lemma {:induction false} OrOnes(x: nat, n: nat)
    ensures Or(x, Pow2(n) - 1, n) == Pow2(n) - 1
  {
    if n > 0 {
      OrOnes(x / 2, n - 1);
    }
  }

  /** An n-bit OR stays below 2^n. */
  lemma {:induction false} OrBound(x: nat, y: nat, n: nat)
    ensures Or(x, y, n) < Pow2(n)
  {
    if n > 0 {
      OrBound(x / 2, y / 2, n - 1);
    }
  }
}
