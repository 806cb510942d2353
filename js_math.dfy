// The ECMAScript number operations the driver relies on, on exact integers
// and reals: 32-bit integer conversion, shifts, Math.round, Math.min and the
// truncating remainder operator `%`.

module JsMath {

  const TWO_31: int := 0x8000_0000
  const TWO_32: int := 0x1_0000_0000

  predicate IsInt32(x: int) {
    -TWO_31 <= x < TWO_31
  }

  /** ToInt32 of an integral number: the signed 32-bit value congruent to x modulo 2^32. */
  function ToInt32(x: int): (r: int)
    ensures IsInt32(r)
    ensures (x - r) % TWO_32 == 0
    ensures IsInt32(x) ==> r == x
  {
    var r := (x + TWO_31) % TWO_32 - TWO_31;
    assert x - r == ((x + TWO_31) / TWO_32) * TWO_32;
    MultipleMod(((x + TWO_31) / TWO_32));
    r
  }

  lemma MultipleMod(q: int)
    ensures (q * TWO_32) % TWO_32 == 0
  {
  }

  /** Two integers with the same residue modulo 2^32 convert to the same 32-bit value. */
  lemma {:induction false} ToInt32Congruent(a: int, b: int)
    requires (a - b) % TWO_32 == 0
    ensures ToInt32(a) == ToInt32(b)
  {
    var q := (a - b) / TWO_32;
    assert a == b + q * TWO_32;
    assert (a + TWO_31) == (b + TWO_31) + q * TWO_32;
    ModShift(b + TWO_31, q);
  }

  lemma ModShift(x: int, q: int)
    ensures (x + q * TWO_32) % TWO_32 == x % TWO_32
  {
  }

  function Pow2(k: nat): (r: int)
    ensures r >= 1
  {
    if k == 0 then 1 else 2 * Pow2(k - 1)
  }

  /**
   * `x >> k`: the left operand is converted to a signed 32-bit integer, only the
   * low five bits of the shift count are used, and the shift is arithmetic
   * (it rounds towards negative infinity).
   */
  function ShiftRight(x: int, k: nat): (r: int)
    ensures IsInt32(r)
    ensures 0 <= x < TWO_31 ==> 0 <= r <= x && r == x / Pow2(k % 32)
  {
    var v := ToInt32(x);
    var p := Pow2(k % 32);
    DivBounds(v, p);
    v / p
  }

  lemma DivBounds(v: int, p: int)
    requires IsInt32(v) && p >= 1
    ensures IsInt32(v / p)
    ensures 0 <= v ==> 0 <= v / p <= v
  {
    var d := v / p;
    var m := v % p;
    assert d * p + m == v && 0 <= m < p;
    if v >= 0 {
      if d > v {
        MulMonotone(v + 1, d, p);
        assert false;
      }
      if d < 0 {
        MulMonotone(d, -1, p);
        assert false;
      }
    } else {
      if d < v {
        MulMonotone(d, v - 1, p);
        MulMonotone(v - 1, -1, p - 1);
        assert false;
      }
      if d >= 0 {
        MulMonotone(0, d, p);
        assert false;
      }
    }
  }

  lemma MulMonotone(x: int, y: int, p: int)
    requires x <= y && p >= 0
    ensures x * p <= y * p
  {
  }

  /** `x << k` on a 32-bit operand: the product wraps to a signed 32-bit integer. */
  function ShiftLeft(x: int, k: nat): (r: int)
    ensures IsInt32(r)
    ensures (x * Pow2(k % 32) - r) % TWO_32 == 0 || !IsInt32(x)
  {
    ToInt32(ToInt32(x) * Pow2(k % 32))
  }

  /** Math.round: the nearest integer, halves rounded towards positive infinity. */
  function Round(x: real): (r: int)
    ensures x - 0.5 < r as real <= x + 0.5
  {
    (x + 0.5).Floor
  }

  /** Math.abs. */
  function Abs(x: real): (r: real)
    ensures 0.0 <= r && (r == x || r == -x)
    ensures r > 0.0 <==> x != 0.0
  {
    if x < 0.0 then -x else x
  }

  /** Math.min. */
  function Min(a: real, b: real): (r: real)
    ensures r <= a && r <= b && (r == a || r == b)
  {
    if a <= b then a else b
  }

  /** Math.max. */
  function Max(a: real, b: real): (r: real)
    ensures r >= a && r >= b && (r == a || r == b)
  {
    if a >= b then a else b
  }

  /**
   * The `%` operator on numbers: the result takes the sign of the dividend and
   * its magnitude is |a| reduced modulo |b| (a truncating, not a flooring or
   * Euclidean, remainder).
   */
  function Rem(a: real, b: real): (r: real)
    requires b != 0.0
    ensures 0.0 <= a ==> 0.0 <= r < Abs(b)
    ensures a < 0.0 ==> -Abs(b) < r <= 0.0
    ensures Abs(r) <= Abs(a)
  {
    var m := Abs(a) - Abs(b) * (Abs(a) / Abs(b)).Floor as real;
    ModBounds(Abs(a), Abs(b));
    if a < 0.0 then -m else m
  }

  lemma ModBounds(x: real, y: real)
    requires 0.0 <= x && 0.0 < y
    ensures 0.0 <= x - y * (x / y).Floor as real < y
    ensures x - y * (x / y).Floor as real <= x
  {
    var q := x / y;
    var k := q.Floor as real;
    assert x == y * q;
    assert 0.0 <= k <= q < k + 1.0;
    ScaleLe(y, k, q);
    ScaleLe(y, q, k + 1.0);
    assert y * (k + 1.0) == y * k + y;
    assert y * q < y * k + y;
    assert x - y * k < y;
    ScaleLe(y, 0.0, k);
  }

  lemma ScaleLe(y: real, u: real, v: real)
    requires 0.0 < y && u <= v
    ensures y * u <= y * v
    ensures u < v ==> y * u < y * v
  {
  }
}
