/** Machine integers and the Q2.30 fixed-point primitives of the PLL:
    a saturating clamp from 64 to 32 bits and a saturating Q2.30 multiply.

    The C integer types are newtypes, so every arithmetic operation written on
    them is checked by Dafny to stay in range, as C requires of signed
    arithmetic.  Where the C code relies on a conversion or on unsigned
    wrap-around, the model writes the modulus out. */
module FixedPoint {

  newtype int32 = x: int | -0x8000_0000 <= x < 0x8000_0000
  newtype int64 = x: int | -0x8000_0000_0000_0000 <= x < 0x8000_0000_0000_0000
  newtype uint32 = x: int | 0 <= x < 0x1_0000_0000

  const INT32_MIN: int := -0x8000_0000
  const INT32_MAX: int := 0x7FFF_FFFF

  /** 1.0 in Q2.30, i.e. 2^30. */
  const ONE_Q30: int := 0x4000_0000

  predicate InInt32(x: int) {
    INT32_MIN <= x <= INT32_MAX
  }

  function Abs(x: int): nat {
    if x < 0 then -x else x
  }

  /** `sat32`: clamp a 64-bit value into the int32 range.  A value that
      already fits is returned unchanged; any other value becomes the bound
      on its own side (never a wrapped value). */
  function Sat32(x: int64): (r: int32)
    ensures InInt32(x as int) ==> r as int == x as int
    ensures x as int > INT32_MAX ==> r as int == INT32_MAX
    ensures x as int < INT32_MIN ==> r as int == INT32_MIN
  {
    if x > 0x7FFF_FFFF then 0x7FFF_FFFF
    else if x < -0x8000_0000 then -0x8000_0000
    else x as int32
  }

  /** The clamp is the int32 value nearest to its argument. */
  lemma Sat32Nearest(x: int64, y: int32)
    ensures Abs(x as int - Sat32(x) as int) <= Abs(x as int - y as int)
  {
  }

  /** The clamp preserves order, so saturation never reverses a comparison. */
  lemma Sat32Monotone(x: int64, y: int64)
    requires x <= y
    ensures Sat32(x) <= Sat32(y)
  {
  }

  /** Product of two non-negative values bounded by their bounds' product. */
  lemma MulLeMul(x: int, y: int, xMax: int, yMax: int)
    requires 0 <= x <= xMax && 0 <= y <= yMax
    ensures x * y <= xMax * yMax
  {
    assert x * y <= xMax * y by {
      assert (xMax - x) * y >= 0;
    }
    assert xMax * y <= xMax * yMax by {
      assert xMax * (yMax - y) >= 0;
    }
  }

  lemma AbsMul(x: int, y: int)
    ensures Abs(x * y) == Abs(x) * Abs(y)
  {
    if x < 0 && y < 0 {
      assert x * y == (-x) * (-y);
    } else if x < 0 {
      assert x * y == -((-x) * y);
    } else if y < 0 {
      assert x * y == -(x * (-y));
    }
  }

  /** |x * y| <= xMax * yMax when |x| <= xMax and |y| <= yMax. */
  lemma AbsMulBound(x: int, y: int, xMax: int, yMax: int)
    requires Abs(x) <= xMax && Abs(y) <= yMax
    ensures Abs(x * y) <= xMax * yMax
  {
    AbsMul(x, y);
    MulLeMul(Abs(x), Abs(y), xMax, yMax);
  }

  /** The 64-bit product of two int32 values cannot overflow: its magnitude
      is at most 2^62. */
  lemma ProductFitsInt64(a: int32, b: int32)
    ensures Abs(a as int * b as int) <= 0x4000_0000_0000_0000
  {
    AbsMulBound(a as int, b as int, 0x8000_0000, 0x8000_0000);
  }

  /** `mul_q30`: Q2.30 times Q2.30 to Q2.30.  The Q4.60 product is taken at
      64 bits, shifted right arithmetically by 30 (floor division by 2^30)
      and saturated.  The result is the floor of a*b / 2^30 whenever that
      floor fits in int32, and the bound on the product's side otherwise. */
  function MulQ30(a: int32, b: int32): (r: int32)
    ensures a as int * b as int < (INT32_MAX + 1) * ONE_Q30 && a as int * b as int >= INT32_MIN * ONE_Q30 ==>
              r as int * ONE_Q30 <= a as int * b as int < r as int * ONE_Q30 + ONE_Q30
    ensures a as int * b as int >= (INT32_MAX + 1) * ONE_Q30 ==> r as int == INT32_MAX
    ensures a as int * b as int < INT32_MIN * ONE_Q30 ==> r as int == INT32_MIN
  {
    ProductFitsInt64(a, b);
    var p: int64 := a as int64 * b as int64;
    Sat32(p / 0x4000_0000)
  }

  /** A zero operand gives zero. */
  lemma MulQ30Zero(b: int32)
    ensures MulQ30(0, b) == 0 && MulQ30(b, 0) == 0
  {
  }

  lemma MulQ30Commutes(a: int32, b: int32)
    ensures MulQ30(a, b) == MulQ30(b, a)
  {
    assert a as int * b as int == b as int * a as int;
  }

  /** 1.0 (0x40000000) is the identity of the multiply: no rounding is lost. */
  lemma MulQ30ByOne(a: int32)
    ensures MulQ30(a, ONE_Q30 as int32) == a
  {
  }

  /** -1.0 negates, except that INT32_MIN saturates to INT32_MAX instead of
      wrapping back to INT32_MIN. */
  lemma MulQ30ByMinusOne(a: int32)
    ensures a as int != INT32_MIN ==> MulQ30(a, -ONE_Q30 as int32) as int == -(a as int)
    ensures a as int == INT32_MIN ==> MulQ30(a, -ONE_Q30 as int32) as int == INT32_MAX
  {
  }

  /** Multiplying by a factor of magnitude at most 1.0 never increases
      magnitude: the result lies in [-|a|, |a|]. */
  lemma MulQ30Contracts(a: int32, b: int32)
    requires -ONE_Q30 <= b as int <= ONE_Q30
    ensures Abs(MulQ30(a, b) as int) <= Abs(a as int)
  {
    var prod := a as int * b as int;
    AbsMulBound(a as int, b as int, Abs(a as int), ONE_Q30);
    assert -(Abs(a as int) * ONE_Q30) <= prod <= Abs(a as int) * ONE_Q30;
  }

  /** Floor division of a natural number by a positive divisor. */
  lemma DivOfNat(n: nat, d: int)
    requires d > 0
    ensures 0 <= n / d && (n / d) * d <= n < (n / d) * d + d
  {
  }

  /** C's signed division truncates toward zero (C99 section 6.5.5). */
  function CDiv(n: int, d: int): (q: int)
    requires d > 0
    ensures Abs(q) * d <= Abs(n) < Abs(q) * d + d
    ensures n >= 0 ==> q >= 0
    ensures n <= 0 ==> q <= 0
  {
    if n >= 0 then
      DivOfNat(n, d);
      n / d
    else
      DivOfNat(-n, d);
      -((-n) / d)
  }

  /** For a non-negative dividend, truncation and Dafny's floor division agree. */
  lemma CDivNonNegative(n: int, d: int)
    requires n >= 0 && d > 0
    ensures CDiv(n, d) == n / d
  {
  }
}
