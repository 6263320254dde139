/**
 * The parts of java.lang.Math and of Java's integer arithmetic that the
 * simulation relies on, stated over Dafny's exact reals and unbounded ints.
 */
module JavaMath {

  /** Math.PI: the double nearest to pi, written out as an exact decimal. */
  const PI: real := 3.141592653589793

  /** Integer.MAX_VALUE and Integer.MIN_VALUE: the range of a Java `int`. */
  const INT_MAX: int := 0x7fff_ffff
  const INT_MIN: int := -0x8000_0000

  /**
   * Math.sin and Math.cos. Their values are not modelled: both are left
   * uninterpreted, and a lemma that needs a fact about them (sin 0 = 0,
   * sin^2 + cos^2 = 1) takes that fact as a hypothesis.
   */
  const Sin: real -> real
  const Cos: real -> real

  /** Math.toRadians: degrees to radians. */
  function ToRadians(deg: real): (r: real)
    ensures deg == 0.0 ==> r == 0.0
    ensures deg > 0.0 ==> r > 0.0
    ensures deg < 0.0 ==> r < 0.0
    ensures -90.0 <= deg <= 90.0 ==> -PI / 2.0 <= r <= PI / 2.0
    ensures deg == 180.0 ==> r == PI
  {
    deg * PI / 180.0
  }

  /** Math.pow(2, e) for an integer exponent, exactly. */
  function Pow2(e: int): (r: real)
    ensures r > 0.0
    decreases if e >= 0 then e else -e
  {
    if e == 0 then 1.0
    else if e > 0 then 2.0 * Pow2(e - 1)
    else Pow2(e + 1) / 2.0
  }

  /** Each further power of two doubles: Pow2(e + 1) = 2 Pow2(e), for negative e as well. */
  lemma Pow2Succ(e: int)
    ensures Pow2(e + 1) == 2.0 * Pow2(e)
  {
  }

  /** Math.pow(2, e) is strictly increasing in e. */
  lemma {:induction false} Pow2Increasing(a: int, b: int)
    requires a < b
    ensures Pow2(a) < Pow2(b)
    decreases b - a
  {
    Pow2Succ(a);
    if a + 1 < b {
      Pow2Increasing(a + 1, b);
    }
  }

  /** Ten to the power d: a value printed with d decimals is exact when it times Pow10(d) is whole. */
  function Pow10(d: nat): (r: real)
    ensures r >= 1.0
  {
    if d == 0 then 1.0 else 10.0 * Pow10(d - 1)
  }

  /** Whether a real number is an integer. */
  predicate IsWhole(r: real)
  {
    r.Floor as real == r
  }

  /**
   * Java's `(int)` cast of a double: truncation toward zero, saturating at
   * the bounds of `int` (NaN does not arise here).
   */
  function DoubleToInt(r: real): (i: int)
    ensures INT_MIN <= i <= INT_MAX
    ensures IsWhole(r) && INT_MIN as real <= r <= INT_MAX as real ==> i as real == r
    ensures 0.0 <= r <= INT_MAX as real ==> i == r.Floor
  {
    if r >= INT_MAX as real then INT_MAX
    else if r <= INT_MIN as real then INT_MIN
    else if r >= 0.0 then r.Floor
    else -((-r).Floor)
  }

  /** Long.MIN_VALUE and Long.MAX_VALUE: the range of a Java `long`. */
  const LONG_MIN: int := -0x8000_0000_0000_0000
  const LONG_MAX: int := 0x7fff_ffff_ffff_ffff

  /** The 64-bit two's-complement value of x: what `long` arithmetic keeps of an exact result. */
  function ToLong(x: int): (r: int)
    ensures LONG_MIN <= r <= LONG_MAX
    ensures LONG_MIN <= x <= LONG_MAX ==> r == x
    ensures (r - x) % 0x1_0000_0000_0000_0000 == 0
  {
    (x - LONG_MIN) % 0x1_0000_0000_0000_0000 + LONG_MIN
  }

  /** Java's `/` on ints, which truncates toward zero (Dafny's rounds down). */
  function TruncDiv(a: int, b: int): (q: int)
    requires b > 0
    ensures a >= 0 ==> q * b <= a < q * b + b
    ensures a < 0 ==> q * b - b < a <= q * b
  {
    if a >= 0 then a / b else -((-a) / b)
  }
}
