/** Kotlin's 32-bit `Int` over Dafny's unbounded `int`: two's-complement
    wrap-around for `+`, `-` and `*`, the truncating remainder `%`, and the
    saturating conversion `Float.toInt()` (on reals). */
module KotlinInt {

  const MinInt: int := -0x8000_0000
  const MaxInt: int := 0x7fff_ffff
  const Modulus: int := 0x1_0000_0000

  type Int32 = x: int | MinInt <= x <= MaxInt

  function Abs(x: int): (r: nat)
    ensures r == x || r == -x
  {
    if x < 0 then -x else x
  }

  function Min(a: int, b: int): (r: int)
    ensures r <= a && r <= b
    ensures r == a || r == b
  {
    if a <= b then a else b
  }

  function Max(a: real, b: real): (r: real)
    ensures a <= r && b <= r
    ensures r == a || r == b
  {
    if a >= b then a else b
  }

  /** The unique Int32 congruent to `x` modulo 2^32. */
  function Wrap(x: int): (r: Int32)
    ensures (x - r) % Modulus == 0
    ensures MinInt <= x <= MaxInt ==> r == x
  {
    var m := (x - MinInt) % Modulus;
    assert x - (m + MinInt) == Modulus * ((x - MinInt) / Modulus);
    m + MinInt
  }

  function Add(a: Int32, b: Int32): (r: Int32)
    ensures MinInt <= a + b <= MaxInt ==> r == a + b
    ensures a + b > MaxInt ==> r == a + b - Modulus
    ensures a + b < MinInt ==> r == a + b + Modulus
  {
    Wrap(a + b)
  }

  function Sub(a: Int32, b: Int32): (r: Int32)
    ensures MinInt <= a - b <= MaxInt ==> r == a - b
    ensures a - b > MaxInt ==> r == a - b - Modulus
    ensures a - b < MinInt ==> r == a - b + Modulus
  {
    Wrap(a - b)
  }

  function Mul(a: Int32, b: Int32): (r: Int32)
    ensures MinInt <= a * b <= MaxInt ==> r == a * b
    ensures (a * b - r) % Modulus == 0
  {
    Wrap(a * b)
  }

  /** Kotlin's `a % b` on Int: the remainder of division truncated toward
      zero, so it takes the sign of the dividend. */
  function Rem(a: Int32, b: Int32): (r: Int32)
    requires b != 0
    ensures a >= 0 ==> r >= 0
    ensures a < 0 ==> r <= 0
    ensures Abs(r) == Abs(a) % Abs(b)
  {
    var m := Abs(a) % Abs(b);
    if a >= 0 then m else -m
  }

  /** A non-negative dividend and a positive divisor: Kotlin's and Dafny's
      remainders agree. */
  lemma RemNonNegative(a: Int32, b: Int32)
    requires 0 <= a && 0 < b
    ensures Rem(a, b) == a % b
  {
  }

  /** Truncation toward zero of a real. */
  function Trunc(x: real): (r: int)
    ensures 0.0 <= x ==> 0 <= r && r as real <= x < r as real + 1.0
    ensures x < 0.0 ==> r <= 0 && r as real - 1.0 < x <= r as real
  {
    if x >= 0.0 then x.Floor else -((-x).Floor)
  }

  /** Kotlin's `Float.toInt()`: truncation toward zero, saturated at the
      ends of the Int range (NaN does not arise over the reals). */
  function FloatToInt(x: real): (r: Int32)
    ensures MaxInt as real <= x ==> r == MaxInt
    ensures x <= MinInt as real ==> r == MinInt
    ensures MinInt as real < x < MaxInt as real ==> r == Trunc(x)
    ensures 0.0 <= x && x.Floor <= MaxInt ==> r == x.Floor
  {
    if x >= MaxInt as real then MaxInt
    else if x <= MinInt as real then MinInt
    else Trunc(x)
  }

  /** A product of non-negative factors is non-negative, and no smaller than
      the second factor when the first is positive. */
  lemma ProductBound(a: int, b: int)
    requires 0 <= a && 0 <= b
    ensures 0 <= a * b
    ensures 1 <= a ==> b <= a * b
  {
    if 1 <= a {
      assert a * b == b + (a - 1) * b;
    }
  }
}
