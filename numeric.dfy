/**
 * Exact real-number counterparts of the Python numeric built-ins the
 * calculator relies on: `int(x)` (truncation), `round` (half to even),
 * `math.factorial` and `**` with an integer exponent.
 */
module Numeric {

  /** `x` has no fractional part. */
  predicate IsIntegral(x: real) {
    x == x.Floor as real
  }

  /** Python's `int(x)` on a float: truncation toward zero. */
  function Trunc(x: real): (r: int)
    ensures x >= 0.0 ==> 0 <= r && r as real <= x < r as real + 1.0
    ensures x < 0.0 ==> r <= 0 && r as real - 1.0 < x <= r as real
  {
    if x >= 0.0 then x.Floor else -((-x).Floor)
  }

  /** `x != int(x)` holds exactly for the non-integral `x`. */
  lemma TruncDiffersIffFractional(x: real)
    ensures (x != Trunc(x) as real) <==> !IsIntegral(x)
  {
    if x < 0.0 && IsIntegral(x) {
      assert (-x).Floor == -(x.Floor);
    } else if x < 0.0 && !IsIntegral(x) {
      assert (-x).Floor as real <= -x;
    }
  }

  /**
   * Python's `round(x)` with no digit count: the nearest integer, a tie going
   * to the even neighbour.
   */
  function RoundHalfEven(x: real): (r: int)
    ensures -0.5 <= r as real - x <= 0.5
    ensures (r as real - x == 0.5 || x - r as real == 0.5) ==> r % 2 == 0
  {
    var f := x.Floor;
    var d := x - f as real;
    if d < 0.5 then f
    else if d > 0.5 then f + 1
    else if f % 2 == 0 then f
    else f + 1
  }

  /** Scale used by `round(x, 6)`. */
  const Micro: real := 1000000.0

  /** `round(x, 6)`: `x` rounded half to even at the sixth decimal place. */
  function Round6(x: real): (r: real)
  {
    RoundHalfEven(x * Micro) as real / Micro
  }

  /** Rounding to six places moves a value by at most half a millionth. */
  lemma Round6Error(x: real)
    ensures -0.0000005 <= Round6(x) - x <= 0.0000005
  {
    var n := RoundHalfEven(x * Micro);
    assert -0.5 <= n as real - x * Micro <= 0.5;
    assert Round6(x) - x == (n as real - x * Micro) / Micro;
  }

  /** A value already on the micro grid is left as it is by `round(x, 6)`. */
  lemma Round6OnGrid(k: int)
    ensures Round6(k as real / Micro) == k as real / Micro
  {
    assert (k as real / Micro) * Micro == k as real;
  }

  /** `math.factorial(n)` for a natural `n`. */
  function Factorial(n: nat): (r: nat)
    ensures r >= 1
    ensures n >= 1 ==> r >= n
  {
    if n == 0 then 1 else n * Factorial(n - 1)
  }

  /** `x ** n` for a natural exponent `n`: `n` factors of `x`. */
  function IntPow(x: real, n: nat): (r: real)
    ensures n == 0 ==> r == 1.0
    ensures x != 0.0 ==> r != 0.0
    ensures x == 0.0 && n > 0 ==> r == 0.0
  {
    if n == 0 then 1.0 else x * IntPow(x, n - 1)
  }

  /** Exponents add: `x ** (a + b) == x ** a * x ** b`. */
  lemma {:induction false} IntPowAdd(x: real, a: nat, b: nat)
    ensures IntPow(x, a + b) == IntPow(x, a) * IntPow(x, b)
  {
    if a > 0 {
      IntPowAdd(x, a - 1, b);
      assert IntPow(x, a + b) == x * IntPow(x, a - 1 + b);
    }
  }
}
