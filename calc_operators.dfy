/**
 * The calculator's binary operator table: seven symbols, each with the
 * semantics of its Python lambda. `/`, `%` and `//` give no result (`None`)
 * for a zero divisor; `%` and `//` round toward negative infinity, as Python's
 * do.
 */
module Operators {
  import opened Wrappers
  import opened Numeric

  datatype BinOp = Add | Sub | Mul | Div | Pow | Mod | FloorDiv

  /** The table's keys, in its order. */
  const Symbols: seq<string> := ["+", "-", "*", "/", "**", "%", "//"]

  function Symbol(op: BinOp): string {
    match op
    case Add => "+"
    case Sub => "-"
    case Mul => "*"
    case Div => "/"
    case Pow => "**"
    case Mod => "%"
    case FloorDiv => "//"
  }

  /** Looking a symbol up in the table. */
  function Lookup(sym: string): (r: Option<BinOp>)
    ensures r.Some? <==> sym in Symbols
    ensures r.Some? ==> Symbol(r.value) == sym
  {
    if sym == "+" then Some(Add)
    else if sym == "-" then Some(Sub)
    else if sym == "*" then Some(Mul)
    else if sym == "/" then Some(Div)
    else if sym == "**" then Some(Pow)
    else if sym == "%" then Some(Mod)
    else if sym == "//" then Some(FloorDiv)
    else None
  }

  /** Every operator is found under its own symbol. */
  lemma LookupSymbol(op: BinOp)
    ensures Lookup(Symbol(op)) == Some(op)
  {
  }

  /** What an entry's lambda gives back. */
  datatype Outcome =
    | Value(value: real)       // a number
    | NoValue                  // the lambda's explicit `None`
    | NotReal                  // a number that is not real (Python's complex power)
    | Raised(message: string)  // an exception raised inside the lambda

  /** What Python's `**` gives for a non-integral exponent, a floating-point routine. */
  type FracPower = (real, real) -> Outcome

  /** Python's `x // y`: the floor of the quotient. */
  function FloorQuotient(x: real, y: real): real
    requires y != 0.0
  {
    (x / y).Floor as real
  }

  /** Python's `x % y`: what is left over after the floor quotient. */
  function Remainder(x: real, y: real): real
    requires y != 0.0
  {
    x - y * FloorQuotient(x, y)
  }

  const NegativePowerOfZero: string := "0.0 cannot be raised to a negative power"

  /** Python's `x ** y`: exact for an integral exponent, delegated otherwise. */
  function Power(x: real, y: real, frac: FracPower): Outcome {
    if !IsIntegral(y) then frac(x, y)
    else if y >= 0.0 then Value(IntPow(x, y.Floor))
    else if x == 0.0 then Raised(NegativePowerOfZero)
    else Value(1.0 / IntPow(x, -y.Floor))
  }

  /** Applying the entry for `op` to `x` and `y`. */
  function Apply(op: BinOp, x: real, y: real, frac: FracPower): Outcome {
    match op
    case Add => Value(x + y)
    case Sub => Value(x - y)
    case Mul => Value(x * y)
    case Div => if y != 0.0 then Value(x / y) else NoValue
    case Pow => Power(x, y, frac)
    case Mod => if y != 0.0 then Value(Remainder(x, y)) else NoValue
    case FloorDiv => if y != 0.0 then Value(FloorQuotient(x, y)) else NoValue
  }

  predicate IsDivision(op: BinOp) {
    op == Div || op == Mod || op == FloorDiv
  }

  /**
   * An entry gives no result exactly when it is one of the three division
   * entries and the divisor is zero, whatever the power routine does with
   * `None`-free results.
   */
  lemma NoValueIffZeroDivisor(op: BinOp, x: real, y: real, frac: FracPower)
    requires forall a, b :: !frac(a, b).NoValue?
    ensures Apply(op, x, y, frac).NoValue? <==> IsDivision(op) && y == 0.0
  {
  }

  /** The division entries give a number for every non-zero divisor. */
  lemma DivisionValue(op: BinOp, x: real, y: real, frac: FracPower)
    requires IsDivision(op) && y != 0.0
    ensures Apply(op, x, y, frac).Value?
    ensures op == Div ==> Apply(op, x, y, frac).value * y == x
  {
  }

  /** `+`, `-` and `*` always give a number. */
  lemma RingOperationsTotal(op: BinOp, x: real, y: real, frac: FracPower)
    requires op == Add || op == Sub || op == Mul
    ensures Apply(op, x, y, frac).Value?
  {
  }

  /**
   * `//` and `%` fit together as Python promises: `x == y * (x // y) + x % y`,
   * `x // y` is a whole number, and the remainder has the divisor's sign and
   * is smaller than it in size.
   */
  lemma FloorDivisionIdentity(x: real, y: real)
    requires y != 0.0
    ensures IsIntegral(FloorQuotient(x, y))
    ensures x == y * FloorQuotient(x, y) + Remainder(x, y)
    ensures y > 0.0 ==> 0.0 <= Remainder(x, y) < y
    ensures y < 0.0 ==> y < Remainder(x, y) <= 0.0
  {
    var q := x / y;
    var f := FloorQuotient(x, y);
    var d := q - f;
    assert 0.0 <= d < 1.0;
    assert y * q == x;
    assert Remainder(x, y) == y * q - y * f;
    assert y * q - y * f == y * d;
    ScaleFraction(y, d);
    assert Remainder(x, y) == y * d;
  }

  /** Scaling a fraction in [0, 1) by `y` stays between 0 and `y`. */
  lemma ScaleFraction(y: real, d: real)
    requires 0.0 <= d < 1.0
    ensures y > 0.0 ==> 0.0 <= y * d < y
    ensures y < 0.0 ==> y < y * d <= 0.0
  {
    if y > 0.0 {
      PositiveProduct(y, 1.0 - d);
      assert y - y * d == y * (1.0 - d);
    } else if y < 0.0 {
      PositiveProduct(-y, 1.0 - d);
      assert y * d - y == (-y) * (1.0 - d);
    }
  }

  lemma PositiveProduct(a: real, b: real)
    requires a > 0.0 && b > 0.0
    ensures a * b > 0.0
  {
  }

  /** `%` with a negative operand follows the divisor, unlike C's `%`: `-7 % 2 == 1`, `7 % -2 == -1`. */
  lemma RemainderSignExamples()
    ensures Remainder(-7.0, 2.0) == 1.0 && FloorQuotient(-7.0, 2.0) == -4.0
    ensures Remainder(7.0, -2.0) == -1.0 && FloorQuotient(7.0, -2.0) == -4.0
  {
    assert (-7.0 / 2.0).Floor == -4;
    assert (7.0 / -2.0).Floor == -4;
  }

  /** With whole exponents the power entry is exact: exponents add. */
  lemma {:induction false} PowerExponentsAdd(x: real, m: nat, n: nat, frac: FracPower)
    ensures Apply(Pow, x, m as real, frac) == Value(IntPow(x, m))
    ensures Apply(Pow, x, (m + n) as real, frac) ==
            Value(IntPow(x, m) * IntPow(x, n))
  {
    assert (m as real).Floor == m;
    assert ((m + n) as real).Floor == m + n;
    IntPowAdd(x, m, n);
  }

  /** A negative whole exponent gives the reciprocal; zero to it raises `ZeroDivisionError`. */
  lemma PowerNegativeExponent(x: real, n: nat, frac: FracPower)
    requires n > 0
    ensures x != 0.0 ==> IntPow(x, n) != 0.0 &&
                         Apply(Pow, x, -(n as real), frac) == Value(1.0 / IntPow(x, n))
    ensures x == 0.0 ==> Apply(Pow, x, -(n as real), frac) == Raised(NegativePowerOfZero)
  {
    NegatedNatural(n);
  }

  lemma NegatedNatural(n: nat)
    ensures (-(n as real)).Floor == -(n as int)
    ensures IsIntegral(-(n as real))
  {
  }
}
