/**
 * `scientific_function`: look the name up in the function table, run the
 * three domain guards (square root, logarithm, factorial) in order, and only
 * then apply the function. `abs`, `floor`, `ceil`, `round` and `factorial`
 * are computed exactly; the transcendental functions and `sqrt` are a
 * floating-point library passed in as a parameter.
 */
module Scientific {
  import opened Wrappers
  import opened Numeric
  import opened Envelope

  datatype Function =
    | Sin | Cos | Tan | Asin | Acos | Atan | Sqrt | Log | Log10 | Exp
    | Abs | Floor | Ceil | Round | Factorial

  /** The key of each entry of the `functions` table. */
  function Name(f: Function): string {
    match f
    case Sin => "sin"
    case Cos => "cos"
    case Tan => "tan"
    case Asin => "asin"
    case Acos => "acos"
    case Atan => "atan"
    case Sqrt => "sqrt"
    case Log => "log"
    case Log10 => "log10"
    case Exp => "exp"
    case Abs => "abs"
    case Floor => "floor"
    case Ceil => "ceil"
    case Round => "round"
    case Factorial => "factorial"
  }

  /** The table's keys, in its insertion order. */
  const Names: seq<string> := [
    "sin", "cos", "tan", "asin", "acos", "atan", "sqrt", "log", "log10", "exp",
    "abs", "floor", "ceil", "round", "factorial"]

  /** `name in self.functions`, and the entry it selects. */
  function Lookup(name: string): (r: Option<Function>)
    ensures r.Some? <==> name in Names
    ensures r.Some? ==> Name(r.value) == name
  {
    if name == "sin" then Some(Sin)
    else if name == "cos" then Some(Cos)
    else if name == "tan" then Some(Tan)
    else if name == "asin" then Some(Asin)
    else if name == "acos" then Some(Acos)
    else if name == "atan" then Some(Atan)
    else if name == "sqrt" then Some(Sqrt)
    else if name == "log" then Some(Log)
    else if name == "log10" then Some(Log10)
    else if name == "exp" then Some(Exp)
    else if name == "abs" then Some(Abs)
    else if name == "floor" then Some(Floor)
    else if name == "ceil" then Some(Ceil)
    else if name == "round" then Some(Round)
    else if name == "factorial" then Some(Factorial)
    else None
  }

  /** Every entry is found under its own key, and the keys are distinct. */
  lemma LookupName(f: Function)
    ensures Lookup(Name(f)) == Some(f)
  {
  }

  /** What a library call gives back: a number, or the text of the exception it raised. */
  datatype Computed = Value(value: real) | Raised(message: string)

  /** The floating-point routines of Python's `math` module, for the functions not computed here. */
  type MathLibrary = (Function, real) -> Computed

  /** Python's `math.ceil`: the least integer not below `v`. */
  function Ceiling(v: real): (r: int)
    ensures v <= r as real < v + 1.0
  {
    -((-v).Floor)
  }

  /** Applying table entry `f` to `v`, as the entry's callable does. */
  function Call(f: Function, v: real, lib: MathLibrary): Computed {
    match f
    case Abs => Value(if v < 0.0 then -v else v)
    case Floor => Value(v.Floor as real)
    case Ceil => Value(Ceiling(v) as real)
    case Round => Value(RoundHalfEven(v) as real)
    case Factorial =>
      if v < 0.0 then Raised("factorial() not defined for negative values")
      else if !IsIntegral(v) then Raised("factorial() only accepts integral values")
      else Value(Numeric.Factorial(v.Floor) as real)
    case _ => lib(f, v)
  }

  const Operation: string := "scientific_function"
  const SqrtDomainMessage: string := "Cannot calculate square root of negative number"
  const LogDomainMessage: string := "Cannot calculate logarithm of non-positive number"
  const FactorialDomainMessage: string := "Factorial is only defined for non-negative integers"

  /** The `expression` field: `f"{function_name}({value})"`. */
  function Label(name: string, value: real, show: Show): string {
    name + "(" + show(value) + ")"
  }

  /** The domain guard that rejects `value` for `name`, in the order the source checks them. */
  function GuardMessage(name: string, value: real): Option<string> {
    if name == "sqrt" && value < 0.0 then Some(SqrtDomainMessage)
    else if name == "log" && value <= 0.0 then Some(LogDomainMessage)
    else if name == "factorial" && (value < 0.0 || value != Trunc(value) as real) then Some(FactorialDomainMessage)
    else None
  }

  /** `scientific_function(function_name, value)`, the clock reading given as `timestamp`. */
  function ScientificFunction(name: string, value: real, lib: MathLibrary, show: Show, timestamp: string): (r: CalculationResult)
    ensures Consistent(r)
    ensures r.operation == Operation && r.timestamp == timestamp
    ensures r.expression == Label(name, value, show)
  {
    var expr := Label(name, value, show);
    match Lookup(name)
    case None => Failure(expr, Operation, timestamp, "Unknown function: " + name)
    case Some(f) =>
      match GuardMessage(name, value)
      case Some(m) => Failure(expr, Operation, timestamp, m)
      case None =>
        match Call(f, value, lib)
        case Value(x) => Success(expr, x, Operation, timestamp)
        case Raised(m) => Failure(expr, Operation, timestamp, m)
  }

  /** A name outside the table fails with a message naming it, before anything is computed. */
  lemma UnknownFunction(name: string, value: real, lib: MathLibrary, show: Show, timestamp: string)
    requires name !in Names
    ensures var r := ScientificFunction(name, value, lib, show, timestamp);
      !r.success && r.errorMessage == "Unknown function: " + name
  {
  }

  /**
   * The guards, in order: a negative square root, a non-positive logarithm, a
   * negative or fractional factorial. Each fails with its own message whatever
   * the library would do, so the library is never reached.
   */
  lemma DomainGuards(name: string, value: real, lib1: MathLibrary, lib2: MathLibrary, show: Show, timestamp: string)
    requires name in Names
    ensures name == "sqrt" && value < 0.0 ==>
      ScientificFunction(name, value, lib1, show, timestamp) == Failure(Label(name, value, show), Operation, timestamp, SqrtDomainMessage)
    ensures name == "log" && value <= 0.0 ==>
      ScientificFunction(name, value, lib1, show, timestamp) == Failure(Label(name, value, show), Operation, timestamp, LogDomainMessage)
    ensures name == "factorial" && (value < 0.0 || !IsIntegral(value)) ==>
      ScientificFunction(name, value, lib1, show, timestamp) == Failure(Label(name, value, show), Operation, timestamp, FactorialDomainMessage)
    ensures GuardMessage(name, value).Some? ==>
      ScientificFunction(name, value, lib1, show, timestamp) == ScientificFunction(name, value, lib2, show, timestamp)
  {
    TruncDiffersIffFractional(value);
  }

  /** `factorial` of a natural number succeeds with the exact factorial. */
  lemma FactorialOfNatural(n: nat, lib: MathLibrary, show: Show, timestamp: string)
    ensures var r := ScientificFunction("factorial", n as real, lib, show, timestamp);
      r.success && r.result == Number(Numeric.Factorial(n) as real)
  {
    assert "factorial" in Names;
    assert Lookup("factorial") == Some(Factorial);
    TruncDiffersIffFractional(n as real);
    assert (n as real).Floor == n;
  }

  /** The examples: `factorial(5)` is 120; `factorial(-1)`, `factorial(2.5)` and `sqrt(-4)` fail. */
  lemma FactorialExamples(lib: MathLibrary, show: Show, timestamp: string)
    ensures ScientificFunction("factorial", 5.0, lib, show, timestamp).result == Number(120.0)
    ensures ScientificFunction("factorial", -1.0, lib, show, timestamp).errorMessage == FactorialDomainMessage
    ensures ScientificFunction("factorial", 2.5, lib, show, timestamp).errorMessage == FactorialDomainMessage
    ensures ScientificFunction("sqrt", -4.0, lib, show, timestamp).errorMessage == SqrtDomainMessage
  {
    FactorialOfNatural(5, lib, show, timestamp);
    assert Numeric.Factorial(5) == 120;
    assert "sqrt" in Names && "factorial" in Names;
    DomainGuards("factorial", -1.0, lib, lib, show, timestamp);
    DomainGuards("factorial", 2.5, lib, lib, show, timestamp);
    DomainGuards("sqrt", -4.0, lib, lib, show, timestamp);
  }

  /** `abs` always succeeds with the magnitude of its argument. */
  lemma AbsIsMagnitude(value: real, lib: MathLibrary, show: Show, timestamp: string)
    ensures var r := ScientificFunction("abs", value, lib, show, timestamp);
      r.success && r.result.value >= 0.0 && (r.result.value == value || r.result.value == -value)
  {
    assert Lookup("abs") == Some(Abs);
  }

  /** `floor` always succeeds with the greatest integer not above its argument. */
  lemma FloorBounds(value: real, lib: MathLibrary, show: Show, timestamp: string)
    ensures var r := ScientificFunction("floor", value, lib, show, timestamp);
      r.success && IsIntegral(r.result.value) && r.result.value <= value < r.result.value + 1.0
  {
    assert Lookup("floor") == Some(Floor);
  }

  /** `ceil` always succeeds with the least integer not below its argument. */
  lemma CeilBounds(value: real, lib: MathLibrary, show: Show, timestamp: string)
    ensures var r := ScientificFunction("ceil", value, lib, show, timestamp);
      r.success && IsIntegral(r.result.value) && r.result.value - 1.0 < value <= r.result.value
  {
    assert Lookup("ceil") == Some(Ceil);
  }

  /** `round` always succeeds with a nearest integer, ties going to the even one. */
  lemma RoundNearest(value: real, lib: MathLibrary, show: Show, timestamp: string)
    ensures var r := ScientificFunction("round", value, lib, show, timestamp);
      r.success && IsIntegral(r.result.value) && -0.5 <= r.result.value - value <= 0.5
  {
    assert Lookup("round") == Some(Round);
  }

  /**
   * Past the guards, a library function succeeds exactly when the library
   * returns a number, and its exception text becomes the error message.
   */
  lemma LibraryFunctions(name: string, value: real, lib: MathLibrary, show: Show, timestamp: string)
    requires name in Names && GuardMessage(name, value).None?
    requires Lookup(name).value !in {Abs, Floor, Ceil, Round, Factorial}
    ensures var r := ScientificFunction(name, value, lib, show, timestamp);
      var c := lib(Lookup(name).value, value);
      (r.success <==> c.Value?) &&
      (c.Value? ==> r.result == Number(c.value)) &&
      (c.Raised? ==> r.errorMessage == c.message)
  {
  }

  /** A failure always has a message unless the library raised an exception with empty text. */
  lemma FailureHasMessage(name: string, value: real, lib: MathLibrary, show: Show, timestamp: string)
    requires forall f, v :: lib(f, v).Raised? ==> lib(f, v).message != ""
    ensures var r := ScientificFunction(name, value, lib, show, timestamp);
      !r.success ==> r.result == Blank && r.errorMessage != ""
  {
  }
}
