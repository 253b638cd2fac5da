/**
 * `CalculatorTool.calculate` and `get_supported_functions`. The expression
 * is cleaned and validated; only a valid expression reaches
 * `_evaluate_expression`, whose call to Python's `eval` is an interpreter
 * passed in as a parameter. Each outcome becomes a `CalculationResult` with a
 * fixed label and message.
 */
module Calculator {
  import opened Text
  import opened Envelope
  import opened ExpressionFormat
  import Operators
  import Scientific
  import ExpressionExamples

  /** A Python value `eval` can return, as far as `_evaluate_expression` tells them apart. */
  datatype PyValue = PyFloat(f: real) | PyInt(i: int) | PyOther

  /** The exception classes `_evaluate_expression` treats differently. */
  datatype ExceptionKind = SyntaxError | NameError | ZeroDivisionError | OtherException

  /** What `eval(expression, {"__builtins__": {}}, {})` does: return a value or raise. */
  datatype EvalOutcome = Returned(value: PyValue) | Threw(kind: ExceptionKind, message: string)

  /** Python's `eval` with no built-ins, as seen by the calculator. */
  type Interpreter = string -> EvalOutcome

  /** What `_evaluate_expression` does: a float, `None`, or an exception it lets through. */
  datatype Evaluation = Produced(value: real) | NoNumber | Escaped(message: string)

  /** The classes named by `_evaluate_expression`'s `except` clause. */
  predicate Caught(kind: ExceptionKind) {
    kind == SyntaxError || kind == NameError || kind == ZeroDivisionError
  }

  /** `_evaluate_expression`: evaluate, keep numbers, turn three exception classes into `None`. */
  function EvaluateExpression(expression: string, eval: Interpreter): (r: Evaluation)
    ensures r.Escaped? ==> eval(Replace(expression, '^', "**")).Threw? &&
                           !Caught(eval(Replace(expression, '^', "**")).kind)
  {
    var outcome := eval(Replace(expression, '^', "**"));
    match outcome
    case Returned(PyFloat(x)) => Produced(x)
    case Returned(PyInt(n)) => Produced(n as real)
    case Returned(PyOther) => NoNumber
    case Threw(kind, message) =>
      if Caught(kind) then NoNumber else Escaped(message)
  }

  const ValidationMessage: string := "Invalid expression format"
  const NoResultMessage: string := "Division by zero or invalid operation"

  /** `calculate(expression)`, the clock reading given as `timestamp`. */
  function Calculate(expression: string, eval: Interpreter, timestamp: string): (r: CalculationResult)
    ensures Consistent(r) && r.expression == expression && r.timestamp == timestamp
    ensures r.operation == "validation" || r.operation == "calculation"
  {
    var clean := Clean(expression);
    if !Validate(clean) then
      Failure(expression, "validation", timestamp, ValidationMessage)
    else
      match EvaluateExpression(clean, eval)
      case Produced(x) => Success(expression, x, "calculation", timestamp)
      case NoNumber => Failure(expression, "calculation", timestamp, NoResultMessage)
      case Escaped(m) => Failure(expression, "calculation", timestamp, m)
  }

  /**
   * An expression that fails validation once cleaned is refused with the
   * validation label and message, and the interpreter is never consulted.
   */
  lemma InvalidNeverEvaluated(expression: string, eval1: Interpreter, eval2: Interpreter, timestamp: string)
    requires !Validate(Clean(expression))
    ensures Calculate(expression, eval1, timestamp) == Calculate(expression, eval2, timestamp)
    ensures var r := Calculate(expression, eval1, timestamp);
      !r.success && r.operation == "validation" && r.errorMessage == ValidationMessage
  {
  }

  /** Whatever reaches the interpreter has no `^` left, so the second `^` rewrite changes nothing. */
  lemma SecondRewriteIsIdentity(expression: string)
    ensures Replace(Clean(expression), '^', "**") == Clean(expression)
  {
    CleanOutputAlphabet(expression);
  }

  /**
   * Every power or floor division is refused at validation: written with
   * `**`, with `//`, or with `^` (which cleaning turns into `**`).
   */
  lemma PowerAndFloorDivisionRefused(expression: string, eval: Interpreter, timestamp: string)
    requires '^' in expression ||
             (exists i: nat :: OccursAt(Clean(expression), "**", i) || OccursAt(Clean(expression), "//", i))
    ensures var r := Calculate(expression, eval, timestamp);
      !r.success && r.operation == "validation" && r.errorMessage == ValidationMessage
  {
    if '^' in expression {
      CaretInputRejected(expression);
    } else {
      var i: nat :| OccursAt(Clean(expression), "**", i) || OccursAt(Clean(expression), "//", i);
      DoubleOperatorRejected(Clean(expression), i);
    }
  }

  /** A valid expression is handed to the interpreter exactly as cleaned. */
  lemma ValidExpressionEvaluated(expression: string, eval: Interpreter, timestamp: string)
    requires Validate(Clean(expression))
    ensures var r := Calculate(expression, eval, timestamp);
      var o := eval(Clean(expression));
      r.operation == "calculation" &&
      (o.Returned? && o.value.PyFloat? ==> r.success && r.result == Number(o.value.f)) &&
      (o.Returned? && o.value.PyInt? ==> r.success && r.result == Number(o.value.i as real)) &&
      (o.Returned? && o.value.PyOther? ==> !r.success && r.errorMessage == NoResultMessage) &&
      (o.Threw? && Caught(o.kind) ==> !r.success && r.errorMessage == NoResultMessage) &&
      (o.Threw? && !Caught(o.kind) ==> !r.success && r.errorMessage == o.message)
  {
    SecondRewriteIsIdentity(expression);
  }

  /** A division by zero inside the interpreter is reported with the fixed message, not as an exception. */
  lemma DivisionByZeroReported(expression: string, eval: Interpreter, timestamp: string)
    requires Validate(Clean(expression))
    requires eval(Clean(expression)).Threw? && eval(Clean(expression)).kind == ZeroDivisionError
    ensures var r := Calculate(expression, eval, timestamp);
      !r.success && r.result == Blank && r.operation == "calculation" && r.errorMessage == NoResultMessage
  {
    ValidExpressionEvaluated(expression, eval, timestamp);
  }

  /** Every failure has an empty result, and a message unless an exception with empty text escaped. */
  lemma FailureHasMessage(expression: string, eval: Interpreter, timestamp: string)
    requires forall s :: eval(s).Threw? ==> eval(s).message != ""
    ensures var r := Calculate(expression, eval, timestamp);
      !r.success ==> r.result == Blank && r.errorMessage != ""
  {
  }

  /** The usage script's power and floor division examples are refused at validation. */
  lemma ScriptExamplesRefused(eval: Interpreter, timestamp: string)
    ensures Calculate("2 ** 8", eval, timestamp).operation == "validation"
    ensures Calculate("20 // 3", eval, timestamp).operation == "validation"
    ensures Calculate("2 + + 3", eval, timestamp).errorMessage == ValidationMessage
  {
    ExpressionExamples.CleanScriptPower();
    ExpressionExamples.ScriptPowerRejected();
    ExpressionExamples.CleanScriptFloorDivision();
    ExpressionExamples.ScriptFloorDivisionRejected();
    ExpressionExamples.CleanRepeatedPlus();
    ExpressionExamples.RepeatedPlusRejected();
  }

  /** The three texts of `get_supported_functions`. */
  datatype Supported = Supported(basic: string, scientific: string, units: string)

  const BasicOperators: string := "+, -, *, /, **, %, //"

  /** The advertised lists are the operator table's and the dispatch table's keys, in order. */
  function SupportedFunctions(): (r: Supported)
    ensures r.basic == Join(Operators.Symbols, ", ")
    ensures r.scientific == Join(Scientific.Names, ", ")
  {
    BasicListsOperatorTable();
    Supported(
      BasicOperators,
      Join(Scientific.Names, ", "),
      "Temperature (C, F, K), Length (m, ft, km, mi), Weight (kg, lbs)")
  }

  /** The advertised basic operators are the operator table's keys, in its order. */
  lemma BasicListsOperatorTable()
    ensures BasicOperators == Join(Operators.Symbols, ", ")
  {
    var s := Operators.Symbols;
    assert s[1..] == ["-", "*", "/", "**", "%", "//"];
    assert s[1..][1..][1..] == ["/", "**", "%", "//"];
    JoinOperatorTail();
  }

  // The last four operator symbols, joined.
  lemma JoinOperatorTail()
    ensures Join(["/", "**", "%", "//"], ", ") == "/, **, %, //"
  {
    var t: seq<string> := ["/", "**", "%", "//"];
    assert t[1..][1..][1..] == ["//"];
  }

  /** The advertised scientific names are exactly those the dispatcher accepts. */
  lemma ScientificListIsDispatchTable(name: string)
    ensures Scientific.Lookup(name).Some? <==> name in Scientific.Names
  {
  }
}
