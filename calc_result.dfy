/**
 * `CalculationResult`, the record every calculator entry point returns, and
 * the two ways the entry points build it.
 */
module Envelope {

  /** Python's `str(value)`, used where a float is printed into the `expression` or `operation` text. */
  type Show = real -> string

  /** The `result` field: `""` on failure, a number on success. */
  datatype Payload = Blank | Number(value: real)

  datatype CalculationResult = CalculationResult(
    expression: string,
    result: Payload,
    operation: string,
    timestamp: string,
    success: bool,
    errorMessage: string)

  /** A failed call: `result=""`, `success=False` and the given message. */
  function Failure(expression: string, operation: string, timestamp: string, message: string): (r: CalculationResult)
    ensures Consistent(r) && !r.success
  {
    CalculationResult(expression, Blank, operation, timestamp, false, message)
  }

  /** A successful call: the number, `success=True` and the default empty message. */
  function Success(expression: string, value: real, operation: string, timestamp: string): (r: CalculationResult)
    ensures Consistent(r) && r.success
  {
    CalculationResult(expression, Number(value), operation, timestamp, true, "")
  }

  /** What every entry point guarantees: a number exactly on success, a message only on failure. */
  predicate Consistent(r: CalculationResult) {
    (r.success <==> r.result.Number?) && (r.success ==> r.errorMessage == "")
  }
}
