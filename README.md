# Calculator and transcript-model core, in Dafny

This project models two tools of an MCP server.

**`CalculatorTool`** (`src/core/tools/calculator.py`) has three operations:

- `calculate` cleans an arithmetic expression. It removes whitespace and rewrites `×`, `÷` and `^`.
- It then validates the cleaned text: balanced parenthesis counts, a fixed character set, and no run of two operator characters.
- Only a valid expression goes to Python's `eval`. The outcome is wrapped in a `CalculationResult` envelope with a fixed label and message.
- `scientific_function` dispatches over a table of fifteen functions, after three domain guards.
- `unit_conversion` follows a chain of ten case-insensitive unit-pair branches, and rounds the result to six decimals.
- `get_supported_functions` lists what is offered.

**`YouTubeTranscriptTool`** (`src/core/tools/youtube_transcript.py`) is modelled only for its model-selection state:

- the table of Whisper sizes;
- `change_model`;
- the lazy-load guard of `load_whisper_model`;
- the arithmetic of `estimate_processing_time`;
- the ten-minute gate of `get_transcript_mcp`.

Its state is a `class` (`Transcript.TranscriptTool`) with `modelSize` and `whisperModel` fields. Its invariant says that a cached model was always loaded for the current size.

Modules, one concept each:

| module | file | contents |
|---|---|---|
| `Text` | `text.dfy` | ASCII `lower()`, `count`, `replace`, `join`, substring occurrence |
| `Numeric` | `numeric.dfy` | truncation (`int()`), half-even rounding (`round`), `round(x, 6)`, factorial, integer powers |
| `Envelope` | `calc_result.dfy` | the `CalculationResult` record and its success/failure shapes |
| `ExpressionFormat` | `calc_expression.dfy` | `_clean_expression` and `_validate_expression` |
| `ExpressionExamples` | `calc_expression.dfy` | the usage script's expressions, cleaned and validated |
| `Operators` | `calc_operators.dfy` | the `operations` table with Python's float `/`, `%`, `//` and `**` |
| `Scientific` | `calc_scientific.dfy` | the `functions` table and `scientific_function` |
| `Units` | `calc_units.dfy` | `unit_conversion` |
| `Calculator` | `calculator.dfy` | `_evaluate_expression`, `calculate`, `get_supported_functions` |
| `Transcript` | `youtube_transcript.dfy` | the model table, `TranscriptTool`, estimates and the duration gate |

Collaborators the code cannot see are parameters:

- Python's `eval` is `Calculator.Interpreter`.
- The `math` functions without an exact counterpart are `Scientific.MathLibrary`.
- `str(float)` is `Show`.
- The clock reading is `timestamp`.
- The transcript pipeline is `Transcript.Pipeline`. It carries what the download, `whisper.load_model` and the recogniser returned or raised, and the elapsed time.
- The video lookup is `Transcript.VideoInfo`.

Floats are `real`. Python's floor division, remainder, `int()` and `round` are written out with their own rounding rules.

Some behaviour of the code differs from what the tool advertises. The model follows the code:

- **Power and floor division are never computed.**
  - `get_supported_functions` lists `**` and `//`, and `_evaluate_expression` rewrites `^` to `**`.
  - But `_validate_expression` rejects every run of two operator characters, and `^` is already `**` once cleaned.
  - So every power and every floor division is refused with "Invalid expression format". This includes the usage script's `"2 ** 8"` and `"20 // 3"` (`Calculator.PowerAndFloorDivisionRefused`, `Calculator.ScriptExamplesRefused`).
- **The `operations` table is never consulted by `calculate`.** It is modelled (`Operators`) and its keys are shown to be the advertised basic list.
- **Unit conversions do not chain.** Fahrenheit↔kelvin and metre↔kilometre have no branch and are reported as unsupported.
- **Parenthesis validation only compares counts.** `")("` passes.
- **`get_transcript_mcp` checks the duration only when the lookup succeeded.** A failed lookup goes on to download and transcribe.
  - A lookup with no duration (`None`) makes `duration > 600` raise. The result is "Failed to process video: …".
- **`get_transcript` fills `video_title` with the recognised text, not the video title.**

## Model

| member | source | states |
|---|---|---|
| Envelope.Failure | src/core/tools/calculator.py:7-15 | every failure envelope keeps the record's invariant (a number exactly on success, no message on success) and has `success` false |
| Envelope.Success | src/core/tools/calculator.py:7-15 | every success envelope keeps the record's invariant and has `success` true |
| Text.Lower | src/core/tools/calculator.py:195 | `str.lower()` keeps the length and lowers each ASCII capital, position by position |
| Text.LowerIdempotent | src/core/tools/calculator.py:195 | lowering twice is lowering once |
| Text.Replace | src/core/tools/calculator.py:263 | `str.replace` of one character removes every occurrence when the replacement lacks it, and introduces nothing but the replacement |
| Text.ReplaceAppend | src/core/tools/calculator.py:263 | replacing distributes over concatenation |
| Text.Count | src/core/tools/calculator.py:269 | `str.count` of a character is zero exactly when the character is absent |
| Text.Join | src/core/tools/calculator.py:310 | `", ".join` of nothing is empty; otherwise its length is the parts' total plus one separator between each pair, and it starts with the first part |
| ExpressionFormat.RemoveWhitespace | src/core/tools/calculator.py:261 | removing `\s+` never lengthens the text |
| ExpressionFormat.RemoveWhitespaceAlphabet | src/core/tools/calculator.py:261 | a character survives exactly when it was present and is not whitespace |
| ExpressionFormat.RemoveWhitespaceCons | src/core/tools/calculator.py:261 | whitespace removal works character by character |
| ExpressionFormat.Clean | src/core/tools/calculator.py:258-264 | no contract of its own; `CleanIsCharwise`, `CleanOutputAlphabet` and `CleanCounts` state what it does |
| ExpressionFormat.CleanIsCharwise | src/core/tools/calculator.py:258-264 | the three chained replacements equal a per-character rewrite (reference definition `CleanEach`) |
| ExpressionFormat.CleanOutputAlphabet | src/core/tools/calculator.py:258-264 | a cleaned expression has no whitespace, `×`, `÷` or `^`, and every character came from the input or is `*` or `/` |
| ExpressionFormat.CleanCounts | src/core/tools/calculator.py:258-264 | cleaning makes `*` count = `*` + `×` + 2·`^`, `/` count = `/` + `÷`, and leaves both parenthesis counts unchanged |
| ExpressionFormat.Validate | src/core/tools/calculator.py:266-281 | no contract of its own; it is the three checks in order, with the operator check written as the `{2,}` pattern (`HasOperatorRun`); `ValidateFailsIff` states what it accepts |
| ExpressionFormat.OperatorRunIffAdjacent | src/core/tools/calculator.py:277-279 | the pattern `[+\-*/^%]{2,}` finds a match exactly when two operator characters stand next to each other |
| ExpressionFormat.ValidateFailsIff | src/core/tools/calculator.py:266-281 | validation fails exactly when the parenthesis counts differ, a character is outside `0123456789+-*/.()^%`, or two operator characters are adjacent (the pattern match, by `OperatorRunIffAdjacent`) |
| ExpressionFormat.DoubleOperatorRejected | src/core/tools/calculator.py:277-279 | any text containing `**` or `//` is rejected |
| ExpressionFormat.CaretInputRejected | src/core/tools/calculator.py:258-281 | any input with `^` is rejected after cleaning |
| ExpressionFormat.CleanedAndValidated | src/core/tools/calculator.py:258-281 | an accepted cleaned expression uses only digits, `+-*/.()%`, has balanced counts and no two adjacent operator characters |
| ExpressionExamples.UnnestedParenthesesAccepted | src/core/tools/calculator.py:268-270 | `)(` passes, since only the counts are compared |
| ExpressionExamples.CleanPlainArithmetic | src/core/tools/calculator.py:258-264 | `"2 + 3 * 4"` cleans to `"2+3*4"` |
| ExpressionExamples.PlainArithmeticAccepted | src/core/tools/calculator.py:266-281 | `"2+3*4"` is valid |
| ExpressionExamples.CleanScriptPower | example_calculator_usage.py:30 | `"2 ** 8"` cleans to `"2**8"` |
| ExpressionExamples.ScriptPowerRejected | src/core/tools/calculator.py:277-279 | `"2**8"` is invalid |
| ExpressionExamples.CleanScriptFloorDivision | example_calculator_usage.py:32 | `"20 // 3"` cleans to `"20//3"` |
| ExpressionExamples.ScriptFloorDivisionRejected | src/core/tools/calculator.py:277-279 | `"20//3"` is invalid |
| ExpressionExamples.CleanRepeatedPlus | example_calculator_usage.py:87 | `"2 + + 3"` cleans to `"2++3"` |
| ExpressionExamples.RepeatedPlusRejected | src/core/tools/calculator.py:277-279 | `"2++3"` is invalid |
| Operators.Lookup | src/core/tools/calculator.py:23-31 | a symbol is found exactly when it is one of the seven keys, and the found operator has that symbol |
| Operators.Apply | src/core/tools/calculator.py:23-31 | no contract of its own; `NoValueIffZeroDivisor`, `DivisionValue`, `RingOperationsTotal`, `PowerExponentsAdd` and `PowerNegativeExponent` state what the entries give |
| Operators.Power | src/core/tools/calculator.py:28 | no contract of its own; `PowerExponentsAdd` and `PowerNegativeExponent` state it for whole exponents |
| Operators.FloorQuotient | src/core/tools/calculator.py:30 | no contract of its own; `FloorDivisionIdentity` states it |
| Operators.Remainder | src/core/tools/calculator.py:29 | no contract of its own; `FloorDivisionIdentity` and `RemainderSignExamples` state it |
| Operators.LookupSymbol | src/core/tools/calculator.py:23-31 | every operator is found under its own symbol |
| Operators.NoValueIffZeroDivisor | src/core/tools/calculator.py:27-31 | an entry gives `None` exactly when it is `/`, `%` or `//` and the divisor is zero |
| Operators.DivisionValue | src/core/tools/calculator.py:27-31 | with a nonzero divisor the division entries give a value, and `/` gives the exact quotient |
| Operators.RingOperationsTotal | src/core/tools/calculator.py:24-26 | `+`, `-` and `*` always give a value |
| Operators.FloorDivisionIdentity | src/core/tools/calculator.py:29-30 | `x // y` is integral, `x == y*(x//y) + x%y`, and the remainder has the divisor's sign and is smaller in size |
| Operators.RemainderSignExamples | src/core/tools/calculator.py:29-30 | `-7 % 2 == 1`, `-7 // 2 == -4`, `7 % -2 == -1`, `7 // -2 == -4` |
| Operators.PowerExponentsAdd | src/core/tools/calculator.py:28 | `**` with natural exponents is repeated multiplication, and exponents add |
| Operators.PowerNegativeExponent | src/core/tools/calculator.py:28 | `x ** -n` is `1 / x**n` for nonzero `x`, and raises for zero |
| Numeric.Trunc | src/core/tools/calculator.py:151 | `int(x)` truncates toward zero |
| Numeric.TruncDiffersIffFractional | src/core/tools/calculator.py:151 | `value != int(value)` holds exactly when the value is not integral |
| Numeric.RoundHalfEven | src/core/tools/calculator.py:48 | `round` lands within one half, and a tie goes to the even neighbour |
| Numeric.Round6 | src/core/tools/calculator.py:242 | no contract of its own; `Round6Error` and `Round6OnGrid` state it |
| Numeric.Round6Error | src/core/tools/calculator.py:242 | `round(x, 6)` is within 5·10⁻⁷ of `x` |
| Numeric.Round6OnGrid | src/core/tools/calculator.py:242 | `round(x, 6)` leaves a multiple of 10⁻⁶ unchanged |
| Numeric.Factorial | src/core/tools/calculator.py:49 | `math.factorial(n)` is at least 1 and at least `n` |
| Numeric.IntPow | src/core/tools/calculator.py:28 | `x ** 0` is 1, a nonzero base gives a nonzero power, and zero to a positive power is zero |
| Numeric.IntPowAdd | src/core/tools/calculator.py:28 | integer powers add exponents |
| Scientific.Lookup | src/core/tools/calculator.py:34-50 | a name is found exactly when it is one of the fifteen keys, and the found function has that name |
| Scientific.LookupName | src/core/tools/calculator.py:34-50 | every function is found under its own name |
| Scientific.Call | src/core/tools/calculator.py:34-50 | no contract of its own; `AbsIsMagnitude`, `FloorBounds`, `CeilBounds`, `RoundNearest` and `FactorialOfNatural` state the exact entries, the others are the library's |
| Scientific.GuardMessage | src/core/tools/calculator.py:130-159 | no contract of its own; `DomainGuards` states which inputs each guard stops and with what message |
| Scientific.Ceiling | src/core/tools/calculator.py:47 | `math.ceil(v)` is the least integer not below `v` |
| Scientific.ScientificFunction | src/core/tools/calculator.py:108-179 | every result is a consistent envelope labelled `scientific_function`, with expression `name(value)` |
| Scientific.UnknownFunction | src/core/tools/calculator.py:119-127 | an unknown name fails with "Unknown function: name" |
| Scientific.DomainGuards | src/core/tools/calculator.py:130-159 | negative `sqrt`, non-positive `log`, and negative or fractional `factorial` fail with their messages, without calling the library |
| Scientific.FactorialOfNatural | src/core/tools/calculator.py:151-170 | factorial of a natural number succeeds with `n!` |
| Scientific.FactorialExamples | src/core/tools/calculator.py:130-170 | `factorial(5) = 120`; `factorial(-1)`, `factorial(2.5)`, `sqrt(-4)` fail with the guard messages |
| Scientific.AbsIsMagnitude | src/core/tools/calculator.py:45 | `abs` always succeeds with the magnitude of its argument |
| Scientific.FloorBounds | src/core/tools/calculator.py:46 | `floor` always succeeds with the greatest integer not above the argument |
| Scientific.CeilBounds | src/core/tools/calculator.py:47 | `ceil` always succeeds with the least integer not below the argument |
| Scientific.RoundNearest | src/core/tools/calculator.py:48 | `round` always succeeds with an integer within one half of the argument |
| Scientific.LibraryFunctions | src/core/tools/calculator.py:159-179 | past the guards, a library function's value or exception text becomes the envelope |
| Scientific.FailureHasMessage | src/core/tools/calculator.py:161-179 | every failure has an empty result and a message |
| Units.UnitOf | src/core/tools/calculator.py:195-226 | a name belongs to a unit's alias list exactly when that unit is found |
| Units.AliasesDisjoint | src/core/tools/calculator.py:195-226 | no name is an alias of two units |
| Units.Convert | src/core/tools/calculator.py:194-228 | no contract of its own; `Slope`, `ConvertAffine`, `ReverseIsInverse` and the temperature examples state it |
| Units.Description | src/core/tools/calculator.py:194-228 | no contract of its own; `ConversionOutcome` and `CaseInsensitive` state where it appears |
| Units.Matches | src/core/tools/calculator.py:194-228 | no contract of its own; `MatchesIffUnits` states it |
| Units.FirstMatch | src/core/tools/calculator.py:194-237 | the `elif` chain takes a rule that matches, and reports none only when no rule matches |
| Units.UnitConversion | src/core/tools/calculator.py:181-256 | every result is a consistent envelope whose expression is `value from to` |
| Units.RuleDeterminedByUnits | src/core/tools/calculator.py:194-226 | no two branches cover the same unit pair |
| Units.FirstMatchIsOnlyMatch | src/core/tools/calculator.py:194-226 | the branch taken is the only one whose condition holds |
| Units.PairRule | src/core/tools/calculator.py:194-226 | a unit pair with a branch maps to the branch with those units |
| Units.MatchesIffUnits | src/core/tools/calculator.py:194-226 | a branch's condition holds exactly when the lowered names denote its two units |
| Units.FirstMatchIsSelected | src/core/tools/calculator.py:194-237 | the chain picks the branch registered for the two named units |
| Units.ConversionOutcome | src/core/tools/calculator.py:194-246 | succeeds exactly when the pair has a branch, with the rounded conversion and its description, else fails with "Unsupported conversion: from to" |
| Units.CaseInsensitive | src/core/tools/calculator.py:194-226 | success, result and description do not depend on the case of the unit names |
| Units.NoChaining | src/core/tools/calculator.py:228-237 | F to K is unsupported |
| Units.NoChainingBack | src/core/tools/calculator.py:228-237 | kelvin to fahrenheit is unsupported |
| Units.NoMetricLengthRule | src/core/tools/calculator.py:228-237 | m to km is unsupported |
| Units.SameUnitUnsupported | src/core/tools/calculator.py:228-237 | converting a unit to itself is unsupported |
| Units.Reverse | src/core/tools/calculator.py:194-226 | every branch has a branch going the other way |
| Units.ReverseSupported | src/core/tools/calculator.py:194-226 | if a pair converts, the swapped pair converts by the reverse branch |
| Units.ReverseIsInverse | src/core/tools/calculator.py:194-226 | the reverse branch's formula undoes the forward one exactly |
| Units.Slope | src/core/tools/calculator.py:194-226 | every conversion is increasing |
| Units.ConvertAffine | src/core/tools/calculator.py:194-226 | every conversion is affine with that slope |
| Units.RoundTripError | src/core/tools/calculator.py:194-246 | converting there and back lands within 5·10⁻⁷·(1 + reverse slope) of the start |
| Units.RoundedRoundTrip | src/core/tools/calculator.py:242 | the same bound for the two roundings alone |
| Units.CelsiusRoundTrip | src/core/tools/calculator.py:196-201 | °C to °F and back is within 10⁻⁶ |
| Units.FreezingPoint | src/core/tools/calculator.py:195-197 | 0 °C converts to 32 °F |
| Units.BoilingPoint | src/core/tools/calculator.py:195-197 | 100 °C converts to 212 °F |
| Units.ScriptTemperature | src/core/tools/calculator.py:195-197 | 25 `celsius` to `Fahrenheit` gives 77 |
| Units.BoilingPointKelvin | src/core/tools/calculator.py:201-203 | 100 °C converts to 373.15 K |
| Calculator.EvaluateExpression | src/core/tools/calculator.py:283-299 | an exception escapes only when it is not a syntax, name or zero-division error |
| Calculator.Caught | src/core/tools/calculator.py:298 | no contract of its own; `EvaluateExpression` and `ValidExpressionEvaluated` state what happens to the three caught classes and to the rest |
| Calculator.Calculate | src/core/tools/calculator.py:52-106 | every result is a consistent envelope for the given expression, labelled `validation` or `calculation` |
| Calculator.InvalidNeverEvaluated | src/core/tools/calculator.py:64-75 | an invalid expression fails validation with "Invalid expression format" whatever the interpreter does |
| Calculator.SecondRewriteIsIdentity | src/core/tools/calculator.py:286-287 | the `^` rewrite in evaluation never changes a cleaned expression |
| Calculator.PowerAndFloorDivisionRefused | src/core/tools/calculator.py:258-281 | any input with `^`, or whose cleaned form has `**` or `//`, fails validation |
| Calculator.ValidExpressionEvaluated | src/core/tools/calculator.py:77-106 | a valid expression is evaluated as cleaned: a number succeeds, a non-number or caught exception gives the fixed message, any other exception its own text |
| Calculator.DivisionByZeroReported | src/core/tools/calculator.py:80-88 | a zero division in the interpreter gives "Division by zero or invalid operation" |
| Calculator.FailureHasMessage | src/core/tools/calculator.py:52-106 | every failure has an empty result and, when exceptions have text, a message |
| Calculator.ScriptExamplesRefused | example_calculator_usage.py:27-33 | the usage script's `2 ** 8` and `20 // 3` are refused at validation, like its invalid `2 + + 3` |
| Calculator.SupportedFunctions | src/core/tools/calculator.py:306-312 | the basic list is the operator table's keys and the scientific list the function table's keys, in order |
| Calculator.BasicListsOperatorTable | src/core/tools/calculator.py:23-31 | the advertised basic text joins exactly the operator table's keys |
| Calculator.ScientificListIsDispatchTable | src/core/tools/calculator.py:306-312 | a name is dispatched exactly when it is advertised |
| Transcript.SupportedLoader | src/core/tools/youtube_transcript.py:50-56 | a size has a loader name exactly when it is one of the five sizes |
| Transcript.SupportedLoaderIsTable | src/core/tools/youtube_transcript.py:50-56 | the lookup agrees with the table row by row |
| Transcript.LoaderName | src/core/tools/youtube_transcript.py:68 | no contract of its own; `LoaderNames` states it |
| Transcript.LoaderNames | src/core/tools/youtube_transcript.py:66-69 | `tiny` loads `tiny.en`, other sizes load themselves, and unknown sizes load `base` |
| Transcript.DurationGate | src/core/tools/youtube_transcript.py:222-231 | blocks exactly a successful lookup longer than 600 s, reporting minutes; proceeds on a failed lookup or a duration of at most 600 s |
| Transcript.Fastest | src/core/tools/youtube_transcript.py:272-273 | `min` by transcribe factor returns the first row with the smallest factor |
| Transcript.TimeRow | src/core/tools/youtube_transcript.py:257-263 | a size has a row exactly when it is supported |
| Transcript.FastestIsTiny | src/core/tools/youtube_transcript.py:257-273 | the fastest model is `tiny` |
| Transcript.EstimateProcessingTime | src/core/tools/youtube_transcript.py:247-292 | no contract of its own; `EstimateFormula` and `UnknownSizeEstimateFails` state it |
| Transcript.Recommendation | src/core/tools/youtube_transcript.py:286 | no contract of its own; `EstimateFormula` states which size is called optimal |
| Transcript.EstimateFormula | src/core/tools/youtube_transcript.py:265-286 | the estimate is `d·(0.1 + factor)`, the fastest is `tiny` at `0.6·d` and never slower, and `tiny` alone is called optimal |
| Transcript.UnknownSizeEstimateFails | src/core/tools/youtube_transcript.py:265-292 | an unsupported size makes the estimate fail |
| Transcript.TranscriptTool.constructor | src/core/tools/youtube_transcript.py:37-47 | stores the size unchecked, no model loaded, device `cuda` or `cpu` |
| Transcript.TranscriptTool.LoadWhisperModel | src/core/tools/youtube_transcript.py:62-74 | loads only when nothing is cached; a loader failure is re-raised and nothing is cached |
| Transcript.TranscriptTool.ChangeModel | src/core/tools/youtube_transcript.py:294-314 | an unsupported size is refused with the size list and nothing changes; a supported one replaces the size and drops the cached model |
| Transcript.TranscriptTool.GetTranscript | src/core/tools/youtube_transcript.py:144-190 | succeeds exactly when download, loading and recognition succeed, with the recognised text, language and confidence; a download, loader or recogniser failure each becomes a failed result with no text and that failure's message; a load happens only when nothing is cached |
| Transcript.TranscriptTool.GetTranscriptMcp | src/core/tools/youtube_transcript.py:217-245 | a video over ten minutes is refused before any download or load; otherwise it succeeds exactly when `get_transcript` would, its title equals the transcript, a success carries the recognised text, language and confidence, a failure has no text, language or confidence, and the cached model changes as in `get_transcript` |
| Transcript.ChangeThenLoad | src/core/tools/youtube_transcript.py:294-314 | after a supported change, the next load loads the new size's model |

## Left out

- `eval` is an abstract interpreter. Python's expression grammar and float arithmetic are not modelled.
- The bodies of `math.sin`, `cos`, `tan`, `asin`, `acos`, `atan`, `sqrt`, `log`, `log10` and `exp` are left out. They are an abstract library that may return a value or raise.
- Float is `real`:
  - no IEEE rounding;
  - no binary representation effects in `round(x, 6)`;
  - no overflow of `float(int)` or `math.factorial`;
  - no complex results of `**` with a fractional exponent. That case is an abstract function.
- Integer results are `real`. `floor`, `ceil`, `round`, `factorial` and an integer `eval` return Python `int`; the model keeps their value, not their type.
- `math.factorial` on an integral float is taken as accepted. Python 3.10+ raises `TypeError` for float arguments. Which one applies depends on the interpreter version, which is not part of this model.
- `str.lower()` is modelled for ASCII letters only.
- `str(float)` formatting is the parameter `Show`. `_get_timestamp` is the parameter `timestamp`.
- Transcript.EstimateProcessingTime: the `KeyError` text is the quoted key without Python's repr escaping.
- Transcript.DurationGate: the minutes of the too-long reply are the unformatted value `duration / 60`, not the `:.1f` text.
- `download_audio`, `transcribe_audio`'s call into Whisper, `get_video_info`, `get_device_info`, `cleanup_temp_files`, logging and stderr output are not modelled. They are I/O; their results enter as the `Pipeline` and `VideoInfo` inputs.
- `get_video_info`'s fields other than `duration` are left out; nothing in the modelled core reads them.
- `weather.py`, `tools.py` and `main.py` are not part of this model.
