/**
 * `unit_conversion`: both unit names are lower-cased and matched against
 * fixed alias lists; the first of ten directional rules whose source and
 * target both match is applied and the result is rounded to six decimal
 * places. There is no chaining: a pair without its own rule fails.
 */
module Units {
  import opened Wrappers
  import opened Text
  import opened Numeric
  import opened Envelope

  datatype Unit = Celsius | Fahrenheit | Kelvin | Meters | Feet | Kilometers | Miles | Kilograms | Pounds

  /** The alias list a unit name is matched against (after lower-casing). */
  function Aliases(u: Unit): seq<string> {
    match u
    case Celsius => ["c", "celsius"]
    case Fahrenheit => ["f", "fahrenheit"]
    case Kelvin => ["k", "kelvin"]
    case Meters => ["m", "meters"]
    case Feet => ["ft", "feet"]
    case Kilometers => ["km", "kilometers"]
    case Miles => ["mi", "miles"]
    case Kilograms => ["kg", "kilograms"]
    case Pounds => ["lbs", "pounds"]
  }

  /** The unit a lower-cased name is an alias of, if any. */
  function UnitOf(name: string): (r: Option<Unit>)
    ensures r.Some? ==> name in Aliases(r.value)
    ensures r.None? ==> forall u: Unit :: name !in Aliases(u)
  {
    if name in Aliases(Celsius) then Some(Celsius)
    else if name in Aliases(Fahrenheit) then Some(Fahrenheit)
    else if name in Aliases(Kelvin) then Some(Kelvin)
    else if name in Aliases(Meters) then Some(Meters)
    else if name in Aliases(Feet) then Some(Feet)
    else if name in Aliases(Kilometers) then Some(Kilometers)
    else if name in Aliases(Miles) then Some(Miles)
    else if name in Aliases(Kilograms) then Some(Kilograms)
    else if name in Aliases(Pounds) then Some(Pounds)
    else None
  }

  /** No name is an alias of two units. */
  lemma AliasesDisjoint(name: string, u: Unit, v: Unit)
    requires name in Aliases(u) && name in Aliases(v)
    ensures u == v
  {
  }

  /** The ten branches of the source's `if`/`elif` chain. */
  datatype Rule = CToF | FToC | CToK | KToC | MToFt | FtToM | KmToMi | MiToKm | KgToLbs | LbsToKg

  /** The branches in the order the chain tries them. */
  const Rules: seq<Rule> := [CToF, FToC, CToK, KToC, MToFt, FtToM, KmToMi, MiToKm, KgToLbs, LbsToKg]

  function Source(r: Rule): Unit {
    match r
    case CToF => Celsius  case FToC => Fahrenheit
    case CToK => Celsius  case KToC => Kelvin
    case MToFt => Meters  case FtToM => Feet
    case KmToMi => Kilometers  case MiToKm => Miles
    case KgToLbs => Kilograms  case LbsToKg => Pounds
  }

  function Target(r: Rule): Unit {
    match r
    case CToF => Fahrenheit  case FToC => Celsius
    case CToK => Kelvin  case KToC => Celsius
    case MToFt => Feet  case FtToM => Meters
    case KmToMi => Miles  case MiToKm => Kilometers
    case KgToLbs => Pounds  case LbsToKg => Kilograms
  }

  /** The formula of each branch, with the source's constants. */
  function Convert(r: Rule, v: real): real {
    match r
    case CToF => (v * 9.0 / 5.0) + 32.0
    case FToC => (v - 32.0) * 5.0 / 9.0
    case CToK => v + 273.15
    case KToC => v - 273.15
    case MToFt => v * 3.28084
    case FtToM => v / 3.28084
    case KmToMi => v * 0.621371
    case MiToKm => v / 0.621371
    case KgToLbs => v * 2.20462
    case LbsToKg => v / 2.20462
  }

  /** The `operation` text of each branch. */
  function Description(r: Rule, shown: string): string {
    match r
    case CToF => "Temperature conversion: " + shown + "°C to °F"
    case FToC => "Temperature conversion: " + shown + "°F to °C"
    case CToK => "Temperature conversion: " + shown + "°C to K"
    case KToC => "Temperature conversion: " + shown + "K to °C"
    case MToFt => "Length conversion: " + shown + "m to ft"
    case FtToM => "Length conversion: " + shown + "ft to m"
    case KmToMi => "Length conversion: " + shown + "km to mi"
    case MiToKm => "Length conversion: " + shown + "mi to km"
    case KgToLbs => "Weight conversion: " + shown + "kg to lbs"
    case LbsToKg => "Weight conversion: " + shown + "lbs to kg"
  }

  /** A branch's condition: both lower-cased names are in its alias lists. */
  predicate Matches(r: Rule, fromUnit: string, toUnit: string) {
    Lower(fromUnit) in Aliases(Source(r)) && Lower(toUnit) in Aliases(Target(r))
  }

  /** The first branch in `rules` whose condition holds. */
  function FirstMatch(rules: seq<Rule>, fromUnit: string, toUnit: string): (r: Option<Rule>)
    ensures r.Some? ==> r.value in rules && Matches(r.value, fromUnit, toUnit)
    ensures r.None? ==> forall q :: q in rules ==> !Matches(q, fromUnit, toUnit)
  {
    if rules == [] then None
    else if Matches(rules[0], fromUnit, toUnit) then Some(rules[0])
    else FirstMatch(rules[1..], fromUnit, toUnit)
  }

  const Operation: string := "unit_conversion"

  /** `unit_conversion(value, from_unit, to_unit)`, the clock reading given as `timestamp`. */
  function UnitConversion(value: real, fromUnit: string, toUnit: string, show: Show, timestamp: string): (r: CalculationResult)
    ensures Consistent(r) && r.timestamp == timestamp
    ensures r.expression == show(value) + " " + fromUnit + " to " + toUnit
  {
    var expr := show(value) + " " + fromUnit + " to " + toUnit;
    match FirstMatch(Rules, fromUnit, toUnit)
    case None => Failure(expr, Operation, timestamp, "Unsupported conversion: " + fromUnit + " to " + toUnit)
    case Some(rule) => Success(expr, Round6(Convert(rule, value)), Description(rule, show(value)), timestamp)
  }

  /** Each registered pair of units has exactly one branch. */
  lemma RuleDeterminedByUnits(q: Rule, r: Rule)
    requires Source(q) == Source(r) && Target(q) == Target(r)
    ensures q == r
  {
  }

  /**
   * The alias lists are disjoint, so at most one branch matches and "first
   * match" is "the match": a conversion takes branch `r` exactly when `r`'s
   * condition holds.
   */
  lemma FirstMatchIsOnlyMatch(r: Rule, fromUnit: string, toUnit: string)
    ensures FirstMatch(Rules, fromUnit, toUnit) == Some(r) <==> Matches(r, fromUnit, toUnit)
  {
    var m := FirstMatch(Rules, fromUnit, toUnit);
    if Matches(r, fromUnit, toUnit) {
      assert r in Rules;
      assert m.Some?;
      AliasesDisjoint(Lower(fromUnit), Source(m.value), Source(r));
      AliasesDisjoint(Lower(toUnit), Target(m.value), Target(r));
      RuleDeterminedByUnits(m.value, r);
    }
  }

  /** The branch registered for a pair of units, if there is one. */
  function PairRule(s: Unit, t: Unit): (r: Option<Rule>)
    ensures r.Some? ==> Source(r.value) == s && Target(r.value) == t
  {
    match (s, t)
    case (Celsius, Fahrenheit) => Some(CToF)
    case (Fahrenheit, Celsius) => Some(FToC)
    case (Celsius, Kelvin) => Some(CToK)
    case (Kelvin, Celsius) => Some(KToC)
    case (Meters, Feet) => Some(MToFt)
    case (Feet, Meters) => Some(FtToM)
    case (Kilometers, Miles) => Some(KmToMi)
    case (Miles, Kilometers) => Some(MiToKm)
    case (Kilograms, Pounds) => Some(KgToLbs)
    case (Pounds, Kilograms) => Some(LbsToKg)
    case _ => None
  }

  /** The branch a pair of unit names selects, found through the units they name. */
  function Selected(fromUnit: string, toUnit: string): Option<Rule> {
    match (UnitOf(Lower(fromUnit)), UnitOf(Lower(toUnit)))
    case (Some(s), Some(t)) => PairRule(s, t)
    case _ => None
  }

  /** A branch's condition holds exactly when the two names name its two units. */
  lemma MatchesIffUnits(r: Rule, fromUnit: string, toUnit: string)
    ensures Matches(r, fromUnit, toUnit) <==>
      UnitOf(Lower(fromUnit)) == Some(Source(r)) && UnitOf(Lower(toUnit)) == Some(Target(r))
  {
    if Matches(r, fromUnit, toUnit) {
      AliasesDisjoint(Lower(fromUnit), UnitOf(Lower(fromUnit)).value, Source(r));
      AliasesDisjoint(Lower(toUnit), UnitOf(Lower(toUnit)).value, Target(r));
    }
  }

  /** Every branch is registered under its own pair of units. */
  lemma PairRuleOfRule(q: Rule)
    ensures PairRule(Source(q), Target(q)) == Some(q)
  {
  }

  /** The `if`/`elif` chain takes the branch registered for the two named units. */
  lemma FirstMatchIsSelected(fromUnit: string, toUnit: string)
    ensures FirstMatch(Rules, fromUnit, toUnit) == Selected(fromUnit, toUnit)
  {
    var sel := Selected(fromUnit, toUnit);
    if sel.Some? {
      MatchesIffUnits(sel.value, fromUnit, toUnit);
      FirstMatchIsOnlyMatch(sel.value, fromUnit, toUnit);
    } else {
      NothingMatches(fromUnit, toUnit);
    }
  }

  lemma NothingMatches(fromUnit: string, toUnit: string)
    requires Selected(fromUnit, toUnit).None?
    ensures forall q :: q in Rules ==> !Matches(q, fromUnit, toUnit)
  {
    forall q | q in Rules
      ensures !Matches(q, fromUnit, toUnit)
    {
      MatchesIffUnits(q, fromUnit, toUnit);
      PairRuleOfRule(q);
    }
  }

  /**
   * A conversion succeeds exactly when the two names select a branch; it then
   * gives that branch's formula rounded to six places and its description, and
   * otherwise fails naming both units as given.
   */
  lemma ConversionOutcome(value: real, fromUnit: string, toUnit: string, show: Show, timestamp: string)
    ensures var res := UnitConversion(value, fromUnit, toUnit, show, timestamp);
      var sel := Selected(fromUnit, toUnit);
      (res.success <==> sel.Some?) &&
      (sel.Some? ==> res.result == Number(Round6(Convert(sel.value, value))) &&
                     res.operation == Description(sel.value, show(value))) &&
      (sel.None? ==> res.operation == Operation &&
                     res.errorMessage == "Unsupported conversion: " + fromUnit + " to " + toUnit)
  {
    FirstMatchIsSelected(fromUnit, toUnit);
  }

  /** Unit names are compared without regard to case; only the echoed texts keep the caller's spelling. */
  lemma CaseInsensitive(value: real, fromUnit: string, toUnit: string, show: Show, timestamp: string)
    ensures var a := UnitConversion(value, fromUnit, toUnit, show, timestamp);
      var b := UnitConversion(value, Lower(fromUnit), Lower(toUnit), show, timestamp);
      a.success == b.success && a.result == b.result && a.operation == b.operation
  {
    LowerIdempotent(fromUnit);
    LowerIdempotent(toUnit);
    ConversionOutcome(value, fromUnit, toUnit, show, timestamp);
    ConversionOutcome(value, Lower(fromUnit), Lower(toUnit), show, timestamp);
  }

  /** No chaining through Celsius: Fahrenheit to Kelvin is unsupported, ... */
  lemma NoChaining(value: real, show: Show, timestamp: string)
    ensures UnitConversion(value, "F", "K", show, timestamp).errorMessage == "Unsupported conversion: F to K"
  {
    assert Lower("F") == "f" && Lower("K") == "k";
    assert Selected("F", "K") == None;
    ConversionOutcome(value, "F", "K", show, timestamp);
    assert "Unsupported conversion: " + "F" + " to " + "K" == "Unsupported conversion: F to K";
  }

  /** ... and so is Kelvin to Fahrenheit. */
  lemma NoChainingBack(value: real, show: Show, timestamp: string)
    ensures !UnitConversion(value, "kelvin", "fahrenheit", show, timestamp).success
  {
    assert Lower("kelvin") == "kelvin" && Lower("fahrenheit") == "fahrenheit";
    assert Selected("kelvin", "fahrenheit") == None;
    ConversionOutcome(value, "kelvin", "fahrenheit", show, timestamp);
  }

  /** Metres and kilometres are not related by any rule. */
  lemma NoMetricLengthRule(value: real, show: Show, timestamp: string)
    ensures !UnitConversion(value, "m", "km", show, timestamp).success
  {
    assert Lower("m") == "m" && Lower("km") == "km";
    assert Selected("m", "km") == None;
    ConversionOutcome(value, "m", "km", show, timestamp);
  }

  /** Converting a unit to itself fails for every unit and every pair of its aliases. */
  lemma SameUnitUnsupported(u: Unit, a: string, b: string, value: real, show: Show, timestamp: string)
    requires Lower(a) in Aliases(u) && Lower(b) in Aliases(u)
    ensures !UnitConversion(value, a, b, show, timestamp).success
  {
    AliasesDisjoint(Lower(a), UnitOf(Lower(a)).value, u);
    AliasesDisjoint(Lower(b), UnitOf(Lower(b)).value, u);
    ConversionOutcome(value, a, b, show, timestamp);
  }

  /** The branch for the opposite direction. */
  function Reverse(r: Rule): (q: Rule)
    ensures Source(q) == Target(r) && Target(q) == Source(r)
  {
    match r
    case CToF => FToC  case FToC => CToF
    case CToK => KToC  case KToC => CToK
    case MToFt => FtToM  case FtToM => MToFt
    case KmToMi => MiToKm  case MiToKm => KmToMi
    case KgToLbs => LbsToKg  case LbsToKg => KgToLbs
  }

  /** Every branch's reverse is registered: a supported pair is supported both ways. */
  lemma ReverseSupported(r: Rule, fromUnit: string, toUnit: string)
    requires Selected(fromUnit, toUnit) == Some(r)
    ensures Matches(Reverse(r), toUnit, fromUnit)
    ensures Selected(toUnit, fromUnit) == Some(Reverse(r))
  {
    MatchesIffUnits(r, fromUnit, toUnit);
    MatchesIffUnits(Reverse(r), toUnit, fromUnit);
  }

  /** Before rounding, the reverse formula undoes each formula exactly. */
  lemma ReverseIsInverse(r: Rule, v: real)
    ensures Convert(Reverse(r), Convert(r, v)) == v
  {
  }

  /** How much each formula stretches differences: all ten are affine. */
  function Slope(r: Rule): (k: real)
    ensures k > 0.0
  {
    match r
    case CToF => 9.0 / 5.0
    case FToC => 5.0 / 9.0
    case CToK => 1.0
    case KToC => 1.0
    case MToFt => 3.28084
    case FtToM => 1.0 / 3.28084
    case KmToMi => 0.621371
    case MiToKm => 1.0 / 0.621371
    case KgToLbs => 2.20462
    case LbsToKg => 1.0 / 2.20462
  }

  lemma ConvertAffine(r: Rule, a: real, b: real)
    ensures Convert(r, a) - Convert(r, b) == Slope(r) * (a - b)
  {
  }

  /**
   * Converting and converting back, with the six-place rounding after each
   * step, lands within half a millionth times (1 + the reverse slope) of the
   * start value.
   */
  lemma RoundTripError(r: Rule, fromUnit: string, toUnit: string, v: real, show: Show, timestamp: string)
    requires Selected(fromUnit, toUnit) == Some(r)
    ensures var there := UnitConversion(v, fromUnit, toUnit, show, timestamp);
      there.success &&
      var back := UnitConversion(there.result.value, toUnit, fromUnit, show, timestamp);
      back.success &&
      -0.0000005 * (1.0 + Slope(Reverse(r))) <= back.result.value - v <= 0.0000005 * (1.0 + Slope(Reverse(r)))
  {
    ConversionOutcome(v, fromUnit, toUnit, show, timestamp);
    var y := Round6(Convert(r, v));
    ReverseSupported(r, fromUnit, toUnit);
    ConversionOutcome(y, toUnit, fromUnit, show, timestamp);
    RoundedRoundTrip(r, v);
  }

  /** The arithmetic of a round trip: two roundings, the second one's error scaled by the reverse slope. */
  lemma RoundedRoundTrip(r: Rule, v: real)
    ensures var z := Round6(Convert(Reverse(r), Round6(Convert(r, v))));
      -0.0000005 * (1.0 + Slope(Reverse(r))) <= z - v <= 0.0000005 * (1.0 + Slope(Reverse(r)))
  {
    var x := Convert(r, v);
    var w := Convert(Reverse(r), Round6(x));
    ConvertAffine(Reverse(r), Round6(x), x);
    ReverseIsInverse(r, v);
    RoundTwice(v, x, w, Slope(Reverse(r)));
  }

  /** Rounding `x`, moving by `k` times that rounding error, and rounding again stays near `v`. */
  lemma RoundTwice(v: real, x: real, w: real, k: real)
    requires k > 0.0 && w - v == k * (Round6(x) - x)
    ensures -0.0000005 * (1.0 + k) <= Round6(w) - v <= 0.0000005 * (1.0 + k)
  {
    Round6Error(x);
    Round6Error(w);
    CombinedError(Round6(x) - x, Round6(w) - w, w - v, k);
  }

  /** Two rounding errors, the first stretched by `k`, add up to at most (1 + k) half-millionths. */
  lemma CombinedError(e1: real, e2: real, d: real, k: real)
    requires k > 0.0 && d == k * e1
    requires -0.0000005 <= e1 <= 0.0000005 && -0.0000005 <= e2 <= 0.0000005
    ensures -0.0000005 * (1.0 + k) <= d + e2 <= 0.0000005 * (1.0 + k)
  {
    ScaledError(k, e1);
  }

  lemma ScaledError(k: real, e: real)
    requires k > 0.0 && -0.0000005 <= e <= 0.0000005
    ensures -0.0000005 * k <= k * e <= 0.0000005 * k
  {
  }

  /** Celsius to Fahrenheit and back stays within a millionth. */
  lemma CelsiusRoundTrip(v: real, show: Show, timestamp: string)
    ensures var there := UnitConversion(v, "C", "F", show, timestamp);
      there.success &&
      var back := UnitConversion(there.result.value, "F", "C", show, timestamp);
      back.success && -0.000001 <= back.result.value - v <= 0.000001
  {
    assert Lower("C") == "c" && Lower("F") == "f";
    assert Selected("C", "F") == Some(CToF);
    RoundTripError(CToF, "C", "F", v, show, timestamp);
  }

  /** Water freezes at 32 °F. */
  lemma FreezingPoint(show: Show, timestamp: string)
    ensures UnitConversion(0.0, "C", "F", show, timestamp).result == Number(32.0)
  {
    assert Lower("C") == "c" && Lower("F") == "f";
    assert Selected("C", "F") == Some(CToF);
    ConversionOutcome(0.0, "C", "F", show, timestamp);
    Round6OnGrid(32000000);
  }

  /** Water boils at 212 °F. */
  lemma BoilingPoint(show: Show, timestamp: string)
    ensures UnitConversion(100.0, "C", "F", show, timestamp).result == Number(212.0)
  {
    assert Lower("C") == "c" && Lower("F") == "f";
    assert Selected("C", "F") == Some(CToF);
    ConversionOutcome(100.0, "C", "F", show, timestamp);
    Round6OnGrid(212000000);
  }

  /** The usage script's 25 °C, named in mixed case, is 77 °F. */
  lemma ScriptTemperature(show: Show, timestamp: string)
    ensures UnitConversion(25.0, "celsius", "Fahrenheit", show, timestamp).result == Number(77.0)
  {
    assert Lower("celsius") == "celsius" && Lower("Fahrenheit") == "fahrenheit";
    assert Selected("celsius", "Fahrenheit") == Some(CToF);
    ConversionOutcome(25.0, "celsius", "Fahrenheit", show, timestamp);
    Round6OnGrid(77000000);
  }

  /** Water boils at 373.15 K. */
  lemma BoilingPointKelvin(show: Show, timestamp: string)
    ensures UnitConversion(100.0, "C", "K", show, timestamp).result == Number(373.15)
  {
    assert Lower("C") == "c" && Lower("K") == "k";
    assert Selected("C", "K") == Some(CToK);
    ConversionOutcome(100.0, "C", "K", show, timestamp);
    Round6OnGrid(373150000);
  }
}
