/**
  JavaScript numbers and the result formatter.  Rounding, overflow and the
  decimal conversions of IEEE-754 doubles are not modelled: they are the
  operations of a `FloatLib`, which the calculator receives as a parameter.
  The guards the calculator applies to numbers (`=== 0`, `< 0`, `isFinite`,
  `Number.isInteger`, the magnitude thresholds) are modelled exactly.
 */
module Numbers {
  import opened Text

  /**
    A number.  Finite values are reals; the two zeros coincide, which changes
    no text: `String(-0)` is "0", and the engine guards every division by a zero.
   */
  datatype Float = Finite(value: real) | Infinite(negative: bool) | NaN

  predicate IsFinite(x: Float) { x.Finite? }

  /** `x === 0` (true for both zeros, false for NaN). */
  predicate IsZero(x: Float) { x == Finite(0.0) }

  /** `x < 0` (false for NaN and for negative zero). */
  predicate IsNegative(x: Float) {
    (x.Finite? && x.value < 0.0) || x == Infinite(true)
  }

  /** `Number.isInteger(x)`. */
  predicate IsInteger(x: Float) {
    x.Finite? && x.value.Floor as real == x.value
  }

  function Abs(x: real): (r: real) { if x < 0.0 then -x else x }

  /** The number operations the engine calls and whose float behaviour is left abstract. */
  datatype FloatLib = FloatLib(
    parse: string -> Float,         // parseFloat
    show: Float -> string,          // String(n)
    exponential: Float -> string,   // n.toExponential(9)
    fixed: Float -> string,         // n.toFixed(9)
    add: (Float, Float) -> Float,
    sub: (Float, Float) -> Float,
    mul: (Float, Float) -> Float,
    div: (Float, Float) -> Float,
    sqrt: Float -> Float)           // Math.sqrt

  /**
    What the engine relies on about number texts, as JavaScript produces
    them ("12", "-0.5", "1e+21", "1.234567890e+15", "NaN", "Infinity"):
    they are display text and never the error sentinel.
   */
  ghost predicate WellBehaved(lib: FloatLib) {
    && (forall x :: IsDisplay(lib.show(x)) && lib.show(x) != ErrorText)
    && (forall x :: IsDisplay(lib.exponential(x)) && lib.exponential(x) != ErrorText)
  }

  /** Finite values shown in exponential notation: above 10^12 in magnitude, or nonzero below 10^-9. */
  predicate InExponentialRange(x: Float)
    requires IsFinite(x)
  {
    Abs(x.value) > 1000000000000.0 || (Abs(x.value) != 0.0 && Abs(x.value) < 0.000000001)
  }

  /**
    The display text of a computed result: "Error" for a non-finite value,
    exponential notation outside the fixed range, the integer's own text, or
    the value rounded to 9 decimals with trailing zeros dropped.
   */
  function FormatResult(lib: FloatLib, x: Float): (r: string)
    ensures !IsFinite(x) ==> r == ErrorText
    ensures IsFinite(x) && IsInteger(x) && !InExponentialRange(x) ==> r == lib.show(x)
  {
    if !IsFinite(x) then ErrorText
    else if InExponentialRange(x) then lib.exponential(x)
    else if IsInteger(x) then lib.show(x)
    else lib.show(lib.parse(lib.fixed(x)))
  }

  lemma FormatResultIsDisplay(lib: FloatLib, x: Float)
    requires WellBehaved(lib)
    ensures IsDisplay(FormatResult(lib, x))
  {
  }

  /** A formatted result is the error sentinel exactly when the value is not finite. */
  lemma FormatResultErrorIff(lib: FloatLib, x: Float)
    requires WellBehaved(lib)
    ensures FormatResult(lib, x) == ErrorText <==> !IsFinite(x)
  {
  }
}
