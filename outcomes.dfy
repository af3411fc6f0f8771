/**
 * Failure values and the result type shared by every evaluator of the
 * refractive-index engine. Each constructor of `Error` stands for one way in
 * which refractiveIndex.py raises.
 */
module Outcomes {

  datatype Option<+T> = None | Some(value: T)

  datatype Error =
    /** a list was indexed past its end (Python IndexError) */
    | IndexError
    /** int() of a formula type token that is not an integer literal (ValueError) */
    | NotAnInteger
    /** numpy.min / numpy.max over an empty list of wavelengths (ValueError) */
    | NoSamples
    /** interp1d refused its samples: lengths differ, or fewer than two (ValueError) */
    | InterpolationRejected
    /** an evaluator constructed with the keyword arguments of the other kind (TypeError) */
    | UnexpectedArguments
    /** a float division by zero, or 0.0 raised to a negative power (ZeroDivisionError) */
    | ZeroDivision
    /** 'Bad RefractiveIndex data type' from setupRefractiveIndex */
    | BadDataType(formula: int)
    /** 'Wavelength ... is out of bounds', wavelength and range in micrometres */
    | OutOfBounds(wavelength: real, rangeMin: real, rangeMax: real)
    /** FormulaNotImplemented, for the formula ids 4, 7, 8 and 9 */
    | FormulaNotImplemented(formula: int)
    /** 'Bad formula type', for any formula id outside 1..9 */
    | BadFormulaType(formula: int)
    /** 'No refractive index specified for this material' */
    | NoRefractiveIndex
    /** NoExtinctionCoefficient */
    | NoExtinctionCoefficient

  datatype Result<+T> = Ok(value: T) | Err(error: Error)

  /**
   * The floating-point primitives the dispersion formulas call and that this
   * model leaves uninterpreted: numpy.sqrt and `**` with a real exponent.
   * Every evaluation takes them as a parameter, so whatever is proved holds
   * for any choice of the two.
   */
  datatype Numerics = Numerics(sqrt: real -> real, pow: (real, real) -> real)
}
