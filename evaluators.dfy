/**
 * RefractiveIndexData: the factory that picks the refractive-index evaluator
 * for a formula id, and the call that forwards a query to the evaluator it
 * picked.
 */
module Evaluators {
  import opened Outcomes
  import opened Formula
  import opened Tabulated

  /** A refractive-index evaluator: a dispersion formula or tabulated samples. */
  datatype RefractiveIndexData = FormulaBased(formula: FormulaData) | TabulatedBased(tabulated: TabulatedN)
  {
    ghost predicate Valid()
    {
      TabulatedBased? ==> tabulated.Valid()
    }
  }

  /** The keyword arguments handed to setupRefractiveIndex, which it forwards to the evaluator. */
  datatype SetupArgs =
    | TabulatedArgs(wavelengths: seq<real>, values: seq<real>)
    | FormulaArgs(rangeMin: real, rangeMax: real, coefficients: seq<real>)

  /** The samples, if any, are ones the model can interpolate. */
  predicate InterpolableArgs(args: SetupArgs)
  {
    args.TabulatedArgs? ==> Interpolable(args.wavelengths)
  }

  /**
   * RefractiveIndexData.setupRefractiveIndex: ids from 0 up build a formula
   * evaluator, -1 a tabulated one, anything else is refused. An evaluator
   * handed the other kind's keyword arguments raises TypeError.
   */
  function SetupRefractiveIndex(formula: int, args: SetupArgs): (r: Result<RefractiveIndexData>)
    requires InterpolableArgs(args)
    ensures r.Ok? ==> r.value.Valid()
  {
    if formula >= 0 then
      match args
      case FormulaArgs(lo, hi, c) => Ok(FormulaBased(FormulaData(formula, lo, hi, c)))
      case TabulatedArgs(_, _) => Err(UnexpectedArguments)
    else if formula == -1 then
      match args
      case TabulatedArgs(xs, ys) =>
        (match SetupTabulatedN(xs, ys)
         case Ok(t) => Ok(TabulatedBased(t))
         case Err(e) => Err(e))
      case FormulaArgs(_, _, _) => Err(UnexpectedArguments)
    else Err(BadDataType(formula))
  }

  /**
   * Evaluator selection: a formula evaluator exactly for ids >= 0 with formula
   * arguments, carrying the id, range and coefficients unchanged; a tabulated
   * evaluator only for -1 with samples; ids below -1 are always refused.
   */
  lemma EvaluatorSelection(formula: int, args: SetupArgs)
    requires InterpolableArgs(args)
    ensures var r := SetupRefractiveIndex(formula, args);
      (r.Ok? && r.value.FormulaBased?) <==> (formula >= 0 && args.FormulaArgs?)
    ensures var r := SetupRefractiveIndex(formula, args);
      r.Ok? && r.value.FormulaBased? ==>
        r.value.formula == FormulaData(formula, args.rangeMin, args.rangeMax, args.coefficients)
    ensures var r := SetupRefractiveIndex(formula, args);
      r.Ok? && r.value.TabulatedBased? ==> formula == -1 && args.TabulatedArgs?
    ensures formula < -1 ==> SetupRefractiveIndex(formula, args) == Err(BadDataType(formula))
    ensures formula == -1 && args.TabulatedArgs? ==>
      SetupRefractiveIndex(formula, args).Ok? == SetupTabulatedN(args.wavelengths, args.values).Ok?
  {
  }

  /**
   * Formula id 0 passes the factory, which only asks for a non-negative id,
   * and then fails at every in-range query as a bad formula type.
   */
  lemma FormulaZeroAcceptedThenRefused(num: Numerics, lo: real, hi: real, c: seq<real>, wavelength: real)
    requires lo <= wavelength / 1000.0 <= hi
    ensures SetupRefractiveIndex(0, FormulaArgs(lo, hi, c)).Ok?
    ensures Dispersion(num, SetupRefractiveIndex(0, FormulaArgs(lo, hi, c)).value.formula, wavelength)
      == Err(BadFormulaType(0))
  {
    FormulaIdDispatch(num, FormulaData(0, lo, hi, c), wavelength);
  }

  /** What an evaluator returns for a wavelength in nanometres. */
  function RefractiveIndexAt(num: Numerics, d: RefractiveIndexData, wavelength: real): Result<real>
    requires d.Valid()
  {
    match d
    case FormulaBased(f) => Dispersion(num, f, wavelength)
    case TabulatedBased(t) => TabulatedNAt(t, wavelength)
  }

  /** evaluator.getRefractiveIndex(wavelength), dispatched on the kind of evaluator. */
  method GetRefractiveIndex(num: Numerics, d: RefractiveIndexData, wavelength: real) returns (r: Result<real>)
    requires d.Valid()
    ensures r == RefractiveIndexAt(num, d, wavelength)
  {
    match d
    case FormulaBased(f) =>
      r := Formula.GetRefractiveIndex(num, f, wavelength);
    case TabulatedBased(t) =>
      r := TabulatedNAt(t, wavelength);
  }
}
