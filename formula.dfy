/**
 * FormulaRefractiveIndexData: a closed-form dispersion formula identified by
 * its formula id, its coefficients and its valid wavelength range in
 * micrometres. Queries take a wavelength in nanometres.
 */
module Formula {
  import opened Outcomes

  datatype FormulaData = FormulaData(formula: int, rangeMin: real, rangeMax: real, coefficients: seq<real>)

  /** The formula families that are evaluated as a sum over coefficient pairs. */
  datatype Family = Sellmeier | Sellmeier2 | Polynomial | Cauchy | Gases

  /** The family of an implemented formula id: 1, 2, 3, 5 and 6. */
  function FamilyOf(formula: int): Option<Family>
  {
    if formula == 1 then Some(Sellmeier)
    else if formula == 2 then Some(Sellmeier2)
    else if formula == 3 then Some(Polynomial)
    else if formula == 5 then Some(Cauchy)
    else if formula == 6 then Some(Gases)
    else None
  }

  /** Formula ids the code recognises and refuses as not yet implemented. */
  predicate Unimplemented(formula: int)
  {
    formula == 4 || formula == 7 || formula == 8 || formula == 9
  }

  /** Sellmeier, Sellmeier-2 and the polynomial give n squared; the code takes its root. */
  predicate TakesRoot(f: Family)
  {
    f == Sellmeier || f == Sellmeier2 || f == Polynomial
  }

  /** The value the sum starts from: 1 + c0, or c0 alone for the polynomial and Cauchy. */
  function Leading(f: Family, c0: real): real
  {
    match f
    case Sellmeier => 1.0 + c0
    case Sellmeier2 => 1.0 + c0
    case Polynomial => c0
    case Cauchy => c0
    case Gases => 1.0 + c0
  }

  /**
   * The term g(c1, c2, w) each family adds for one coefficient pair; a zero
   * denominator, and 0.0 raised to the power -2, fail as ZeroDivisionError.
   */
  function Term(pow: (real, real) -> real, f: Family, c1: real, c2: real, w: real): Result<real>
  {
    match f
    case Sellmeier =>
      var d := w * w - c2 * c2;
      if d == 0.0 then Err(ZeroDivision) else Ok(c1 * (w * w) / d)
    case Sellmeier2 =>
      var d := w * w - c2;
      if d == 0.0 then Err(ZeroDivision) else Ok(c1 * (w * w) / d)
    case Polynomial => Ok(c1 * pow(w, c2))
    case Cauchy => Ok(c1 * pow(w, c2))
    case Gases =>
      if w == 0.0 then Err(ZeroDivision)
      else
        var d := c2 - 1.0 / (w * w);
        if d == 0.0 then Err(ZeroDivision) else Ok(c1 / d)
  }

  /** Adds a to a successful sum and passes a failure on. */
  function Shift(a: real, r: Result<real>): Result<real>
  {
    match r
    case Ok(v) => Ok(a + v)
    case Err(e) => Err(e)
  }

  /** Applies g to a successful value and passes a failure on. */
  function MapOk(g: real -> real, r: Result<real>): Result<real>
  {
    match r
    case Ok(v) => Ok(g(v))
    case Err(e) => Err(e)
  }

  /**
   * The sum of the terms for the pairs (c[i], c[i+1]), (c[i+2], c[i+3]), ...
   * A lone last coefficient has no partner and fails with IndexError; the
   * first failing pair, from the left, decides the error.
   */
  function SeriesSum(pow: (real, real) -> real, f: Family, c: seq<real>, w: real, i: nat): (r: Result<real>)
    ensures r.Err? ==> r.error == IndexError || r.error == ZeroDivision
    decreases |c| - i
  {
    if i >= |c| then Ok(0.0)
    else if i + 1 >= |c| then Err(IndexError)
    else
      match Term(pow, f, c[i], c[i + 1], w)
      case Err(e) => Err(e)
      case Ok(t) => Shift(t, SeriesSum(pow, f, c, w, i + 2))
  }

  /**
   * The refractive index the formula evaluator returns for a wavelength in
   * nanometres: the range check comes first, then the dispatch on the id.
   */
  function Dispersion(num: Numerics, d: FormulaData, wavelength: real): Result<real>
  {
    var w := wavelength / 1000.0;
    if !(d.rangeMin <= w <= d.rangeMax) then Err(OutOfBounds(w, d.rangeMin, d.rangeMax))
    else
      match FamilyOf(d.formula)
      case None =>
        if Unimplemented(d.formula) then Err(FormulaNotImplemented(d.formula))
        else Err(BadFormulaType(d.formula))
      case Some(f) =>
        var c := d.coefficients;
        if |c| == 0 then Err(IndexError)
        else
          var sum := Shift(Leading(f, c[0]), SeriesSum(num.pow, f, c, w, 1));
          if TakesRoot(f) then MapOk(num.sqrt, sum) else sum
  }

  /**
   * FormulaRefractiveIndexData.getRefractiveIndex: converts to micrometres,
   * checks the range and accumulates the sum pair by pair.
   */
  method GetRefractiveIndex(num: Numerics, d: FormulaData, wavelength: real) returns (r: Result<real>)
    ensures r == Dispersion(num, d, wavelength)
  {
    var w := wavelength / 1000.0;
    if !(d.rangeMin <= w <= d.rangeMax) {
      return Err(OutOfBounds(w, d.rangeMin, d.rangeMax));
    }
    var family := FamilyOf(d.formula);
    if family.None? {
      if Unimplemented(d.formula) {
        r := Err(FormulaNotImplemented(d.formula));
      } else {
        r := Err(BadFormulaType(d.formula));
      }
      return;
    }
    var f := family.value;
    var c := d.coefficients;
    if |c| == 0 {
      return Err(IndexError);
    }
    var acc := Leading(f, c[0]);
    var i := 1;
    while i < |c|
      invariant 1 <= i
      invariant Shift(acc, SeriesSum(num.pow, f, c, w, i)) == Shift(Leading(f, c[0]), SeriesSum(num.pow, f, c, w, 1))
      decreases |c| - i
    {
      if i + 1 >= |c| {
        return Err(IndexError);
      }
      var t := Term(num.pow, f, c[i], c[i + 1], w);
      if t.Err? {
        return Err(t.error);
      }
      acc := acc + t.value;
      i := i + 2;
    }
    if TakesRoot(f) {
      r := Ok(num.sqrt(acc));
    } else {
      r := Ok(acc);
    }
  }

  /** The pairs from i on have nonzero denominators. */
  ghost predicate NoPoles(pow: (real, real) -> real, f: Family, c: seq<real>, w: real, i: nat)
  {
    forall j :: i <= j && j + 1 < |c| && (j - i) % 2 == 0 ==> Term(pow, f, c[j], c[j + 1], w).Ok?
  }

  /**
   * The sum from i on is defined exactly when the coefficients from i on
   * come in whole pairs and no pair hits a pole.
   */
  lemma {:induction false} SeriesDefined(pow: (real, real) -> real, f: Family, c: seq<real>, w: real, i: nat)
    requires i <= |c|
    ensures SeriesSum(pow, f, c, w, i).Ok? <==> (|c| - i) % 2 == 0 && NoPoles(pow, f, c, w, i)
    decreases |c| - i
  {
    if i == |c| {
    } else if i + 1 == |c| {
    } else {
      var t := Term(pow, f, c[i], c[i + 1], w);
      if t.Ok? {
        SeriesDefined(pow, f, c, w, i + 2);
        if NoPoles(pow, f, c, w, i + 2) {
          forall j | i <= j && j + 1 < |c| && (j - i) % 2 == 0
            ensures Term(pow, f, c[j], c[j + 1], w).Ok?
          {
            if j != i {
              assert (j - (i + 2)) % 2 == 0;
            }
          }
        }
        if NoPoles(pow, f, c, w, i) {
          forall j | i + 2 <= j && j + 1 < |c| && (j - (i + 2)) % 2 == 0
            ensures Term(pow, f, c[j], c[j + 1], w).Ok?
          {
            assert (j - i) % 2 == 0;
          }
        }
      }
    }
  }

  /** The polynomial and Cauchy terms never fail, so their sums can only fail on an unpaired coefficient. */
  lemma {:induction false} PowerSeriesErrors(pow: (real, real) -> real, f: Family, c: seq<real>, w: real, i: nat)
    requires f == Polynomial || f == Cauchy
    ensures SeriesSum(pow, f, c, w, i).Err? ==> SeriesSum(pow, f, c, w, i).error == IndexError
    decreases |c| - i
  {
    if i + 1 < |c| {
      PowerSeriesErrors(pow, f, c, w, i + 2);
    }
  }

  /** The polynomial and Cauchy sums have no poles: they fail only on an unpaired coefficient. */
  lemma PowerSeriesParity(pow: (real, real) -> real, f: Family, c: seq<real>, w: real)
    requires f == Polynomial || f == Cauchy
    requires 1 <= |c|
    ensures SeriesSum(pow, f, c, w, 1).Ok? <==> |c| % 2 == 1
    ensures SeriesSum(pow, f, c, w, 1).Err? ==> SeriesSum(pow, f, c, w, 1).error == IndexError
  {
    SeriesDefined(pow, f, c, w, 1);
    PowerSeriesErrors(pow, f, c, w, 1);
    assert NoPoles(pow, f, c, w, 1);
  }

  /**
   * The range check: the evaluator fails with OutOfBounds exactly when the
   * wavelength in micrometres lies outside [rangeMin, rangeMax], both ends
   * included, whatever the formula id and coefficients.
   */
  lemma RangeCheck(num: Numerics, d: FormulaData, wavelength: real)
    ensures var w := wavelength / 1000.0;
      Dispersion(num, d, wavelength) == Err(OutOfBounds(w, d.rangeMin, d.rangeMax))
      <==> !(d.rangeMin <= w <= d.rangeMax)
    ensures var w := wavelength / 1000.0;
      (Dispersion(num, d, wavelength).Err? && Dispersion(num, d, wavelength).error.OutOfBounds?)
      <==> !(d.rangeMin <= w <= d.rangeMax)
  {
    var w := wavelength / 1000.0;
    if d.rangeMin <= w <= d.rangeMax && FamilyOf(d.formula).Some? && |d.coefficients| > 0 {
      var f := FamilyOf(d.formula).value;
      var sum := Shift(Leading(f, d.coefficients[0]), SeriesSum(num.pow, f, d.coefficients, w, 1));
      assert sum.Err? ==> !sum.error.OutOfBounds?;
    }
  }

  /**
   * Formula ids dispatch: inside the range, ids 4, 7, 8 and 9 always fail as
   * not implemented and any id outside 1..9 (0 among them) as a bad formula
   * type, whatever the coefficients; ids 1, 2, 3, 5 and 6 never fail that way.
   */
  lemma FormulaIdDispatch(num: Numerics, d: FormulaData, wavelength: real)
    requires d.rangeMin <= wavelength / 1000.0 <= d.rangeMax
    ensures Unimplemented(d.formula) ==> Dispersion(num, d, wavelength) == Err(FormulaNotImplemented(d.formula))
    ensures !(1 <= d.formula <= 9) ==> Dispersion(num, d, wavelength) == Err(BadFormulaType(d.formula))
    ensures Dispersion(num, d, wavelength).Err? ==>
      (Dispersion(num, d, wavelength).error.FormulaNotImplemented? <==> Unimplemented(d.formula))
    ensures Dispersion(num, d, wavelength).Err? ==>
      (Dispersion(num, d, wavelength).error.BadFormulaType? <==> !(1 <= d.formula <= 9))
  {
    var w := wavelength / 1000.0;
    if FamilyOf(d.formula).Some? && |d.coefficients| > 0 {
      var f := FamilyOf(d.formula).value;
      var sum := Shift(Leading(f, d.coefficients[0]), SeriesSum(num.pow, f, d.coefficients, w, 1));
      assert sum.Err? ==> sum.error == IndexError || sum.error == ZeroDivision;
    }
  }

  /**
   * Formulas 1, 2 and 3 return the square root of the value the same formula
   * gives when the root is taken to be the identity; formulas 5 and 6 take no
   * root at all, so their value does not depend on numpy.sqrt.
   */
  lemma RootStructure(num: Numerics, sqrt: real -> real, d: FormulaData, wavelength: real)
    ensures 1 <= d.formula <= 3 ==>
      Dispersion(num, d, wavelength) == MapOk(num.sqrt, Dispersion(num.(sqrt := x => x), d, wavelength))
    ensures d.formula == 5 || d.formula == 6 ==>
      Dispersion(num.(sqrt := sqrt), d, wavelength) == Dispersion(num, d, wavelength)
  {
  }

  /**
   * Sellmeier (1) squares the second coefficient of each pair and Sellmeier-2
   * (2) does not: with coefficients [0, 1, 0.5] at 1000 nm the first gives
   * sqrt(1 + 1/(1 - 0.25)) = sqrt(7/3) and the second sqrt(1 + 1/(1 - 0.5)) = sqrt(3).
   */
  lemma SellmeierExamples(num: Numerics)
    ensures Dispersion(num, FormulaData(1, 0.2, 2.0, [0.0, 1.0, 0.5]), 1000.0) == Ok(num.sqrt(7.0 / 3.0))
    ensures Dispersion(num, FormulaData(2, 0.2, 2.0, [0.0, 1.0, 0.5]), 1000.0) == Ok(num.sqrt(3.0))
  {
    var c := [0.0, 1.0, 0.5];
    assert SeriesSum(num.pow, Sellmeier, c, 1.0, 3) == Ok(0.0);
    assert SeriesSum(num.pow, Sellmeier, c, 1.0, 1) == Ok(4.0 / 3.0);
    assert SeriesSum(num.pow, Sellmeier2, c, 1.0, 3) == Ok(0.0);
    assert SeriesSum(num.pow, Sellmeier2, c, 1.0, 1) == Ok(2.0);
  }

  /**
   * The polynomial (3) starts from c0 with no leading 1 and takes the root:
   * coefficients [2, 3, 2] at 1000 nm give sqrt(2 + 3 * 1^2) = sqrt(5) when
   * `**` gives 1^2 = 1.
   */
  lemma PolynomialExample(num: Numerics)
    requires num.pow(1.0, 2.0) == 1.0
    ensures Dispersion(num, FormulaData(3, 0.2, 2.0, [2.0, 3.0, 2.0]), 1000.0) == Ok(num.sqrt(5.0))
  {
    var c := [2.0, 3.0, 2.0];
    assert SeriesSum(num.pow, Polynomial, c, 1.0, 3) == Ok(0.0);
    assert SeriesSum(num.pow, Polynomial, c, 1.0, 1) == Ok(3.0);
  }

  /**
   * Cauchy (5) with coefficients [1.5, 0.01, -2] at 500 nm: 1.5 + 0.01 * 0.5^-2,
   * which is 1.54 when `**` gives 0.5^-2 = 4.
   */
  lemma CauchyExample(num: Numerics)
    requires num.pow(0.5, -2.0) == 4.0
    ensures Dispersion(num, FormulaData(5, 0.2, 2.0, [1.5, 0.01, -2.0]), 500.0) == Ok(1.54)
  {
    var c := [1.5, 0.01, -2.0];
    assert SeriesSum(num.pow, Cauchy, c, 0.5, 3) == Ok(0.0);
    assert SeriesSum(num.pow, Cauchy, c, 0.5, 1) == Ok(0.04);
  }

  /** Gases (6) with coefficients [0, 1, 2] at 1000 nm: 1 + 0 + 1/(2 - 1) = 2. */
  lemma GasesExample(num: Numerics)
    ensures Dispersion(num, FormulaData(6, 0.2, 2.0, [0.0, 1.0, 2.0]), 1000.0) == Ok(2.0)
  {
    var c := [0.0, 1.0, 2.0];
    assert Term(num.pow, Gases, c[1], c[2], 1.0) == Ok(1.0);
    assert SeriesSum(num.pow, Gases, c, 1.0, 3) == Ok(0.0);
    assert SeriesSum(num.pow, Gases, c, 1.0, 1) == Ok(1.0);
  }

  /** Gases (6) at its pole: coefficients [0, 1, 1] at 1000 nm divide by 1 - 1/1 = 0. */
  lemma GasesPole(num: Numerics)
    ensures Dispersion(num, FormulaData(6, 0.2, 2.0, [0.0, 1.0, 1.0]), 1000.0) == Err(ZeroDivision)
  {
    var c := [0.0, 1.0, 1.0];
    assert Term(num.pow, Gases, c[1], c[2], 1.0) == Err(ZeroDivision);
    assert SeriesSum(num.pow, Gases, c, 1.0, 1) == Err(ZeroDivision);
  }
}
