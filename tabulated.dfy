/**
 * The two evaluators built from measured samples: TabulatedRefractiveIndexData
 * for n and ExtinctionCoefficientData for k. Both take a query in nanometres,
 * convert it to micrometres and never extrapolate.
 */
module Tabulated {
  import opened Outcomes
  import opened Interpolation

  /**
   * What a tabulated refractive index returns: the first value when every
   * sample is at one wavelength, otherwise interp1d over the samples.
   */
  datatype Lookup = Constant(value: real) | Linear(xs: seq<real>, ys: seq<real>)

  datatype TabulatedN = TabulatedN(rangeMin: real, rangeMax: real, lookup: Lookup)
  {
    /** The shape the constructor leaves: a constant exactly when the range is a single point. */
    ghost predicate Valid()
    {
      match lookup
      case Constant(_) => rangeMin == rangeMax
      case Linear(xs, ys) =>
        |xs| == |ys| >= 2 && Increasing(xs) && rangeMin == xs[0] && rangeMax == xs[|xs| - 1]
    }
  }

  datatype ExtinctionData = ExtinctionData(xs: seq<real>, ys: seq<real>, rangeMin: real, rangeMax: real)
  {
    /** The samples interp1d accepted, and the range numpy.min and numpy.max found. */
    ghost predicate Valid()
    {
      |xs| == |ys| >= 2 && Increasing(xs) && rangeMin == xs[0] && rangeMax == xs[|xs| - 1]
    }
  }

  /**
   * Samples the model can interpolate: in strictly increasing order, or all
   * at one wavelength (the case the code never hands to interp1d).
   */
  predicate Interpolable(xs: seq<real>)
  {
    Increasing(xs) || AllEqual(xs)
  }

  /**
   * TabulatedRefractiveIndexData(wavelengths, values): numpy.min over no
   * samples fails; a single-point range keeps values[0]; anything else is
   * handed to interp1d, which refuses samples of unequal lengths.
   */
  function SetupTabulatedN(xs: seq<real>, ys: seq<real>): (r: Result<TabulatedN>)
    requires Interpolable(xs)
    ensures r.Ok? ==> r.value.Valid()
    ensures r.Ok? <==> |xs| > 0 && |ys| > 0 && (AllEqual(xs) || |ys| == |xs|)
    ensures r.Ok? ==> r.value.rangeMin == Min(xs) && r.value.rangeMax == Max(xs)
    ensures |xs| == 0 ==> r == Err(NoSamples)
  {
    if |xs| == 0 then Err(NoSamples)
    else
      var lo, hi := Min(xs), Max(xs);
      DegenerateRange(xs);
      if lo == hi then
        if |ys| == 0 then Err(IndexError) else Ok(TabulatedN(lo, hi, Constant(ys[0])))
      else
        IncreasingRange(xs);
        if |xs| != |ys| then Err(InterpolationRejected)
        else Ok(TabulatedN(lo, hi, Linear(xs, ys)))
  }

  /** TabulatedRefractiveIndexData.getRefractiveIndex, for a wavelength in nanometres. */
  function TabulatedNAt(t: TabulatedN, wavelength: real): Result<real>
    requires t.Valid()
  {
    var w := wavelength / 1000.0;
    if t.rangeMin == t.rangeMax && t.rangeMin == w then Ok(t.lookup.value)
    else if t.rangeMin <= w <= t.rangeMax && t.rangeMin != t.rangeMax then
      Ok(Interp(t.lookup.xs, t.lookup.ys, w))
    else Err(OutOfBounds(w, t.rangeMin, t.rangeMax))
  }

  /**
   * ExtinctionCoefficientData(wavelengths, coefficients): interp1d is built
   * first and refuses fewer than two samples or unequal lengths; the range
   * is then the least and greatest sample wavelength.
   */
  function SetupExtinction(xs: seq<real>, ys: seq<real>): (r: Result<ExtinctionData>)
    requires Increasing(xs)
    ensures r.Ok? ==> r.value.Valid() && r.value.xs == xs && r.value.ys == ys
    ensures r.Ok? <==> |xs| == |ys| >= 2
    ensures r.Err? ==> r.error == InterpolationRejected
  {
    if |xs| != |ys| || |xs| < 2 then Err(InterpolationRejected)
    else
      IncreasingRange(xs);
      Ok(ExtinctionData(xs, ys, Min(xs), Max(xs)))
  }

  /** ExtinctionCoefficientData.getExtinctionCoefficient, for a wavelength in nanometres. */
  function ExtinctionAt(e: ExtinctionData, wavelength: real): Result<real>
    requires e.Valid()
  {
    var w := wavelength / 1000.0;
    if e.rangeMin <= w <= e.rangeMax then Ok(Interp(e.xs, e.ys, w))
    else Err(OutOfBounds(w, e.rangeMin, e.rangeMax))
  }

  /**
   * A tabulated n whose samples all sit at one wavelength answers values[0]
   * at exactly that wavelength and is out of bounds everywhere else, however
   * many samples there are.
   */
  lemma DegenerateTabulatedN(xs: seq<real>, ys: seq<real>, wavelength: real)
    requires |xs| > 0 && AllEqual(xs) && |ys| > 0
    ensures SetupTabulatedN(xs, ys).Ok?
    ensures var w := wavelength / 1000.0;
      TabulatedNAt(SetupTabulatedN(xs, ys).value, wavelength)
      == if w == xs[0] then Ok(ys[0]) else Err(OutOfBounds(w, xs[0], xs[0]))
  {
    DegenerateRange(xs);
    assert Min(xs) in xs;
  }

  /**
   * With strictly increasing samples and one value per sample, a tabulated n
   * interpolates inside [first, last] sample wavelength, both ends included,
   * and is out of bounds outside it.
   */
  lemma InterpolatedTabulatedN(xs: seq<real>, ys: seq<real>, wavelength: real)
    requires |xs| == |ys| >= 2 && Increasing(xs)
    ensures SetupTabulatedN(xs, ys).Ok?
    ensures var w := wavelength / 1000.0;
      TabulatedNAt(SetupTabulatedN(xs, ys).value, wavelength)
      == if xs[0] <= w <= xs[|xs| - 1] then Ok(Interp(xs, ys, w))
         else Err(OutOfBounds(w, xs[0], xs[|xs| - 1]))
  {
    IncreasingRange(xs);
    DegenerateRange(xs);
    assert xs[0] < xs[1];
  }

  /** An extinction coefficient interpolates inside its samples and never extrapolates. */
  lemma ExtinctionInterpolates(xs: seq<real>, ys: seq<real>, wavelength: real)
    requires |xs| == |ys| >= 2 && Increasing(xs)
    ensures SetupExtinction(xs, ys).Ok?
    ensures var w := wavelength / 1000.0;
      ExtinctionAt(SetupExtinction(xs, ys).value, wavelength)
      == if xs[0] <= w <= xs[|xs| - 1] then Ok(Interp(xs, ys, w))
         else Err(OutOfBounds(w, xs[0], xs[|xs| - 1]))
  {
    IncreasingRange(xs);
  }

  /**
   * Queried at a sample wavelength (in nanometres, 1000 times the sample's
   * micrometres) a non-degenerate tabulated n returns that sample's value.
   */
  lemma TabulatedNAtSample(t: TabulatedN, k: nat)
    requires t.Valid() && t.lookup.Linear? && k < |t.lookup.xs|
    ensures TabulatedNAt(t, 1000.0 * t.lookup.xs[k]) == Ok(t.lookup.ys[k])
  {
    var xs := t.lookup.xs;
    assert 1000.0 * xs[k] / 1000.0 == xs[k];
    assert xs[0] < xs[1];
    InterpAtSample(xs, t.lookup.ys, k);
  }

  /**
   * Between two neighbouring samples a non-degenerate tabulated n answers a
   * value between the two sample values.
   */
  lemma TabulatedNBetween(t: TabulatedN, j: nat, wavelength: real)
    requires t.Valid() && t.lookup.Linear? && j + 1 < |t.lookup.xs|
    requires t.lookup.xs[j] <= wavelength / 1000.0 <= t.lookup.xs[j + 1]
    ensures TabulatedNAt(t, wavelength).Ok?
    ensures var ys, v := t.lookup.ys, TabulatedNAt(t, wavelength).value;
      (ys[j] <= ys[j + 1] ==> ys[j] <= v <= ys[j + 1]) && (ys[j + 1] <= ys[j] ==> ys[j + 1] <= v <= ys[j])
  {
    assert t.lookup.xs[0] < t.lookup.xs[1];
    InterpBetween(t.lookup.xs, t.lookup.ys, j, wavelength / 1000.0);
  }

  /** At a sample wavelength the extinction coefficient is that sample's value. */
  lemma ExtinctionAtSample(e: ExtinctionData, k: nat)
    requires e.Valid() && k < |e.xs|
    ensures ExtinctionAt(e, 1000.0 * e.xs[k]) == Ok(e.ys[k])
  {
    assert 1000.0 * e.xs[k] / 1000.0 == e.xs[k];
    InterpAtSample(e.xs, e.ys, k);
  }

  /** Between two neighbouring samples the extinction coefficient lies between their values. */
  lemma ExtinctionBetween(e: ExtinctionData, j: nat, wavelength: real)
    requires e.Valid() && j + 1 < |e.xs|
    requires e.xs[j] <= wavelength / 1000.0 <= e.xs[j + 1]
    ensures ExtinctionAt(e, wavelength).Ok?
    ensures var ys, v := e.ys, ExtinctionAt(e, wavelength).value;
      (ys[j] <= ys[j + 1] ==> ys[j] <= v <= ys[j + 1]) && (ys[j + 1] <= ys[j] ==> ys[j + 1] <= v <= ys[j])
  {
    InterpBetween(e.xs, e.ys, j, wavelength / 1000.0);
  }

  /** Samples (0.4, 1.45), (0.5, 1.46), (0.6, 1.47): 450 nm falls in the first segment and gives 1.455. */
  lemma TabulatedExample()
    ensures SetupTabulatedN([0.4, 0.5, 0.6], [1.45, 1.46, 1.47]).Ok?
    ensures TabulatedNAt(SetupTabulatedN([0.4, 0.5, 0.6], [1.45, 1.46, 1.47]).value, 450.0) == Ok(1.455)
  {
    var xs, ys := [0.4, 0.5, 0.6], [1.45, 1.46, 1.47];
    assert Increasing(xs);
    InterpolatedTabulatedN(xs, ys, 450.0);
    InterpOnSegment(xs, ys, 0, 0.45);
    SegmentExample();
  }

  /** The same samples queried at 700 nm: out of bounds, with the range (0.4, 0.6) in micrometres. */
  lemma TabulatedOutOfRangeExample()
    ensures SetupTabulatedN([0.4, 0.5, 0.6], [1.45, 1.46, 1.47]).Ok?
    ensures TabulatedNAt(SetupTabulatedN([0.4, 0.5, 0.6], [1.45, 1.46, 1.47]).value, 700.0)
      == Err(OutOfBounds(0.7, 0.4, 0.6))
  {
    var xs, ys := [0.4, 0.5, 0.6], [1.45, 1.46, 1.47];
    assert Increasing(xs);
    InterpolatedTabulatedN(xs, ys, 700.0);
  }

  lemma SegmentExample()
    ensures Segment([0.4, 0.5, 0.6], [1.45, 1.46, 1.47], 0, 0.45) == 1.455
  {
  }
}
