/**
 * The numeric helpers the tabulated evaluators rely on: numpy.min and
 * numpy.max over a list of wavelengths, numpy.searchsorted, and the linear
 * interpolant scipy's interp1d computes, written out over strictly increasing
 * sample wavelengths.
 */
module Interpolation {

  /** Sample wavelengths in strictly increasing order. */
  predicate Increasing(xs: seq<real>)
  {
    forall i, j :: 0 <= i < j < |xs| ==> xs[i] < xs[j]
  }

  /** All sample wavelengths are the same one. */
  predicate AllEqual(xs: seq<real>)
  {
    forall i :: 0 <= i < |xs| ==> xs[i] == xs[0]
  }

  /** numpy.min: the least element, which is one of the elements. */
  function Min(xs: seq<real>): (m: real)
    requires |xs| > 0
    ensures m in xs
    ensures forall i :: 0 <= i < |xs| ==> m <= xs[i]
  {
    if |xs| == 1 then xs[0]
    else
      var rest := Min(xs[1..]);
      if xs[0] <= rest then xs[0] else rest
  }

  /** numpy.max: the greatest element, which is one of the elements. */
  function Max(xs: seq<real>): (m: real)
    requires |xs| > 0
    ensures m in xs
    ensures forall i :: 0 <= i < |xs| ==> xs[i] <= m
  {
    if |xs| == 1 then xs[0]
    else
      var rest := Max(xs[1..]);
      if rest <= xs[0] then xs[0] else rest
  }

  /** Over increasing samples the range is spanned by the first and the last sample. */
  lemma IncreasingRange(xs: seq<real>)
    requires |xs| > 0 && Increasing(xs)
    ensures Min(xs) == xs[0] && Max(xs) == xs[|xs| - 1]
  {
    IncreasingMin(xs);
    IncreasingMax(xs);
  }

  lemma IncreasingMin(xs: seq<real>)
    requires |xs| > 0 && Increasing(xs)
    ensures Min(xs) == xs[0]
  {
    var lo :| 0 <= lo < |xs| && xs[lo] == Min(xs);
    assert xs[0] <= xs[lo];
  }

  lemma IncreasingMax(xs: seq<real>)
    requires |xs| > 0 && Increasing(xs)
    ensures Max(xs) == xs[|xs| - 1]
  {
    var hi :| 0 <= hi < |xs| && xs[hi] == Max(xs);
    assert xs[hi] <= xs[|xs| - 1];
  }

  /** The range of the samples is empty exactly when every sample is at one wavelength. */
  lemma DegenerateRange(xs: seq<real>)
    requires |xs| > 0
    ensures Min(xs) == Max(xs) <==> AllEqual(xs)
  {
    if Min(xs) == Max(xs) {
      forall i | 0 <= i < |xs| ensures xs[i] == xs[0] {
        assert Min(xs) <= xs[i] <= Max(xs);
        assert Min(xs) <= xs[0] <= Max(xs);
      }
    }
    if AllEqual(xs) {
      var lo :| 0 <= lo < |xs| && xs[lo] == Min(xs);
      var hi :| 0 <= hi < |xs| && xs[hi] == Max(xs);
      assert xs[lo] == xs[0] == xs[hi];
    }
  }

  /** numpy.searchsorted with side='left': the first index whose sample is not below x. */
  function SearchSorted(xs: seq<real>, x: real): (i: nat)
    ensures i <= |xs|
    ensures forall j :: 0 <= j < i ==> xs[j] < x
    ensures i < |xs| ==> x <= xs[i]
  {
    if |xs| == 0 || x <= xs[0] then 0 else 1 + SearchSorted(xs[1..], x)
  }

  /** The straight line through the samples j and j+1, at x. */
  function Segment(xs: seq<real>, ys: seq<real>, j: nat, x: real): real
    requires j + 1 < |xs| && j + 1 < |ys| && xs[j] < xs[j + 1]
  {
    ys[j] + (ys[j + 1] - ys[j]) * (x - xs[j]) / (xs[j + 1] - xs[j])
  }

  /**
   * The value interp1d(xs, ys)(x) computes for a query inside the samples:
   * the insertion index is clipped to 1..|xs|-1, and the interpolant is the
   * line through the segment that ends there (scipy writes it as
   * slope * (x - x_lo) + y_lo, the same real number).
   */
  function Interp(xs: seq<real>, ys: seq<real>, x: real): real
    requires |xs| == |ys| >= 2 && Increasing(xs)
    requires xs[0] <= x <= xs[|xs| - 1]
  {
    var found := SearchSorted(xs, x);
    var hi := if found < 1 then 1 else if found > |xs| - 1 then |xs| - 1 else found;
    Segment(xs, ys, hi - 1, x)
  }

  /** The line through two samples passes through both of them. */
  lemma SegmentEnds(xs: seq<real>, ys: seq<real>, j: nat)
    requires j + 1 < |xs| && j + 1 < |ys| && xs[j] < xs[j + 1]
    ensures Segment(xs, ys, j, xs[j]) == ys[j]
    ensures Segment(xs, ys, j, xs[j + 1]) == ys[j + 1]
  {
    var d := xs[j + 1] - xs[j];
    assert (ys[j + 1] - ys[j]) * d / d == ys[j + 1] - ys[j];
  }

  /** A quantity scaled by a factor between 0 and 1 lies between 0 and itself. */
  lemma ScaleBetween(delta: real, a: real, d: real)
    requires 0.0 <= a <= d && 0.0 < d
    ensures 0.0 <= delta ==> 0.0 <= delta * a / d <= delta
    ensures delta <= 0.0 ==> delta <= delta * a / d <= 0.0
  {
    var t := a / d;
    assert 0.0 <= t <= 1.0;
    assert delta * a / d == delta * t;
  }

  /** Inside the samples, x lies strictly after sample j and no later than sample j+1. */
  lemma SearchSortedBracket(xs: seq<real>, x: real, j: nat)
    requires Increasing(xs) && j + 1 < |xs|
    requires xs[j] < x <= xs[j + 1]
    ensures SearchSorted(xs, x) == j + 1
  {
    var i := SearchSorted(xs, x);
    assert i <= j + 1;
    assert xs[j] < x;
  }

  /**
   * The interpolant agrees with the line through any two neighbouring samples
   * that bracket the query, whichever segment interp1d picks.
   */
  lemma InterpOnSegment(xs: seq<real>, ys: seq<real>, j: nat, x: real)
    requires |xs| == |ys| >= 2 && Increasing(xs)
    requires j + 1 < |xs| && xs[j] <= x <= xs[j + 1]
    ensures xs[0] <= x <= xs[|xs| - 1]
    ensures Interp(xs, ys, x) == Segment(xs, ys, j, x)
  {
    assert xs[0] <= xs[j] && xs[j + 1] <= xs[|xs| - 1];
    if x == xs[j] {
      SegmentEnds(xs, ys, j);
      if j == 0 {
        assert SearchSorted(xs, x) == 0;
      } else {
        SearchSortedBracket(xs, x, j - 1);
        SegmentEnds(xs, ys, j - 1);
      }
    } else {
      SearchSortedBracket(xs, x, j);
    }
  }

  /** At a sample wavelength the interpolant returns that sample's value. */
  lemma InterpAtSample(xs: seq<real>, ys: seq<real>, k: nat)
    requires |xs| == |ys| >= 2 && Increasing(xs) && k < |xs|
    ensures xs[0] <= xs[k] <= xs[|xs| - 1]
    ensures Interp(xs, ys, xs[k]) == ys[k]
  {
    if k + 1 < |xs| {
      InterpOnSegment(xs, ys, k, xs[k]);
      SegmentEnds(xs, ys, k);
    } else {
      InterpOnSegment(xs, ys, k - 1, xs[k]);
      SegmentEnds(xs, ys, k - 1);
    }
  }

  /** Between its two samples the line through them stays between their values. */
  lemma SegmentBetween(xs: seq<real>, ys: seq<real>, j: nat, x: real)
    requires j + 1 < |xs| && j + 1 < |ys| && xs[j] < xs[j + 1]
    requires xs[j] <= x <= xs[j + 1]
    ensures ys[j] <= ys[j + 1] ==> ys[j] <= Segment(xs, ys, j, x) <= ys[j + 1]
    ensures ys[j + 1] <= ys[j] ==> ys[j + 1] <= Segment(xs, ys, j, x) <= ys[j]
  {
    var delta, a, d := ys[j + 1] - ys[j], x - xs[j], xs[j + 1] - xs[j];
    ScaleBetween(delta, a, d);
    assert Segment(xs, ys, j, x) == ys[j] + delta * a / d;
  }

  /** Between two neighbouring samples the interpolant lies between their values. */
  lemma InterpBetween(xs: seq<real>, ys: seq<real>, j: nat, x: real)
    requires |xs| == |ys| >= 2 && Increasing(xs)
    requires j + 1 < |xs| && xs[j] <= x <= xs[j + 1]
    ensures xs[0] <= x <= xs[|xs| - 1]
    ensures ys[j] <= ys[j + 1] ==> ys[j] <= Interp(xs, ys, x) <= ys[j + 1]
    ensures ys[j + 1] <= ys[j] ==> ys[j + 1] <= Interp(xs, ys, x) <= ys[j]
  {
    InterpOnSegment(xs, ys, j, x);
    SegmentBetween(xs, ys, j, x);
  }
}
