/** The day's average temperature (src/components/Forecast.jsx:124). */
module Stats {

  /** `temps.reduce((sum, temp) => sum + temp, 0)`: a left fold from 0. */
  function Sum(xs: seq<real>): (s: real)
    ensures xs == [] ==> s == 0.0
    ensures |xs| == 1 ==> s == xs[0]
  {
    if xs == [] then 0.0 else Sum(xs[..|xs| - 1]) + xs[|xs| - 1]
  }

  /** The smallest value of a non-empty sequence. */
  function Smallest(xs: seq<real>): (m: real)
    requires |xs| > 0
    ensures m in xs
    ensures forall i :: 0 <= i < |xs| ==> m <= xs[i]
  {
    if |xs| == 1 then xs[0]
    else
      var m0 := Smallest(xs[..|xs| - 1]);
      if xs[|xs| - 1] < m0 then xs[|xs| - 1] else m0
  }

  /** The largest value of a non-empty sequence. */
  function Largest(xs: seq<real>): (m: real)
    requires |xs| > 0
    ensures m in xs
    ensures forall i :: 0 <= i < |xs| ==> xs[i] <= m
  {
    if |xs| == 1 then xs[0]
    else
      var m0 := Largest(xs[..|xs| - 1]);
      if xs[|xs| - 1] > m0 then xs[|xs| - 1] else m0
  }

  /** `sum / temps.length`, exact (the source's floating point is not modelled). */
  function Mean(xs: seq<real>): (m: real)
    requires |xs| > 0
    ensures m * (|xs| as real) == Sum(xs)
  {
    Sum(xs) / (|xs| as real)
  }

  /** A sum of `n` values, each between `lo` and `hi`, lies between `n * lo` and `n * hi`. */
  lemma {:induction false} SumBetween(xs: seq<real>, lo: real, hi: real)
    requires forall i :: 0 <= i < |xs| ==> lo <= xs[i] <= hi
    ensures (|xs| as real) * lo <= Sum(xs) <= (|xs| as real) * hi
  {
    if xs != [] {
      var n := |xs| - 1;
      SumBetween(xs[..n], lo, hi);
      assert (|xs| as real) * lo == (n as real) * lo + lo;
      assert (|xs| as real) * hi == (n as real) * hi + hi;
    }
  }

  /** The mean lies between the smallest and the largest value. */
  lemma MeanBetweenExtremes(xs: seq<real>)
    requires |xs| > 0
    ensures Smallest(xs) <= Mean(xs) <= Largest(xs)
  {
    MeanBetween(xs, Smallest(xs), Largest(xs));
  }

  /** The mean of values that all lie between `lo` and `hi` lies there too. */
  lemma MeanBetween(xs: seq<real>, lo: real, hi: real)
    requires |xs| > 0
    requires forall i :: 0 <= i < |xs| ==> lo <= xs[i] <= hi
    ensures lo <= Mean(xs) <= hi
  {
    SumBetween(xs, lo, hi);
    QuotientBetween(Sum(xs), |xs| as real, lo, hi);
  }

  /** Dividing by a positive `n` keeps `n * lo <= s <= n * hi` as `lo <= s / n <= hi`. */
  lemma QuotientBetween(s: real, n: real, lo: real, hi: real)
    requires n > 0.0 && n * lo <= s <= n * hi
    ensures lo <= s / n <= hi
  {
    var q := s / n;
    assert q * n == s;
    assert (q - lo) * n >= 0.0;
    assert (hi - q) * n >= 0.0;
  }

  /** Equal values average to that value. */
  lemma MeanOfConstant(xs: seq<real>, c: real)
    requires |xs| > 0
    requires forall i :: 0 <= i < |xs| ==> xs[i] == c
    ensures Mean(xs) == c
  {
    MeanBetween(xs, c, c);
  }
}
