/** Statistics over exact reals: the total, `np.mean`, `np.min` and
    `np.max` of a list of values, and the bounds they keep. */
module Stats {
  function Total(xs: seq<real>): real
  {
    if xs == [] then 0.0 else Total(xs[..|xs| - 1]) + xs[|xs| - 1]
  }

  /** `np.mean`. */
  function Mean(xs: seq<real>): real
    requires xs != []
  {
    Total(xs) / |xs| as real
  }

  /** `np.min`: the least value, which occurs in `xs`. */
  function MinOf(xs: seq<real>): (m: real)
    requires xs != []
    ensures m in xs
    ensures forall k :: 0 <= k < |xs| ==> m <= xs[k]
  {
    if |xs| == 1 then xs[0]
    else
      var rest := MinOf(xs[..|xs| - 1]);
      if xs[|xs| - 1] < rest then xs[|xs| - 1] else rest
  }

  /** `np.max`: the greatest value, which occurs in `xs`. */
  function MaxOf(xs: seq<real>): (m: real)
    requires xs != []
    ensures m in xs
    ensures forall k :: 0 <= k < |xs| ==> xs[k] <= m
  {
    if |xs| == 1 then xs[0]
    else
      var rest := MaxOf(xs[..|xs| - 1]);
      if xs[|xs| - 1] > rest then xs[|xs| - 1] else rest
  }

  predicate Between(xs: seq<real>, lo: real, hi: real)
  {
    forall k :: 0 <= k < |xs| ==> lo <= xs[k] <= hi
  }

  /** Values between `lo` and `hi` add up to between `n lo` and `n hi`. */
  lemma {:induction false} TotalBounds(xs: seq<real>, lo: real, hi: real)
    requires Between(xs, lo, hi)
    ensures lo * |xs| as real <= Total(xs) <= hi * |xs| as real
  {
    if xs != [] {
      var n := |xs| as real;
      TotalBounds(xs[..|xs| - 1], lo, hi);
      assert lo * n == lo * (n - 1.0) + lo;
      assert hi * n == hi * (n - 1.0) + hi;
    }
  }

  /** The mean of values between `lo` and `hi` is between them too. */
  lemma MeanBounds(xs: seq<real>, lo: real, hi: real)
    requires xs != [] && Between(xs, lo, hi)
    ensures lo <= Mean(xs) <= hi
  {
    TotalBounds(xs, lo, hi);
    var n := |xs| as real;
    var m := Mean(xs);
    assert m * n == Total(xs);
    assert (m - lo) * n == Total(xs) - lo * n;
    assert (hi - m) * n == hi * n - Total(xs);
  }

  /** The mean lies between the minimum and the maximum. */
  lemma MeanBetweenExtremes(xs: seq<real>)
    requires xs != []
    ensures MinOf(xs) <= Mean(xs) <= MaxOf(xs)
  {
    MeanBounds(xs, MinOf(xs), MaxOf(xs));
  }
}
