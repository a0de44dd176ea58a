/** Sums and means of sequences of reals (Python's sum(xs) / len(xs)), with the bounds
    a mean inherits from its terms. */
module Stats {

  function Sum(xs: seq<real>): real
  {
    if xs == [] then 0.0 else Sum(xs[..|xs| - 1]) + xs[|xs| - 1]
  }

  function Mean(xs: seq<real>): real
    requires xs != []
  {
    Sum(xs) / |xs| as real
  }

  lemma SumSnoc(xs: seq<real>, x: real)
    ensures Sum(xs + [x]) == Sum(xs) + x
  {
    assert (xs + [x])[..|xs|] == xs;
  }

  /** Terms at least lo sum to at least lo times their count. */
  lemma {:induction false} SumAtLeast(xs: seq<real>, lo: real)
    requires forall k :: 0 <= k < |xs| ==> lo <= xs[k]
    ensures lo * |xs| as real <= Sum(xs)
  {
    if xs != [] {
      SumAtLeast(xs[..|xs| - 1], lo);
    }
  }

  /** Terms at most hi sum to at most hi times their count. */
  lemma {:induction false} SumAtMost(xs: seq<real>, hi: real)
    requires forall k :: 0 <= k < |xs| ==> xs[k] <= hi
    ensures Sum(xs) <= hi * |xs| as real
  {
    if xs != [] {
      SumAtMost(xs[..|xs| - 1], hi);
    }
  }

  /** Terms all below t sum to less than t times their count, when there is one. */
  lemma {:induction false} SumBelow(xs: seq<real>, t: real)
    requires xs != [] && forall k :: 0 <= k < |xs| ==> xs[k] < t
    ensures Sum(xs) < t * |xs| as real
  {
    var init := xs[..|xs| - 1];
    if init != [] {
      SumBelow(init, t);
    }
  }

  /** A mean lies between the smallest and the largest bound of its terms. */
  lemma MeanBetween(xs: seq<real>, lo: real, hi: real)
    requires xs != [] && forall k :: 0 <= k < |xs| ==> lo <= xs[k] <= hi
    ensures lo <= Mean(xs) <= hi
  {
    SumAtLeast(xs, lo);
    SumAtMost(xs, hi);
    DivideBetween(Sum(xs), |xs| as real, lo, hi);
  }

  /** A mean of terms at least lo is at least lo. */
  lemma MeanAtLeast(xs: seq<real>, lo: real)
    requires xs != [] && forall k :: 0 <= k < |xs| ==> lo <= xs[k]
    ensures lo <= Mean(xs)
  {
    SumAtLeast(xs, lo);
    DivideBetween(Sum(xs), |xs| as real, lo, Sum(xs) / |xs| as real);
  }

  /** A mean of terms all below t is below t. */
  lemma MeanBelow(xs: seq<real>, t: real)
    requires xs != [] && forall k :: 0 <= k < |xs| ==> xs[k] < t
    ensures Mean(xs) < t
  {
    SumBelow(xs, t);
    var n := |xs| as real;
    assert Sum(xs) / n < t by {
      assert Sum(xs) < t * n;
    }
  }

  lemma DivideBetween(total: real, n: real, lo: real, hi: real)
    requires n > 0.0 && lo * n <= total && total <= hi * n
    ensures lo <= total / n <= hi
  {
  }

  // Weighted sums: a sequence of (value, weight) terms.

  /** The sum of the products of the terms. */
  function Dot(xs: seq<(real, real)>): real
  {
    if xs == [] then 0.0 else Dot(xs[..|xs| - 1]) + xs[|xs| - 1].0 * xs[|xs| - 1].1
  }

  /** The sum of the weights of the terms. */
  function WeightSum(xs: seq<(real, real)>): real
  {
    if xs == [] then 0.0 else WeightSum(xs[..|xs| - 1]) + xs[|xs| - 1].1
  }

  /** A term whose factor lies in lo..hi and whose weight is not negative. */
  predicate TermWithin(t: (real, real), lo: real, hi: real)
  {
    lo <= t.0 <= hi && t.1 >= 0.0
  }

  /** A sum of products whose factors lie in lo..hi, with non-negative weights, lies
      between lo and hi times the sum of the weights. */
  lemma {:induction false} DotBetween(xs: seq<(real, real)>, lo: real, hi: real)
    requires forall n :: 0 <= n < |xs| ==> TermWithin(xs[n], lo, hi)
    ensures lo * WeightSum(xs) <= Dot(xs) <= hi * WeightSum(xs)
    decreases |xs|
  {
    if xs != [] {
      var init := xs[..|xs| - 1];
      assert forall n :: 0 <= n < |init| ==> init[n] == xs[n];
      DotBetween(init, lo, hi);
      DotStep(xs, lo, hi);
    }
  }

  lemma DotStep(xs: seq<(real, real)>, lo: real, hi: real)
    requires xs != [] && TermWithin(xs[|xs| - 1], lo, hi)
    requires lo * WeightSum(xs[..|xs| - 1]) <= Dot(xs[..|xs| - 1]) <= hi * WeightSum(xs[..|xs| - 1])
    ensures lo * WeightSum(xs) <= Dot(xs) <= hi * WeightSum(xs)
  {
    var init := xs[..|xs| - 1];
    StepBetween(Dot(init), WeightSum(init), xs[|xs| - 1].0, xs[|xs| - 1].1, lo, hi, Dot(xs), WeightSum(xs));
  }

  /** The two sums, one term further. */
  lemma DotSnoc(xs: seq<(real, real)>, x: (real, real))
    ensures Dot(xs + [x]) == Dot(xs) + x.0 * x.1
    ensures WeightSum(xs + [x]) == WeightSum(xs) + x.1
  {
    assert (xs + [x])[..|xs|] == xs;
  }

  /** Adding a term `a * weight` with `a` in lo..hi keeps a total between lo and hi times
      its weight. */
  lemma StepBetween(t0: real, w0: real, a: real, weight: real, lo: real, hi: real, t1: real, w1: real)
    requires lo * w0 <= t0 <= hi * w0 && lo <= a <= hi && weight >= 0.0
    requires t1 == t0 + a * weight && w1 == w0 + weight
    ensures lo * w1 <= t1 <= hi * w1
  {
    ScaleBetween(a, lo, hi, weight);
    assert lo * w1 == lo * w0 + lo * weight;
    assert hi * w1 == hi * w0 + hi * weight;
  }

  /** A factor in lo..hi times a non-negative weight lies between lo and hi times it. */
  lemma ScaleBetween(a: real, lo: real, hi: real, weight: real)
    requires lo <= a <= hi && weight >= 0.0
    ensures lo * weight <= a * weight <= hi * weight
  {
    assert (a - lo) * weight >= 0.0 && (hi - a) * weight >= 0.0;
  }
}
