/**
 * Exact summation of monthly costs and the total/count/average triple the
 * dashboard displays. Costs are exact reals, not IEEE doubles.
 */
module Aggregate {

  /** Dashboard statistics: total monthly cost, number of subscriptions, mean cost. */
  datatype Stats = Stats(total: real, count: nat, average: real)

  /** The statistics before anything is loaded, and for an absent result. */
  const Zero: Stats := Stats(0.0, 0, 0.0)

  /** `xs.reduce((acc, x) => acc + x, 0)`: a left fold that adds the elements in order. */
  function Sum(xs: seq<real>): (total: real)
    ensures xs == [] ==> total == 0.0
    ensures |xs| == 1 ==> total == xs[0]
  {
    if xs == [] then 0.0 else Sum(xs[..|xs| - 1]) + xs[|xs| - 1]
  }

  /** The triple agrees with itself: zero throughout, or a positive count with average * count = total. */
  predicate Consistent(s: Stats)
  {
    (s.count == 0 && s == Zero) || (s.count > 0 && s.average * s.count as real == s.total)
  }

  /** Total, count and the average guarded against a zero count, over a list of costs. */
  function Of(xs: seq<real>): (s: Stats)
    ensures s.count == |xs|
    ensures Consistent(s)
    ensures |xs| == 0 ==> s == Zero
  {
    var total := Sum(xs);
    Stats(total, |xs|, if |xs| > 0 then total / |xs| as real else 0.0)
  }

  /** Summing a concatenation sums the two parts. */
  lemma {:induction false} SumAppend(xs: seq<real>, ys: seq<real>)
    ensures Sum(xs + ys) == Sum(xs) + Sum(ys)
    decreases |ys|
  {
    if ys == [] {
      assert xs + ys == xs;
    } else {
      var n := |ys| - 1;
      assert (xs + ys)[..|xs + ys| - 1] == xs + ys[..n];
      SumAppend(xs, ys[..n]);
    }
  }

  /** Costs that all lie in [lo, hi] add up to between lo and hi times their number. */
  lemma {:induction false} SumBounds(xs: seq<real>, lo: real, hi: real)
    requires forall i :: 0 <= i < |xs| ==> lo <= xs[i] <= hi
    ensures lo * |xs| as real <= Sum(xs) <= hi * |xs| as real
  {
    if xs != [] {
      var n := |xs| - 1;
      SumBounds(xs[..n], lo, hi);
      assert lo * |xs| as real == lo * n as real + lo;
      assert hi * |xs| as real == hi * n as real + hi;
    }
  }

  /** The average of a non-empty list of costs lies between its smallest and largest cost. */
  lemma AverageWithinBounds(xs: seq<real>, lo: real, hi: real)
    requires |xs| > 0
    requires forall i :: 0 <= i < |xs| ==> lo <= xs[i] <= hi
    ensures lo <= Of(xs).average <= hi
  {
    SumBounds(xs, lo, hi);
    var s := Of(xs);
    ScaledBounds(s.average, |xs| as real, lo, hi);
  }

  /** Dividing bounds by a positive factor: `lo * n <= a * n <= hi * n` gives `lo <= a <= hi`. */
  lemma ScaledBounds(a: real, n: real, lo: real, hi: real)
    requires n > 0.0
    requires lo * n <= a * n <= hi * n
    ensures lo <= a <= hi
  {
  }
}
