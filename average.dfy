/**
 * The `average` helper of the watched summary: a `reduce` that adds each
 * element divided by the array length to an accumulator that starts at 0.
 * Arithmetic is exact (`real`); the double rounding of JavaScript is not modelled.
 */
module Aggregate {

  /** Sum of the values, left to right. */
  function Sum(xs: seq<real>): real
  {
    if xs == [] then 0.0 else xs[0] + Sum(xs[1..])
  }

  /** The arithmetic mean, taken to be 0 for an empty list: the reference for `Average`. */
  function Mean(xs: seq<real>): real
  {
    if xs == [] then 0.0 else Sum(xs) / (|xs| as real)
  }

  /**
   * The reduction step by step: `acc` is the accumulator after the elements
   * already visited, `xs` the elements still to visit and `n` the length of
   * the whole array (`arr.length` inside the callback).
   */
  function Reduce(xs: seq<real>, n: real, acc: real): (r: real)
    requires xs != [] ==> n != 0.0
    ensures xs == [] ==> r == acc
  {
    if xs == [] then acc else Reduce(xs[1..], n, acc + xs[0] / n)
  }

  /** Each visited element contributes its share `x / n`, so the reduction adds `Sum(xs) / n`. */
  lemma {:induction false} ReduceAddsShareOfSum(xs: seq<real>, n: real, acc: real)
    requires xs != [] ==> n != 0.0
    ensures xs != [] ==> Reduce(xs, n, acc) == acc + Sum(xs) / n
  {
    if xs != [] {
      ReduceAddsShareOfSum(xs[1..], n, acc + xs[0] / n);
      assert xs[0] / n + Sum(xs[1..]) / n == (xs[0] + Sum(xs[1..])) / n;
    }
  }

  /** `average(arr)`: 0 for an empty array, otherwise the arithmetic mean. */
  function Average(arr: seq<real>): (r: real)
    ensures r == Mean(arr)
    ensures arr == [] ==> r == 0.0
  {
    ReduceAddsShareOfSum(arr, |arr| as real, 0.0);
    Reduce(arr, |arr| as real, 0.0)
  }

  /** If every value lies in [lo, hi], so does their sum scaled by the count. */
  lemma {:induction false} SumWithin(xs: seq<real>, lo: real, hi: real)
    requires forall i :: 0 <= i < |xs| ==> lo <= xs[i] <= hi
    ensures (|xs| as real) * lo <= Sum(xs) <= (|xs| as real) * hi
  {
    if xs != [] {
      SumWithin(xs[1..], lo, hi);
      assert (|xs| as real) * lo == lo + (|xs[1..]| as real) * lo;
      assert (|xs| as real) * hi == hi + (|xs[1..]| as real) * hi;
    }
  }

  /** The mean of a non-empty list lies between any lower and upper bound of its values. */
  lemma MeanWithin(xs: seq<real>, lo: real, hi: real)
    requires xs != []
    requires forall i :: 0 <= i < |xs| ==> lo <= xs[i] <= hi
    ensures lo <= Mean(xs) <= hi
  {
    SumWithin(xs, lo, hi);
    var n := |xs| as real;
    assert n * lo <= Sum(xs) <= n * hi;
    assert Sum(xs) / n >= (n * lo) / n;
    assert Sum(xs) / n <= (n * hi) / n;
  }

  /** The mean of a list whose values are all equal is that value. */
  lemma MeanOfConstant(xs: seq<real>, c: real)
    requires xs != []
    requires forall i :: 0 <= i < |xs| ==> xs[i] == c
    ensures Mean(xs) == c
  {
    MeanWithin(xs, c, c);
  }

  /** Example: the average of 2, 4 and 6 is 4. */
  lemma AverageOfTwoFourSix()
    ensures Average([2.0, 4.0, 6.0]) == 4.0
  {
  }
}
