/** `computeRating`: a product's rating is kept as a running mean of its review
    ratings, updated in O(1) per review. Exact rational arithmetic stands for the
    source's floating point. */
module Rating {

  /** The rating after one more review: the old mean weighted by the number of
      reviews so far, plus the new rating, over the new number of reviews. */
  function ComputeRating(count: nat, oldRating: real, newRating: real): real {
    ((count as real) * oldRating + newRating) / ((count + 1) as real)
  }

  /** The update is the mean of count copies of the old rating and the new one. */
  lemma ComputeRatingWeighted(count: nat, oldRating: real, newRating: real)
    ensures ComputeRating(count, oldRating, newRating) * ((count + 1) as real)
         == (count as real) * oldRating + newRating
  {
  }

  /** A rating between 0 and 5 stays between 0 and 5 after a review rated between
      0 and 5. */
  lemma ComputeRatingInRange(count: nat, oldRating: real, newRating: real)
    requires 0.0 <= oldRating <= 5.0 && 0.0 <= newRating <= 5.0
    ensures 0.0 <= ComputeRating(count, oldRating, newRating) <= 5.0
  {
    var c := count as real;
    var x := c * oldRating + newRating;
    assert 0.0 <= c * oldRating <= c * 5.0 by { MulMono(c, oldRating, 5.0); }
    QuotientInRange(x, c + 1.0, 5.0);
  }

  lemma MulMono(c: real, a: real, b: real)
    requires 0.0 <= c && 0.0 <= a <= b
    ensures 0.0 <= c * a <= c * b
  {
  }

  lemma QuotientInRange(x: real, d: real, k: real)
    requires d > 0.0 && 0.0 <= x <= k * d
    ensures 0.0 <= x / d <= k
  {
    var q := x / d;
    assert q * d == x;
  }

  /** Three reviews averaging 4 and a new 5 give 4.25. */
  lemma ComputeRatingExample()
    ensures ComputeRating(3, 4.0, 5.0) == 4.25
  {
  }

  function Sum(rs: seq<real>): real {
    if rs == [] then 0.0 else Sum(rs[..|rs| - 1]) + rs[|rs| - 1]
  }

  /** The stored rating after the reviews rs were posted in order, starting from
      a fresh product (rating 0, no reviews). */
  function RunningRating(rs: seq<real>): real {
    if rs == [] then 0.0
    else ComputeRating(|rs| - 1, RunningRating(rs[..|rs| - 1]), rs[|rs| - 1])
  }

  /** The incremental update computes the arithmetic mean of all ratings posted. */
  lemma {:induction false} RunningRatingIsMean(rs: seq<real>)
    ensures RunningRating(rs) * (|rs| as real) == Sum(rs)
  {
    if rs != [] {
      var init := rs[..|rs| - 1];
      RunningRatingIsMean(init);
      ComputeRatingWeighted(|init|, RunningRating(init), rs[|rs| - 1]);
    }
  }
}
