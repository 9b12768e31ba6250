/** Sums, weighted means, and the largest and smallest of a sequence of reals. */
module Aggregates {

  /** A score together with the weight it carries in a weighted mean. */
  datatype Weighted = Weighted(score: real, weight: real)

  /** Σ xs, accumulated from the front. */
  function Sum(xs: seq<real>): real
  {
    if xs == [] then 0.0 else Sum(xs[..|xs| - 1]) + xs[|xs| - 1]
  }

  /** Σ score·weight. */
  function ScoreSum(ps: seq<Weighted>): real
  {
    if ps == [] then 0.0 else ScoreSum(ps[..|ps| - 1]) + ps[|ps| - 1].score * ps[|ps| - 1].weight
  }

  /** Σ weight. */
  function WeightSum(ps: seq<Weighted>): real
  {
    if ps == [] then 0.0 else WeightSum(ps[..|ps| - 1]) + ps[|ps| - 1].weight
  }

  function ScoresOf(ps: seq<Weighted>): (xs: seq<real>)
    ensures |xs| == |ps|
  {
    seq(|ps|, k requires 0 <= k < |ps| => ps[k].score)
  }

  predicate NonNegativeWeights(ps: seq<Weighted>)
  {
    forall k :: 0 <= k < |ps| ==> 0.0 <= ps[k].weight
  }

  /** The largest element. */
  function Max(xs: seq<real>): (m: real)
    requires |xs| > 0
    ensures m in xs
    ensures forall k :: 0 <= k < |xs| ==> xs[k] <= m
  {
    if |xs| == 1 then xs[0]
    else
      var rest := Max(xs[1..]);
      if xs[0] >= rest then xs[0] else rest
  }

  /** The smallest element. */
  function Min(xs: seq<real>): (m: real)
    requires |xs| > 0
    ensures m in xs
    ensures forall k :: 0 <= k < |xs| ==> m <= xs[k]
  {
    if |xs| == 1 then xs[0]
    else
      var rest := Min(xs[1..]);
      if xs[0] <= rest then xs[0] else rest
  }

  lemma ScaleMonotone(a: real, b: real, w: real)
    requires a <= b && 0.0 <= w
    ensures a * w <= b * w
  {
  }

  lemma PositiveProduct(a: real, b: real)
    requires 0.0 < a && 0.0 < b
    ensures 0.0 < a * b
  {
  }

  /** Bounds on two parts add up to bounds on the whole. */
  lemma AddBounds(scoreSum: real, weightSum: real, term: real, weight: real, lo: real, hi: real)
    requires lo * weightSum <= scoreSum <= hi * weightSum
    requires lo * weight <= term <= hi * weight
    ensures lo * (weightSum + weight) <= scoreSum + term <= hi * (weightSum + weight)
  {
  }

  /** With non-negative weights, Σ score·weight is bracketed by the score bounds times Σ weight. */
  lemma {:induction false} ScoreSumBetween(ps: seq<Weighted>, lo: real, hi: real)
    requires NonNegativeWeights(ps)
    requires forall k :: 0 <= k < |ps| ==> lo <= ps[k].score <= hi
    ensures lo * WeightSum(ps) <= ScoreSum(ps) <= hi * WeightSum(ps)
  {
    if ps != [] {
      var init, last := ps[..|ps| - 1], ps[|ps| - 1];
      var s0, w0, t := ScoreSum(init), WeightSum(init), last.score * last.weight;
      assert lo * w0 <= s0 <= hi * w0 by {
        assert forall k :: 0 <= k < |init| ==> init[k] == ps[k];
        ScoreSumBetween(init, lo, hi);
      }
      assert lo * last.weight <= t <= hi * last.weight by {
        ScaleMonotone(lo, last.score, last.weight);
        ScaleMonotone(last.score, hi, last.weight);
      }
      AddBounds(s0, w0, t, last.weight, lo, hi);
      assert ScoreSum(ps) == s0 + t && WeightSum(ps) == w0 + last.weight;
    }
  }

  /** Every score lies between the smallest and the largest. */
  lemma ScoresWithinExtremes(ps: seq<Weighted>)
    requires |ps| > 0
    ensures forall k :: 0 <= k < |ps| ==> Min(ScoresOf(ps)) <= ps[k].score <= Max(ScoresOf(ps))
  {
    var xs := ScoresOf(ps);
    forall k | 0 <= k < |ps|
      ensures Min(xs) <= ps[k].score <= Max(xs)
    {
      assert xs[k] == ps[k].score;
    }
  }

  /** A weighted mean with non-negative weights and a positive total lies within any bounds of its scores. */
  lemma MeanBetween(ps: seq<Weighted>, lo: real, hi: real)
    requires NonNegativeWeights(ps) && WeightSum(ps) > 0.0
    requires forall k :: 0 <= k < |ps| ==> lo <= ps[k].score <= hi
    ensures lo <= ScoreSum(ps) / WeightSum(ps) <= hi
  {
    ScoreSumBetween(ps, lo, hi);
    QuotientBetween(ScoreSum(ps), WeightSum(ps), lo, hi);
  }

  /** In particular it lies between the smallest and the largest score. */
  lemma MeanWithinExtremes(ps: seq<Weighted>)
    requires |ps| > 0 && NonNegativeWeights(ps) && WeightSum(ps) > 0.0
    ensures Min(ScoresOf(ps)) <= ScoreSum(ps) / WeightSum(ps) <= Max(ScoresOf(ps))
  {
    ScoresWithinExtremes(ps);
    MeanBetween(ps, Min(ScoresOf(ps)), Max(ScoresOf(ps)));
  }

  lemma QuotientBetween(s: real, w: real, lo: real, hi: real)
    requires w > 0.0 && lo * w <= s <= hi * w
    ensures lo <= s / w <= hi
  {
  }

  /** The mean of values that all lie in [lo, hi] lies in [lo, hi]. */
  lemma {:induction false} SumBetween(xs: seq<real>, lo: real, hi: real)
    requires forall k :: 0 <= k < |xs| ==> lo <= xs[k] <= hi
    ensures lo * |xs| as real <= Sum(xs) <= hi * |xs| as real
  {
    if xs != [] {
      var init := xs[..|xs| - 1];
      SumBetween(init, lo, hi);
      assert lo * |xs| as real == lo * |init| as real + lo;
      assert hi * |xs| as real == hi * |init| as real + hi;
    }
  }

  lemma AverageBetween(xs: seq<real>, lo: real, hi: real)
    requires |xs| > 0
    requires forall k :: 0 <= k < |xs| ==> lo <= xs[k] <= hi
    ensures lo <= Sum(xs) / |xs| as real <= hi
  {
    SumBetween(xs, lo, hi);
    QuotientBetween(Sum(xs), |xs| as real, lo, hi);
  }

  lemma {:induction false} WeightSumOfZeros(ps: seq<Weighted>)
    requires forall k :: 0 <= k < |ps| ==> ps[k].weight == 0.0
    ensures WeightSum(ps) == 0.0
  {
    if ps != [] {
      WeightSumOfZeros(ps[..|ps| - 1]);
    }
  }

  /** A non-empty sequence of positive weights has a positive total. */
  lemma {:induction false} WeightSumPositive(ps: seq<Weighted>)
    requires |ps| > 0
    requires forall k :: 0 <= k < |ps| ==> ps[k].weight > 0.0
    ensures WeightSum(ps) > 0.0
  {
    var init := ps[..|ps| - 1];
    if init != [] {
      assert forall k :: 0 <= k < |init| ==> init[k] == ps[k];
      WeightSumPositive(init);
    }
  }

  /** How the sums over a prefix grow by one element. */
  lemma SumsOfPrefix(ps: seq<Weighted>, i: nat, score: real, weight: real)
    requires i < |ps| && ps[i] == Weighted(score, weight)
    ensures ScoreSum(ps[..i + 1]) == ScoreSum(ps[..i]) + score * weight
    ensures WeightSum(ps[..i + 1]) == WeightSum(ps[..i]) + weight
  {
    assert ps[..i + 1][..i] == ps[..i];
  }
}
