/**
 * The auxiliary tier: the integer numerators of the responses' "n/d"
 * score strings are averaged and the average is sorted into one of three
 * tiers.
 */
module Sav {
  import opened Options
  import opened Responses
  import opened Numerals

  /** The average used when no numerator was read. */
  const DEFAULT_SAV_AVERAGE: real := 28.0

  /** The numerator one response contributes: none for an absent, empty or unreadable string. */
  function SavNumerator(r: AgentResponse): Option<int>
  {
    match r.savScore
    case Some(s) => if s != "" then ParseNumerator(s) else None
    case None => None
  }

  /** The numerators read from a batch, in input order. */
  function SavNumerators(rs: seq<AgentResponse>): (nums: seq<int>)
    ensures |nums| <= |rs|
  {
    if rs == [] then []
    else
      var init := SavNumerators(rs[..|rs| - 1]);
      match SavNumerator(rs[|rs| - 1])
      case Some(n) => init + [n]
      case None => init
  }

  function IntSum(nums: seq<int>): int
  {
    if nums == [] then 0 else IntSum(nums[..|nums| - 1]) + nums[|nums| - 1]
  }

  /** The mean of the numerators, or 28 when there are none. */
  function AverageSav(nums: seq<int>): real
  {
    if nums == [] then DEFAULT_SAV_AVERAGE else IntSum(nums) as real / |nums| as real
  }

  function TierOf(average: real): SavTier
  {
    if average >= 30.0 then AboveAverage
    else if average >= 25.0 then Average
    else BelowAverage
  }

  /** The tier a batch is given. */
  function SavTierOf(rs: seq<AgentResponse>): SavTier
  {
    TierOf(AverageSav(SavNumerators(rs)))
  }

  /** A number is collected exactly when some response's score string reads as it. */
  lemma {:induction false} SavNumeratorsAreTheReadOnes(rs: seq<AgentResponse>, n: int)
    ensures n in SavNumerators(rs) <==> exists k :: 0 <= k < |rs| && SavNumerator(rs[k]) == Some(n)
  {
    if rs != [] {
      var m := |rs| - 1;
      var init := rs[..m];
      SavNumeratorsAreTheReadOnes(init, n);
      assert forall k :: 0 <= k < m ==> init[k] == rs[k];
      match SavNumerator(rs[m])
      case Some(x) =>
        assert SavNumerators(rs) == SavNumerators(init) + [x];
      case None =>
        assert SavNumerators(rs) == SavNumerators(init);
    }
  }

  /** A batch in which no score string reads as a number gets the default average, hence tier Average. */
  lemma {:induction false} NothingReadGivesAverage(rs: seq<AgentResponse>)
    requires forall k :: 0 <= k < |rs| ==> SavNumerator(rs[k]).None?
    ensures SavNumerators(rs) == []
    ensures SavTierOf(rs) == Average
  {
    if rs != [] {
      NothingReadGivesAverage(rs[..|rs| - 1]);
    }
  }

  /** When every response contributes the numerator n, the collected list is n repeated. */
  lemma {:induction false} UniformNumerators(rs: seq<AgentResponse>, n: int)
    requires forall k :: 0 <= k < |rs| ==> SavNumerator(rs[k]) == Some(n)
    ensures |SavNumerators(rs)| == |rs|
    ensures forall k :: 0 <= k < |rs| ==> SavNumerators(rs)[k] == n
  {
    if rs != [] {
      UniformNumerators(rs[..|rs| - 1], n);
    }
  }

  lemma {:induction false} IntSumOfRepeated(nums: seq<int>, n: int)
    requires forall k :: 0 <= k < |nums| ==> nums[k] == n
    ensures IntSum(nums) == n * |nums|
  {
    if nums != [] {
      IntSumOfRepeated(nums[..|nums| - 1], n);
      assert n * |nums| == n * (|nums| - 1) + n;
    }
  }

  /** A batch whose every score string is "n/d" averages to n. */
  lemma UniformFractionAverage(rs: seq<AgentResponse>, n: int, denominator: string)
    requires |rs| > 0
    requires forall k :: 0 <= k < |rs| ==> rs[k].savScore == Some(Signed(n) + "/" + denominator)
    ensures AverageSav(SavNumerators(rs)) == n as real
  {
    ParseNumeratorOfFraction(n, denominator);
    UniformReadingAverage(rs, Signed(n) + "/" + denominator, n);
  }

  /** When every response carries the same string reading as `n`, the average is `n`. */
  lemma UniformReadingAverage(rs: seq<AgentResponse>, s: string, n: int)
    requires |rs| > 0 && s != "" && ParseNumerator(s) == Some(n)
    requires forall r :: r in rs ==> r.savScore == Some(s)
    ensures AverageSav(SavNumerators(rs)) == n as real
  {
    assert forall k :: 0 <= k < |rs| ==> rs[k] in rs && SavNumerator(rs[k]) == Some(n);
    UniformNumerators(rs, n);
    var nums := SavNumerators(rs);
    IntSumOfRepeated(nums, n);
    RepeatedMean(n, |nums|);
  }

  lemma RepeatedMean(n: int, m: nat)
    requires m > 0
    ensures (n * m) as real / m as real == n as real
  {
    assert (n * m) as real == n as real * m as real;
  }

  /** A higher average never gives a lower tier. */
  lemma TierMonotone(a: real, b: real)
    requires a <= b
    ensures TierOf(a) == AboveAverage ==> TierOf(b) == AboveAverage
    ensures TierOf(b) == BelowAverage ==> TierOf(a) == BelowAverage
  {
  }
}
