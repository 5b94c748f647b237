/**
 `calculateStagesPortion`: the share of the night spent at each of the five
 display ranks, counted directly from the samples.
 */
module Aggregator {
  import opened Stages

  /** Number of samples whose display rank is `r`. */
  function RankCount(t: Tables, data: seq<Sample>, r: int): (c: nat)
    ensures c <= |data|
    ensures c == 0 <==> forall k :: 0 <= k < |data| ==> Rank(t, data[k].sleepStage) != r
  {
    if data == [] then 0
    else
      assert forall k :: 0 <= k < |data| - 1 ==> data[..|data| - 1][k] == data[k];
      RankCount(t, data[..|data| - 1], r)
      + (if Rank(t, data[|data| - 1].sleepStage) == r then 1 else 0)
  }

  /** Number of samples whose display rank is one of the five slots 0..4. */
  function RankedCount(t: Tables, data: seq<Sample>): (c: nat)
    ensures c <= |data|
  {
    if data == [] then 0
    else
      RankedCount(t, data[..|data| - 1])
      + (if 0 <= Rank(t, data[|data| - 1].sleepStage) < 5 then 1 else 0)
  }

  /** The five shares: the samples at rank `r` over all samples. */
  function StageShares(t: Tables, data: seq<Sample>): (qs: seq<Ratio>)
    requires 0 < |data|
    ensures |qs| == 5
    ensures SameDenominator(qs, |data|)
    ensures forall r :: 0 <= r < 5 ==> qs[r].num <= qs[r].den
  {
    seq(5, r requires 0 <= r < 5 => Ratio(RankCount(t, data, r), |data|))
  }

  /**
   `calculateStagesPortion(data, states, statesOrder)`: one pass that bumps
   the counter at each sample's display rank, then a division of every
   counter by the number of samples. A sample whose rank is -1 (its code has
   no label, or its label is not displayed) bumps no slot. With no sample
   the source divides zero by zero, a failure here.
   */
  method CalculateStagesPortion(data: seq<Sample>, t: Tables) returns (r: Result<seq<Ratio>>)
    requires |t.statesOrder| <= 5
    ensures |data| == 0 <==> r == Failure(EmptySeries)
    ensures 0 < |data| ==> r.Success?
    ensures r.Success? ==> |r.value| == 5
    ensures r.Success? ==> r.value == StageShares(t, data)
    ensures r.Success? ==> forall k :: 0 <= k < 5 ==> r.value[k] == Ratio(RankCount(t, data, k), |data|)
  {
    var counts: seq<nat> := [0, 0, 0, 0, 0];
    var i := 0;
    while i < |data|
      invariant 0 <= i <= |data|
      invariant |counts| == 5
      invariant forall k :: 0 <= k < 5 ==> counts[k] == RankCount(t, data[..i], k)
    {
      assert data[..i + 1][..i] == data[..i];
      var rank := Rank(t, data[i].sleepStage);
      if 0 <= rank {
        counts := counts[rank := counts[rank] + 1];
      }
      i := i + 1;
    }
    if |data| == 0 {
      return Failure(EmptySeries);
    }
    assert data[..|data|] == data;
    var shares := seq(5, k requires 0 <= k < 5 => Ratio(counts[k], |data|));
    return Success(shares);
  }

  /** The five per-rank counts add up to the number of samples with a rank in 0..4. */
  lemma {:induction false} RankCountsAddUp(t: Tables, data: seq<Sample>)
    ensures RankCount(t, data, 0) + RankCount(t, data, 1) + RankCount(t, data, 2)
          + RankCount(t, data, 3) + RankCount(t, data, 4) == RankedCount(t, data)
  {
    if data != [] {
      RankCountsAddUp(t, data[..|data| - 1]);
    }
  }

  /** With consistent tables and valid codes every sample has a rank in 0..4. */
  lemma {:induction false} AllRanked(t: Tables, data: seq<Sample>)
    requires Consistent(t) && ValidCodes(data)
    ensures RankedCount(t, data) == |data|
  {
    if data != [] {
      var init := data[..|data| - 1];
      assert ValidCodes(init) by {
        forall k | 0 <= k < |init| ensures 0 <= init[k].sleepStage < 5 {
          assert init[k] == data[k];
        }
      }
      AllRanked(t, init);
      RankInRange(t, data[|data| - 1].sleepStage);
    }
  }

  /** Each share lies in [0, 1]. */
  lemma SharesBounded(t: Tables, data: seq<Sample>)
    requires 0 < |data|
    ensures var qs := StageShares(t, data);
      forall r :: 0 <= r < 5 ==> 0.0 <= Value(qs[r]) <= 1.0
  {
    var qs := StageShares(t, data);
    forall r | 0 <= r < 5 ensures 0.0 <= Value(qs[r]) <= 1.0 {
      FractionAtMostOne(qs[r].num, qs[r].den);
    }
  }

  /** The shares add up to the fraction of samples with a rank in 0..4. */
  lemma SharesSum(t: Tables, data: seq<Sample>)
    requires 0 < |data|
    ensures SumNums(StageShares(t, data)) == RankedCount(t, data)
    ensures SumValues(StageShares(t, data)) == RankedCount(t, data) as real / |data| as real
  {
    var qs := StageShares(t, data);
    RankCountsAddUp(t, data);
    SumNumsOfFive(qs);
    SumOverCommonDenominator(qs, |data|);
  }

  /**
   With consistent tables and valid codes every sample is counted at some
   rank, and the five shares add up to the whole night.
   */
  lemma SharesWholeNight(t: Tables, data: seq<Sample>)
    requires 0 < |data|
    requires Consistent(t) && ValidCodes(data)
    ensures SumNums(StageShares(t, data)) == |data|
    ensures SumValues(StageShares(t, data)) == 1.0
  {
    SharesSum(t, data);
    AllRanked(t, data);
    WholeFraction(|data|);
  }

  /** The sum of five numerators. */
  lemma SumNumsOfFive(qs: seq<Ratio>)
    requires |qs| == 5
    ensures SumNums(qs) == qs[0].num + qs[1].num + qs[2].num + qs[3].num + qs[4].num
  {
    var q1 := qs[1..];
    var q2 := q1[1..];
    var q3 := q2[1..];
    var q4 := q3[1..];
    assert SumNums(q4[1..]) == 0;
    assert SumNums(q4) == qs[4].num;
    assert SumNums(q3) == qs[3].num + qs[4].num;
    assert SumNums(q2) == qs[2].num + qs[3].num + qs[4].num;
    assert SumNums(q1) == qs[1].num + qs[2].num + qs[3].num + qs[4].num;
  }

  /** A positive count over itself is one. */
  lemma WholeFraction(n: nat)
    requires 0 < n
    ensures n as real / n as real == 1.0
  {
  }

  /** A fraction whose numerator does not exceed its denominator lies in [0, 1]. */
  lemma FractionAtMostOne(a: nat, b: nat)
    requires 0 < b && a <= b
    ensures 0.0 <= a as real / b as real <= 1.0
  {
    var q := a as real / b as real;
    assert q * b as real == a as real;
  }
}
