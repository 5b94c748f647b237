/**
 `findFirstStageIndex`: for each of the five display ranks, the position of
 the first interval drawn at that rank, or -1 when no interval is.
 */
module FirstIndex {
  import opened Stages
  import opened Segmenter

  /** Interval `e` is drawn at display rank `s`. */
  predicate AtRank(s: int, e: StageInterval) {
    e.stage == s
  }

  /**
   `findFirstStageIndex(sources)`: one `findIndex` per rank 0..4, in rank
   order.
   */
  function FindFirstStageIndex(sources: seq<StageInterval>): (r: seq<int>)
    ensures |r| == 5
    ensures forall s :: 0 <= s < 5 ==> -1 <= r[s] < |sources|
    ensures forall s :: 0 <= s < 5 ==>
      (r[s] == -1 <==> forall j :: 0 <= j < |sources| ==> sources[j].stage != s)
    ensures forall s :: 0 <= s < 5 && 0 <= r[s] ==>
      sources[r[s]].stage == s && forall j :: 0 <= j < r[s] ==> sources[j].stage != s
  {
    seq(5, s requires 0 <= s < 5 => FirstIndexWhere(sources, (e: StageInterval) => AtRank(s, e)))
  }

  /** The loop of the source, pushing one `findIndex` per rank. */
  method FindFirstStageIndexLoop(sources: seq<StageInterval>) returns (firstIndexes: seq<int>)
    ensures firstIndexes == FindFirstStageIndex(sources)
  {
    firstIndexes := [];
    var stage := 0;
    while stage < 5
      invariant 0 <= stage <= 5
      invariant firstIndexes == FindFirstStageIndex(sources)[..stage]
    {
      var k := 0;
      while k < |sources| && sources[k].stage != stage
        invariant 0 <= k <= |sources|
        invariant forall j :: 0 <= j < k ==> sources[j].stage != stage
      {
        k := k + 1;
      }
      firstIndexes := firstIndexes + [if k == |sources| then -1 else k];
      stage := stage + 1;
    }
  }

  /** Two ranks found in the list have different first positions. */
  lemma FirstIndexesDistinct(sources: seq<StageInterval>)
    ensures var r := FindFirstStageIndex(sources);
      forall a, b :: 0 <= a < b < 5 && r[a] != -1 && r[b] != -1 ==> r[a] != r[b]
  {
  }
}
