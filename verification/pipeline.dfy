/**
 How the three preprocessing results of one night relate: the intervals of
 `createSources`, the first positions `findFirstStageIndex` finds in them,
 and the shares of `calculateStagesPortion`.
 */
module Pipeline {
  import opened Stages
  import opened Segmenter
  import opened Aggregator
  import opened FirstIndex

  /** Interval `j` is drawn at the display rank of run `j`'s stage code. */
  lemma IntervalRanks(data: seq<Sample>, t: Tables)
    requires 2 <= |data|
    ensures var xs, r := CreateSources(data, t).value, CreateRuns(data);
      |xs| == |r| && forall j :: 0 <= j < |xs| ==> xs[j].stage == Rank(t, r[j].code)
  {
    IntervalsElements(t, |data|, CreateRuns(data));
  }

  /**
   A display rank has an interval exactly when it is the rank of code 0 (the
   opening interval) or the rank of some sample other than the last.
   */
  lemma DrawnRanks(data: seq<Sample>, t: Tables, s: int)
    requires 2 <= |data|
    requires 0 <= s < 5
    ensures var xs := CreateSources(data, t).value;
      FindFirstStageIndex(xs)[s] != -1 <==>
        s == Rank(t, 0) || exists k :: 0 <= k < |data| - 1 && Rank(t, data[k].sleepStage) == s
  {
    var xs := CreateSources(data, t).value;
    if FindFirstStageIndex(xs)[s] != -1 {
      DrawnRankHasSample(data, t, FindFirstStageIndex(xs)[s]);
    }
    if s == Rank(t, 0) {
      IntervalRanks(data, t);
      assert xs[0].stage == s;
    } else if exists k :: 0 <= k < |data| - 1 && Rank(t, data[k].sleepStage) == s {
      var k :| 0 <= k < |data| - 1 && Rank(t, data[k].sleepStage) == s;
      SampleRankDrawn(data, t, k);
    }
  }

  /** The rank of interval `j` is the rank of code 0 or of a sample other than the last. */
  lemma DrawnRankHasSample(data: seq<Sample>, t: Tables, j: int)
    requires 2 <= |data|
    requires 0 <= j < |CreateSources(data, t).value|
    ensures var s := CreateSources(data, t).value[j].stage;
      s == Rank(t, 0) || exists k :: 0 <= k < |data| - 1 && Rank(t, data[k].sleepStage) == s
  {
    var r := CreateRuns(data);
    IntervalRanks(data, t);
    RunCodes(data);
    assert r[j].code in Codes(r);
    if r[j].code != 0 {
      var k :| 0 <= k < |data| - 1 && data[k].sleepStage == r[j].code;
    }
  }

  /** The rank of a sample other than the last is the rank of some interval. */
  lemma SampleRankDrawn(data: seq<Sample>, t: Tables, k: int)
    requires 2 <= |data|
    requires 0 <= k < |data| - 1
    ensures var xs := CreateSources(data, t).value;
      exists j :: 0 <= j < |xs| && xs[j].stage == Rank(t, data[k].sleepStage)
  {
    var xs, r := CreateSources(data, t).value, CreateRuns(data);
    IntervalRanks(data, t);
    RunCodes(data);
    assert data[k].sleepStage in StagesBetween(data, 0, |data| - 1);
    var j :| 0 <= j < |r| && r[j].code == data[k].sleepStage;
    assert xs[j].stage == Rank(t, data[k].sleepStage);
  }

  /**
   Every rank with a positive share has an interval, except possibly the
   rank of the last sample; every rank with an interval has a positive share,
   except possibly the rank of code 0.
   */
  lemma SharesAndIntervals(data: seq<Sample>, t: Tables, s: int)
    requires 2 <= |data|
    requires 0 <= s < 5
    ensures var f := FindFirstStageIndex(CreateSources(data, t).value);
      && (0 < RankCount(t, data, s) && s != Rank(t, data[|data| - 1].sleepStage) ==> f[s] != -1)
      && (f[s] != -1 && s != Rank(t, 0) ==> 0 < RankCount(t, data, s))
  {
    DrawnRanks(data, t, s);
    var f := FindFirstStageIndex(CreateSources(data, t).value);
    if 0 < RankCount(t, data, s) && s != Rank(t, data[|data| - 1].sleepStage) {
      var k :| 0 <= k < |data| && Rank(t, data[k].sleepStage) == s;
      assert k < |data| - 1;
    }
    if f[s] != -1 && s != Rank(t, 0) {
      var k :| 0 <= k < |data| - 1 && Rank(t, data[k].sleepStage) == s;
      assert 0 <= k < |data|;
    }
  }

  /** The wake-then-REM night closes a single run of code 0 over both samples. */
  lemma WakeThenRemRuns()
    ensures CreateRuns([Sample(0, 0), Sample(1, 4)]) == [Run(0, 2, 0, 1)]
  {
    var data := [Sample(0, 0), Sample(1, 4)];
    ScanStep(data, 0, 0, 0, 0);
    ScanStep(data, 1, 0, 0, 1);
  }

  /** Half of the wake-then-REM night is at REM's display rank. */
  lemma WakeThenRemShares()
    ensures StageShares(StandardTables, [Sample(0, 0), Sample(1, 4)])[1] == Ratio(1, 2)
  {
    var data, t := [Sample(0, 0), Sample(1, 4)], StandardTables;
    StandardTablesRanks();
    assert data[..1] == [Sample(0, 0)];
    assert [Sample(0, 0)][..0] == [];
    assert RankCount(t, [Sample(0, 0)], 1) == 0;
    assert RankCount(t, data, 1) == 1;
  }

  /** The wake-then-REM night gives one wake interval covering the whole night. */
  lemma WakeThenRemIntervals()
    ensures CreateSources([Sample(0, 0), Sample(1, 4)], StandardTables).value
         == [StageInterval(Some("W"), 0, Ratio(200, 1), 0, 1)]
  {
    WakeThenRemRuns();
    StandardTablesRanks();
    assert Intervals(StandardTables, 2, [Run(0, 2, 0, 1)])
        == [ToInterval(StandardTables, 2, Run(0, 2, 0, 1))] + Intervals(StandardTables, 2, []);
  }

  /**
   A night of two samples, wake then REM, with the application's tables:
   half of the night is REM, yet no interval is drawn at REM's rank, because
   the last sample never opens an interval of its own.
   */
  lemma FinalStageDropped()
    ensures var data := [Sample(0, 0), Sample(1, 4)];
      && StageShares(StandardTables, data)[1] == Ratio(1, 2)
      && CreateSources(data, StandardTables).value
           == [StageInterval(Some("W"), 0, Ratio(200, 1), 0, 1)]
      && FindFirstStageIndex(CreateSources(data, StandardTables).value) == [0, -1, -1, -1, -1]
  {
    WakeThenRemShares();
    WakeThenRemIntervals();
    var f := FindFirstStageIndex([StageInterval(Some("W"), 0, Ratio(200, 1), 0, 1)]);
    assert f[0] == 0;
  }
}
