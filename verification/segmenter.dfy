/**
 `createSources`: a single pass over the samples that closes a stage interval
 at each sample where the stage code changes or that is the last one.

 The pass is modelled in two layers. `Scan` is the fold with the source's
 accumulators (current stage, start instant, running count) and yields bare
 `Run`s; `CreateSources` turns each run into the chart's `StageInterval`
 with its label, display rank and percentage of the night.

 Three behaviours of the source are kept as they are written:
 - the current stage starts at the literal code 0, not at the first sample's
   code, so a night that does not start in stage 0 opens with a one-sample
   interval of code 0 that starts and ends at the first instant;
 - the counter includes the sample that closes an interval, and the
   percentage divides by one less than the number of samples, so the
   percentages add up to n / (n - 1) * 100;
 - the last sample always closes the current interval and never opens its
   own, so a stage other than code 0 seen only at the last sample gets no
   interval (code 0 always has the opening one).
 */
module Segmenter {
  import opened Stages

  /** One closed interval before its percentage is computed. */
  datatype Run = Run(code: int, count: nat, start: int, end: int)

  /** One element of `sources` as the source builds it. */
  datatype StageInterval = StageInterval(
    stageText: Option<Label>,
    stage: int,
    stagePortion: Ratio,
    currentStageDebut: int,
    currentStageEnd: int)

  /** Sum of the counters of a list of runs. */
  function TotalCount(rs: seq<Run>): nat {
    if rs == [] then 0 else rs[0].count + TotalCount(rs[1..])
  }

  /** The stage codes carried by a list of runs. */
  function Codes(rs: seq<Run>): set<int> {
    set j | 0 <= j < |rs| :: rs[j].code
  }

  /** The stage codes of the samples at positions `lo` up to (excluding) `hi`. */
  function StagesBetween(data: seq<Sample>, lo: int, hi: int): set<int>
    requires 0 <= lo && hi <= |data|
  {
    set k | lo <= k < hi :: data[k].sleepStage
  }

  /** Each run starts at the instant where the previous one ends. */
  ghost predicate Contiguous(rs: seq<Run>) {
    forall j :: 0 <= j < |rs| - 1 ==> rs[j].end == rs[j + 1].start
  }

  /** Neighbouring runs carry different stage codes. */
  ghost predicate StageChanges(rs: seq<Run>) {
    forall j :: 0 <= j < |rs| - 1 ==> rs[j].code != rs[j + 1].code
  }

  /**
   The `forEach` of `createSources` from position `i` on, with the current
   stage `cur`, the current interval's start `debut` and the running counter
   `count` (samples already counted into the open interval).
   */
  function Scan(data: seq<Sample>, i: nat, cur: int, debut: int, count: nat): (r: seq<Run>)
    requires i <= |data|
    decreases |data| - i
    ensures |r| <= |data| - i
    ensures i < |data| ==> 1 <= |r|
    ensures i < |data| ==> r[0].code == cur && r[0].start == debut
    ensures i < |data| ==> r[|r| - 1].end == data[|data| - 1].timestamp
    ensures i < |data| ==> TotalCount(r) == count + (|data| - i)
    ensures forall j :: 0 <= j < |r| ==> 1 <= r[j].count
    ensures Contiguous(r)
    ensures StageChanges(r)
  {
    if i == |data| then []
    else
      var c := count + 1;
      if data[i].sleepStage != cur || i == |data| - 1 then
        [Run(cur, c, debut, data[i].timestamp)] + Scan(data, i + 1, data[i].sleepStage, data[i].timestamp, 0)
      else
        Scan(data, i + 1, cur, debut, c)
  }

  /** One step of the fold. */
  lemma ScanStep(data: seq<Sample>, i: nat, cur: int, debut: int, count: nat)
    requires i < |data|
    ensures Scan(data, i, cur, debut, count) ==
      if data[i].sleepStage != cur || i == |data| - 1
      then [Run(cur, count + 1, debut, data[i].timestamp)] + Scan(data, i + 1, data[i].sleepStage, data[i].timestamp, 0)
      else Scan(data, i + 1, cur, debut, count + 1)
  {
  }

  /**
   The runs `createSources` closes, in order. They tile the night from the
   first instant to the last, neighbours carry different codes, every run
   counts at least one sample and together they count every sample once.
   */
  function CreateRuns(data: seq<Sample>): (r: seq<Run>)
    requires 1 <= |data|
    ensures 1 <= |r| <= |data|
    ensures r[0].code == 0
    ensures r[0].start == data[0].timestamp
    ensures r[|r| - 1].end == data[|data| - 1].timestamp
    ensures Contiguous(r)
    ensures StageChanges(r)
    ensures forall j :: 0 <= j < |r| ==> 1 <= r[j].count
    ensures TotalCount(r) == |data|
  {
    Scan(data, 0, 0, data[0].timestamp, 0)
  }

  /** The last run always carries the stage in force just before the last sample. */
  lemma {:induction false} ScanLastCode(data: seq<Sample>, i: nat, cur: int, debut: int, count: nat)
    requires i < |data|
    decreases |data| - i
    ensures var r := Scan(data, i, cur, debut, count);
      r[|r| - 1].code == (if i == |data| - 1 then cur else data[|data| - 2].sleepStage)
  {
    ScanStep(data, i, cur, debut, count);
    if i < |data| - 1 {
      if data[i].sleepStage != cur {
        ScanLastCode(data, i + 1, data[i].sleepStage, data[i].timestamp, 0);
      } else {
        ScanLastCode(data, i + 1, cur, debut, count + 1);
      }
    }
  }

  /**
   The codes of the runs from position `i` on are the current stage plus the
   stage of every sample from `i` on except the last one.
   */
  lemma {:induction false} ScanCodes(data: seq<Sample>, i: nat, cur: int, debut: int, count: nat)
    requires i < |data|
    decreases |data| - i
    ensures Codes(Scan(data, i, cur, debut, count)) == {cur} + StagesBetween(data, i, |data| - 1)
  {
    if i == |data| - 1 {
      assert StagesBetween(data, i, |data| - 1) == {};
    } else {
      assert StagesBetween(data, i, |data| - 1) == {data[i].sleepStage} + StagesBetween(data, i + 1, |data| - 1);
      if data[i].sleepStage != cur {
        var rest := Scan(data, i + 1, data[i].sleepStage, data[i].timestamp, 0);
        ScanCodes(data, i + 1, data[i].sleepStage, data[i].timestamp, 0);
        CodesCons(Run(cur, count + 1, debut, data[i].timestamp), rest);
      } else {
        ScanCodes(data, i + 1, cur, debut, count + 1);
      }
    }
  }

  /** The codes of a run followed by a list. */
  lemma CodesCons(x: Run, rs: seq<Run>)
    ensures Codes([x] + rs) == {x.code} + Codes(rs)
  {
    var r := [x] + rs;
    assert r[0] == x;
    forall c | c in Codes(rs) ensures c in Codes(r) {
      var j :| 0 <= j < |rs| && rs[j].code == c;
      assert r[j + 1].code == c;
    }
    forall c | c in Codes(r) ensures c in {x.code} + Codes(rs) {
      var j :| 0 <= j < |r| && r[j].code == c;
      if j > 0 {
        assert rs[j - 1].code == c;
      }
    }
  }

  /**
   The codes among the runs are exactly code 0 (the initial current stage)
   and the stage of every sample but the last.
   */
  lemma RunCodes(data: seq<Sample>)
    requires 1 <= |data|
    ensures Codes(CreateRuns(data)) == {0} + StagesBetween(data, 0, |data| - 1)
  {
    ScanCodes(data, 0, 0, data[0].timestamp, 0);
  }

  /**
   With two or more samples the last run carries the stage of the
   second-to-last sample, so when the last sample changes stage that stage
   ends no run.
   */
  lemma LastRunCode(data: seq<Sample>)
    requires 2 <= |data|
    ensures var r := CreateRuns(data);
      r[|r| - 1].code == data[|data| - 2].sleepStage
  {
    ScanLastCode(data, 0, 0, data[0].timestamp, 0);
  }

  /**
   A stage other than code 0 that no sample before the last carries closes no
   run, whatever the last sample's stage.
   */
  lemma LastOnlyStageDropped(data: seq<Sample>, c: int)
    requires 2 <= |data| && c != 0
    requires forall k :: 0 <= k < |data| - 1 ==> data[k].sleepStage != c
    ensures c !in Codes(CreateRuns(data))
  {
    RunCodes(data);
  }

  /**
   A night that does not start in stage 0 opens with a one-sample run of
   code 0 that starts and ends at the first instant.
   */
  lemma PhantomFirstRun(data: seq<Sample>)
    requires 1 <= |data|
    requires data[0].sleepStage != 0
    ensures CreateRuns(data)[0] == Run(0, 1, data[0].timestamp, data[0].timestamp)
  {
  }

  /**
   A night spent in one stage `s`: one run counting every sample when `s` is
   0, otherwise the opening one-sample run of code 0 and one run of `s`
   counting the remaining samples.
   */
  lemma UniformNight(data: seq<Sample>, s: int)
    requires 2 <= |data|
    requires forall k :: 0 <= k < |data| ==> data[k].sleepStage == s
    ensures var t0, tn := data[0].timestamp, data[|data| - 1].timestamp;
      CreateRuns(data) ==
        if s == 0 then [Run(0, |data|, t0, tn)]
        else [Run(0, 1, t0, t0), Run(s, |data| - 1, t0, tn)]
  {
    var t0, tn := data[0].timestamp, data[|data| - 1].timestamp;
    if s == 0 {
      UniformTail(data, 1, 0, t0, 1);
    } else {
      UniformTail(data, 1, s, t0, 0);
    }
  }

  /** From position `i` on, a uniform stage equal to the current one closes one run at the end. */
  lemma {:induction false} UniformTail(data: seq<Sample>, i: nat, cur: int, debut: int, count: nat)
    requires 1 <= i < |data|
    requires forall k :: i <= k < |data| ==> data[k].sleepStage == cur
    decreases |data| - i
    ensures Scan(data, i, cur, debut, count) == [Run(cur, count + |data| - i, debut, data[|data| - 1].timestamp)]
  {
    if i < |data| - 1 {
      UniformTail(data, i + 1, cur, debut, count + 1);
    }
  }

  // ---------------------------------------------------------------------
  // A reference description of the runs by their closing positions.
  // ---------------------------------------------------------------------

  /** The stage in force just before position `k`: code 0 before the first sample. */
  function StageBefore(data: seq<Sample>, k: nat): int
    requires k < |data|
  {
    if k == 0 then 0 else data[k - 1].sleepStage
  }

  /** Position `k` closes an interval: its stage differs from the one in force, or it is the last. */
  predicate Closes(data: seq<Sample>, k: nat)
    requires k < |data|
  {
    k == |data| - 1 || data[k].sleepStage != StageBefore(data, k)
  }

  /** The closing positions from `i` on, in increasing order. */
  function ClosingFrom(data: seq<Sample>, i: nat): (ks: seq<nat>)
    decreases |data| - i
    ensures forall j :: 0 <= j < |ks| ==> i <= ks[j] < |data| && Closes(data, ks[j])
    ensures forall j, l :: 0 <= j < l < |ks| ==> ks[j] < ks[l]
    ensures forall k :: i <= k < |data| && Closes(data, k) ==> k in ks
  {
    if i >= |data| then []
    else if Closes(data, i) then [i] + ClosingFrom(data, i + 1)
    else ClosingFrom(data, i + 1)
  }

  /** The run closed at position `k` when the previous one closed at `prev` (-1: none). */
  function RunClosedAt(data: seq<Sample>, prev: int, k: nat): Run
    requires -1 <= prev < k < |data|
  {
    Run(StageBefore(data, k),
        k - prev,
        if prev < 0 then data[0].timestamp else data[prev].timestamp,
        data[k].timestamp)
  }

  /** Increasing closing positions `ks`, all after `prev`. */
  predicate ClosingChain(data: seq<Sample>, prev: int, ks: seq<nat>) {
    && (forall j :: 0 <= j < |ks| ==> prev < ks[j] < |data|)
    && (forall j, l :: 0 <= j < l < |ks| ==> ks[j] < ks[l])
  }

  /** The runs closed at the positions `ks`, each starting where the previous one closed. */
  function RunsBetween(data: seq<Sample>, prev: int, ks: seq<nat>): (r: seq<Run>)
    requires -1 <= prev
    requires ClosingChain(data, prev, ks)
    decreases |ks|
  {
    if ks == [] then []
    else [RunClosedAt(data, prev, ks[0])] + RunsBetween(data, ks[0], ks[1..])
  }

  /** One run per closing position. */
  lemma {:induction false} RunsBetweenLength(data: seq<Sample>, prev: int, ks: seq<nat>)
    requires -1 <= prev
    requires ClosingChain(data, prev, ks)
    decreases |ks|
    ensures |RunsBetween(data, prev, ks)| == |ks|
  {
    if ks != [] {
      RunsBetweenLength(data, ks[0], ks[1..]);
    }
  }

  /** Run `j` of the list closes at `ks[j]` and starts where run `j - 1` closed. */
  lemma {:induction false} RunsBetweenAt(data: seq<Sample>, prev: int, ks: seq<nat>, j: nat)
    requires -1 <= prev
    requires ClosingChain(data, prev, ks)
    requires j < |ks|
    decreases j
    ensures j < |RunsBetween(data, prev, ks)|
    ensures RunsBetween(data, prev, ks)[j] == RunClosedAt(data, if j == 0 then prev else ks[j - 1], ks[j])
  {
    RunsBetweenLength(data, prev, ks);
    if j > 0 {
      RunsBetweenAt(data, ks[0], ks[1..], j - 1);
    }
  }

  /** The fold from position `i`, with accumulators matching the last closing position `prev`. */
  lemma {:induction false} ScanClosings(data: seq<Sample>, i: nat, prev: int, cur: int, debut: int, count: nat)
    requires 1 <= |data| && i <= |data|
    requires -1 <= prev < i
    requires i < |data| ==> cur == StageBefore(data, i)
    requires debut == if prev < 0 then data[0].timestamp else data[prev].timestamp
    requires count == i - 1 - prev
    decreases |data| - i, 1
    ensures ClosingChain(data, prev, ClosingFrom(data, i))
    ensures Scan(data, i, cur, debut, count) == RunsBetween(data, prev, ClosingFrom(data, i))
  {
    if i == |data| {
      assert ClosingFrom(data, i) == [];
    } else if Closes(data, i) {
      ClosingCase(data, i, prev, cur, debut, count);
    } else {
      ScanClosings(data, i + 1, prev, cur, debut, count + 1);
      ScanAtNonClosing(data, i, cur, debut, count);
    }
  }

  /** The inductive step of `ScanClosings` at a closing position. */
  lemma {:induction false} ClosingCase(data: seq<Sample>, i: nat, prev: int, cur: int, debut: int, count: nat)
    requires 1 <= |data| && i < |data|
    requires -1 <= prev < i
    requires cur == StageBefore(data, i)
    requires debut == if prev < 0 then data[0].timestamp else data[prev].timestamp
    requires count == i - 1 - prev
    requires Closes(data, i)
    decreases |data| - i, 0
    ensures ClosingChain(data, prev, ClosingFrom(data, i))
    ensures Scan(data, i, cur, debut, count) == RunsBetween(data, prev, ClosingFrom(data, i))
  {
    ScanClosings(data, i + 1, i, data[i].sleepStage, data[i].timestamp, 0);
    ScanAtClosing(data, i, prev, cur, debut, count);
    ClosingFromClosing(data, i, prev);
  }

  /** At a closing position the fold emits the run closed there and restarts. */
  lemma ScanAtClosing(data: seq<Sample>, i: nat, prev: int, cur: int, debut: int, count: nat)
    requires 1 <= |data| && i < |data|
    requires -1 <= prev < i
    requires cur == StageBefore(data, i)
    requires debut == if prev < 0 then data[0].timestamp else data[prev].timestamp
    requires count == i - 1 - prev
    requires Closes(data, i)
    ensures Scan(data, i, cur, debut, count)
         == [RunClosedAt(data, prev, i)] + Scan(data, i + 1, data[i].sleepStage, data[i].timestamp, 0)
  {
  }

  /** Away from closing positions the fold only counts, and no closing position is skipped. */
  lemma ScanAtNonClosing(data: seq<Sample>, i: nat, cur: int, debut: int, count: nat)
    requires i < |data|
    requires cur == StageBefore(data, i)
    requires !Closes(data, i)
    ensures Scan(data, i, cur, debut, count) == Scan(data, i + 1, cur, debut, count + 1)
    ensures ClosingFrom(data, i) == ClosingFrom(data, i + 1)
    ensures cur == StageBefore(data, i + 1)
  {
  }

  /** The closing positions from a closing position `i` on are `i` and those after it. */
  lemma ClosingFromClosing(data: seq<Sample>, i: nat, prev: int)
    requires i < |data| && -1 <= prev < i
    requires Closes(data, i)
    requires ClosingChain(data, i, ClosingFrom(data, i + 1))
    ensures ClosingFrom(data, i) == [i] + ClosingFrom(data, i + 1)
    ensures ClosingChain(data, prev, ClosingFrom(data, i))
    ensures RunsBetween(data, prev, ClosingFrom(data, i))
         == [RunClosedAt(data, prev, i)] + RunsBetween(data, i, ClosingFrom(data, i + 1))
  {
    var ks := ClosingFrom(data, i);
    assert ks[1..] == ClosingFrom(data, i + 1);
  }

  /**
   Run `j` is the one closed at the `j`-th closing position: it carries the
   stage in force just before that position, starts at the previous closing
   instant (the first instant for the first run), ends at the closing instant
   and counts the samples after the previous closing position up to this one.
   */
  lemma RunsMatchClosings(data: seq<Sample>)
    requires 1 <= |data|
    ensures var ks, r := ClosingFrom(data, 0), CreateRuns(data);
      && |r| == |ks|
      && forall j :: 0 <= j < |r| ==>
           r[j] == RunClosedAt(data, if j == 0 then -1 else ks[j - 1], ks[j])
  {
    var ks := ClosingFrom(data, 0);
    ScanClosings(data, 0, -1, 0, data[0].timestamp, 0);
    RunsBetweenLength(data, -1, ks);
    forall j | 0 <= j < |ks|
      ensures RunsBetween(data, -1, ks)[j] == RunClosedAt(data, if j == 0 then -1 else ks[j - 1], ks[j])
    {
      RunsBetweenAt(data, -1, ks, j);
    }
  }

  // ---------------------------------------------------------------------
  // From runs to the chart's intervals.
  // ---------------------------------------------------------------------

  /**
   `(stagePortion / totalTimestamps) * 100` with `totalTimestamps = n - 1`,
   as the exact ratio `100 * count / (n - 1)`.
   */
  function Portion(count: nat, n: nat): (q: Ratio)
    requires 2 <= n
    ensures q.den == n - 1
    ensures Value(q) == (count as real / (n - 1) as real) * 100.0
  {
    ScaledFraction(count, n - 1);
    Ratio(100 * count, n - 1)
  }

  /** `100 a / d` is `a / d * 100`. */
  lemma ScaledFraction(a: nat, d: nat)
    requires 0 < d
    ensures (100 * a) as real / d as real == (a as real / d as real) * 100.0
  {
    var q := a as real / d as real;
    assert q * d as real == a as real;
    assert (100.0 * q) * d as real == 100.0 * a as real;
  }

  /** The object the source pushes for one run of a night of `n` samples. */
  function ToInterval(t: Tables, n: nat, run: Run): (x: StageInterval)
    requires 2 <= n
    ensures x.stageText == Lookup(t.states, run.code)
    ensures x.stage == Rank(t, run.code)
    ensures 0 <= x.stage ==> x.stageText.Some? && t.statesOrder[x.stage] == x.stageText.value
    ensures x.stagePortion.den == n - 1
    ensures Value(x.stagePortion) == (run.count as real / (n - 1) as real) * 100.0
    ensures x.currentStageDebut == run.start && x.currentStageEnd == run.end
  {
    var text := Lookup(t.states, run.code);
    StageInterval(text, IndexOf(t.statesOrder, text), Portion(run.count, n), run.start, run.end)
  }

  /** Every run of a list turned into its interval, in order. */
  function Intervals(t: Tables, n: nat, rs: seq<Run>): (xs: seq<StageInterval>)
    requires 2 <= n
    ensures |xs| == |rs|
  {
    if rs == [] then [] else [ToInterval(t, n, rs[0])] + Intervals(t, n, rs[1..])
  }

  /** Interval `j` is the conversion of run `j`. */
  lemma {:induction false} IntervalsElements(t: Tables, n: nat, rs: seq<Run>)
    requires 2 <= n
    ensures forall j :: 0 <= j < |rs| ==> Intervals(t, n, rs)[j] == ToInterval(t, n, rs[j])
  {
    if rs != [] {
      IntervalsElements(t, n, rs[1..]);
    }
  }

  /** Converting a list followed by a run. */
  lemma {:induction false} IntervalsSnoc(t: Tables, n: nat, rs: seq<Run>, run: Run)
    requires 2 <= n
    ensures Intervals(t, n, rs + [run]) == Intervals(t, n, rs) + [ToInterval(t, n, run)]
  {
    if rs != [] {
      assert (rs + [run])[1..] == rs[1..] + [run];
      IntervalsSnoc(t, n, rs[1..], run);
    }
  }

  /**
   `createSources(data, states, statesOrder)`. The source reads `data[0]`
   unguarded and divides by `data.length - 1`, so fewer than two samples are
   failures here.
   */
  function CreateSources(data: seq<Sample>, t: Tables): (r: Result<seq<StageInterval>>)
    ensures |data| == 0 <==> r == Failure(EmptySeries)
    ensures |data| == 1 <==> r == Failure(SingleSample)
    ensures r.Success? ==> 1 <= |r.value| <= |data|
    ensures r.Success? ==> r.value[0].currentStageDebut == data[0].timestamp
    ensures r.Success? ==> r.value[0].stageText == Lookup(t.states, 0)
    ensures r.Success? ==> r.value[|r.value| - 1].currentStageEnd == data[|data| - 1].timestamp
    ensures r.Success? ==> forall j :: 0 <= j < |r.value| - 1 ==>
      r.value[j].currentStageEnd == r.value[j + 1].currentStageDebut
    ensures r.Success? ==> forall j :: 0 <= j < |r.value| ==>
      && r.value[j].stagePortion.den == |data| - 1
      && 100 <= r.value[j].stagePortion.num
      && r.value[j].stagePortion.num % 100 == 0
  {
    if |data| == 0 then Failure(EmptySeries)
    else if |data| == 1 then Failure(SingleSample)
    else
      IntervalsElements(t, |data|, CreateRuns(data));
      Success(Intervals(t, |data|, CreateRuns(data)))
  }

  /** The percentages of a list of intervals. */
  function Portions(xs: seq<StageInterval>): (qs: seq<Ratio>)
    ensures |qs| == |xs|
    ensures forall j :: 0 <= j < |xs| ==> qs[j] == xs[j].stagePortion
  {
    seq(|xs|, j requires 0 <= j < |xs| => xs[j].stagePortion)
  }

  /** The percentage numerators of a list of runs add up to 100 times its total count. */
  lemma {:induction false} SumOfIntervals(t: Tables, n: nat, rs: seq<Run>)
    requires 2 <= n
    ensures SumNums(Portions(Intervals(t, n, rs))) == 100 * TotalCount(rs)
  {
    if rs != [] {
      SumOfIntervals(t, n, rs[1..]);
      var xs := Intervals(t, n, rs);
      assert Portions(xs)[1..] == Portions(Intervals(t, n, rs[1..]));
    }
  }

  /**
   The percentages of all intervals add up to n / (n - 1) * 100, which is
   more than 100 for every night.
   */
  lemma PortionsSum(data: seq<Sample>, t: Tables)
    requires 2 <= |data|
    ensures var qs := Portions(CreateSources(data, t).value);
      && SameDenominator(qs, |data| - 1)
      && SumNums(qs) == 100 * |data|
      && SumValues(qs) == (|data| as real / (|data| - 1) as real) * 100.0
      && SumValues(qs) > 100.0
  {
    var qs := Portions(CreateSources(data, t).value);
    SumOfIntervals(t, |data|, CreateRuns(data));
    SumOverCommonDenominator(qs, |data| - 1);
    MoreThanHundred(|data|);
  }

  /** `100 n / (n - 1)` is `n / (n - 1) * 100`, and exceeds 100. */
  lemma MoreThanHundred(n: nat)
    requires 2 <= n
    ensures (100 * n) as real / (n - 1) as real == (n as real / (n - 1) as real) * 100.0
    ensures (100 * n) as real / (n - 1) as real > 100.0
  {
    var x, d := n as real, (n - 1) as real;
    var q := x / d;
    assert q * d == x;
    assert (100.0 * q) * d == 100.0 * x;
    assert q > 1.0;
  }

  /**
   Each interval's label is the stage table's entry for its run's code and
   its rank the position of that label in the display order; with
   consistent tables and valid codes every rank lies in 0..4.
   */
  lemma IntervalStages(data: seq<Sample>, t: Tables)
    requires 2 <= |data|
    requires Consistent(t) && ValidCodes(data)
    ensures var xs := CreateSources(data, t).value;
      forall j :: 0 <= j < |xs| ==>
        && xs[j].stageText.Some?
        && 0 <= xs[j].stage < 5
        && t.statesOrder[xs[j].stage] == xs[j].stageText.value
  {
    var r := CreateRuns(data);
    IntervalsElements(t, |data|, r);
    RunCodes(data);
    forall j | 0 <= j < |r|
      ensures 0 <= r[j].code < 5
    {
      assert r[j].code in Codes(r);
    }
    forall j | 0 <= j < |r|
      ensures 0 <= Rank(t, r[j].code) < 5 && t.statesOrder[Rank(t, r[j].code)] == t.states[r[j].code]
    {
      RankInRange(t, r[j].code);
    }
  }

  /** With distinct labels, neighbouring intervals sit at different display ranks. */
  lemma NeighboursDiffer(data: seq<Sample>, t: Tables)
    requires 2 <= |data|
    requires Consistent(t) && DistinctLabels(t) && ValidCodes(data)
    ensures var xs := CreateSources(data, t).value;
      forall j :: 0 <= j < |xs| - 1 ==> xs[j].stage != xs[j + 1].stage
  {
    var r := CreateRuns(data);
    IntervalsElements(t, |data|, r);
    RunCodes(data);
    forall j | 0 <= j < |r| - 1
      ensures Rank(t, r[j].code) != Rank(t, r[j + 1].code)
    {
      assert r[j].code in Codes(r) && r[j + 1].code in Codes(r);
      RankInjective(t, r[j].code, r[j + 1].code);
    }
  }

  /**
   The `forEach` of `createSources` as a fold with the source's accumulators,
   pushing each run onto `runs` as it closes.
   */
  function Segment(data: seq<Sample>, i: nat, cur: int, debut: int, count: nat, runs: seq<Run>): seq<Run>
    requires i <= |data|
    decreases |data| - i
  {
    if i == |data| then runs
    else if data[i].sleepStage != cur || i == |data| - 1 then
      Segment(data, i + 1, data[i].sleepStage, data[i].timestamp, 0, runs + [Run(cur, count + 1, debut, data[i].timestamp)])
    else
      Segment(data, i + 1, cur, debut, count + 1, runs)
  }

  /** The pushing fold appends to `runs` the runs `Scan` closes. */
  lemma {:induction false} SegmentIsScan(data: seq<Sample>, i: nat, cur: int, debut: int, count: nat, runs: seq<Run>)
    requires i <= |data|
    decreases |data| - i
    ensures Segment(data, i, cur, debut, count, runs) == runs + Scan(data, i, cur, debut, count)
  {
    if i < |data| {
      ScanStep(data, i, cur, debut, count);
      if data[i].sleepStage != cur || i == |data| - 1 {
        var run := Run(cur, count + 1, debut, data[i].timestamp);
        var tail := Scan(data, i + 1, data[i].sleepStage, data[i].timestamp, 0);
        SegmentIsScan(data, i + 1, data[i].sleepStage, data[i].timestamp, 0, runs + [run]);
        assert (runs + [run]) + tail == runs + ([run] + tail);
      } else {
        SegmentIsScan(data, i + 1, cur, debut, count + 1, runs);
      }
    } else {
      assert runs + [] == runs;
    }
  }

  /**
   `createSources` written as the source's loop, pushing each interval as it
   closes; it builds the same list as `CreateSources`.
   */
  method CreateSourcesLoop(data: seq<Sample>, t: Tables) returns (r: Result<seq<StageInterval>>)
    ensures r == CreateSources(data, t)
  {
    if |data| == 0 {
      return Failure(EmptySeries);
    }
    if |data| == 1 {
      return Failure(SingleSample);
    }
    var n := |data|;
    var sources: seq<StageInterval> := [];
    ghost var runs: seq<Run> := [];
    var currentStageDebut := data[0].timestamp;
    var currentStage := 0;
    var stagePortion: nat := 0;
    var i := 0;
    while i < n
      invariant 0 <= i <= n
      invariant Segment(data, i, currentStage, currentStageDebut, stagePortion, runs)
             == Segment(data, 0, 0, data[0].timestamp, 0, [])
      invariant sources == Intervals(t, n, runs)
    {
      stagePortion := stagePortion + 1;
      if data[i].sleepStage != currentStage || i == n - 1 {
        var run := Run(currentStage, stagePortion, currentStageDebut, data[i].timestamp);
        IntervalsSnoc(t, n, runs, run);
        sources := sources + [ToInterval(t, n, run)];
        runs := runs + [run];
        currentStageDebut := data[i].timestamp;
        currentStage := data[i].sleepStage;
        stagePortion := 0;
      }
      i := i + 1;
    }
    SegmentIsScan(data, 0, 0, data[0].timestamp, 0, []);
    assert [] + CreateRuns(data) == CreateRuns(data);
    return Success(sources);
  }
}
