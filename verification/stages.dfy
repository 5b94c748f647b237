/**
 Shared vocabulary of the sleep-stage chart preprocessing: one sample of the
 night, the two stage tables (label per stage code, labels in display order),
 the JavaScript `indexOf` / `findIndex` search, and the failures of the model.
 */
module Stages {

  type Label = string

  /** A value that JavaScript may leave `undefined`. */
  datatype Option<+T> = None | Some(value: T)

  /** A computation that either yields a value or stops with a failure. */
  datatype Result<+T> = Success(value: T) | Failure(error: SeriesError)

  /** Inputs for which the chart data is not defined. */
  datatype SeriesError =
    | EmptySeries   // no sample at all
    | SingleSample  // one sample: the percentage denominator is zero

  /** An exact non-negative rational `num / den`, in place of a JavaScript number. */
  datatype Ratio = Ratio(num: nat, den: nat)

  /** The value of a ratio whose denominator is not zero. */
  function Value(q: Ratio): real
    requires q.den > 0
  {
    q.num as real / q.den as real
  }

  /** Every ratio of the list has denominator `d`. */
  predicate SameDenominator(qs: seq<Ratio>, d: nat) {
    forall i :: 0 <= i < |qs| ==> qs[i].den == d
  }

  /** Sum of the numerators of a list of ratios. */
  function SumNums(qs: seq<Ratio>): nat {
    if qs == [] then 0 else qs[0].num + SumNums(qs[1..])
  }

  /** Sum of the values of a list of ratios with non-zero denominators. */
  function SumValues(qs: seq<Ratio>): real
    requires forall i :: 0 <= i < |qs| ==> qs[i].den > 0
  {
    if qs == [] then 0.0 else Value(qs[0]) + SumValues(qs[1..])
  }

  /** Adding two fractions over the same denominator. */
  lemma AddFractions(a: real, b: real, e: real)
    requires e != 0.0
    ensures a / e + b / e == (a + b) / e
  {
    var x, y := a / e, b / e;
    assert x * e == a && y * e == b;
    assert (x + y) * e == a + b;
  }

  /** Ratios over one denominator add up to the sum of their numerators over it. */
  lemma {:induction false} SumOverCommonDenominator(qs: seq<Ratio>, d: nat)
    requires 0 < d && SameDenominator(qs, d)
    ensures SumValues(qs) == SumNums(qs) as real / d as real
  {
    if qs != [] {
      SumOverCommonDenominator(qs[1..], d);
      var a, b, e := qs[0].num as real, SumNums(qs[1..]) as real, d as real;
      AddFractions(a, b, e);
    }
  }

  /** One row of the hypnogram: an opaque instant and a stage code. */
  datatype Sample = Sample(timestamp: int, sleepStage: int)

  /** `states` gives the label of each stage code; `statesOrder` the display order. */
  datatype Tables = Tables(states: seq<Label>, statesOrder: seq<Label>)

  /** The tables of the application: codes W, N1, N2, N3, REM, displayed as W, REM, N1, N2, N3. */
  const StandardTables: Tables :=
    Tables(["W", "N1", "N2", "N3", "REM"], ["W", "REM", "N1", "N2", "N3"])

  /** Five stages, and the display order lists each stage label (the same five labels). */
  predicate Consistent(t: Tables) {
    && |t.states| == 5
    && |t.statesOrder| == 5
    && multiset(t.states) == multiset(t.statesOrder)
  }

  /** No two stage codes share a label. */
  predicate DistinctLabels(t: Tables) {
    forall a, b :: 0 <= a < b < |t.states| ==> t.states[a] != t.states[b]
  }

  /** Every sample carries one of the five stage codes. */
  predicate ValidCodes(data: seq<Sample>) {
    forall k :: 0 <= k < |data| ==> 0 <= data[k].sleepStage < 5
  }

  /**
   The first position whose element satisfies `p`, or -1 when there is none
   (`Array.prototype.findIndex`).
   */
  function FirstIndexWhere<T>(xs: seq<T>, p: T -> bool): (k: int)
    ensures -1 <= k < |xs|
    ensures k == -1 <==> forall i :: 0 <= i < |xs| ==> !p(xs[i])
    ensures 0 <= k ==> p(xs[k]) && forall i :: 0 <= i < k ==> !p(xs[i])
  {
    if xs == [] then -1
    else if p(xs[0]) then 0
    else
      var k := FirstIndexWhere(xs[1..], p);
      if k == -1 then -1 else k + 1
  }

  /** `states[code]`: `undefined` outside the table. */
  function Lookup(states: seq<Label>, code: int): (r: Option<Label>)
    ensures r.Some? <==> 0 <= code < |states|
    ensures r.Some? ==> r.value == states[code]
  {
    if 0 <= code < |states| then Some(states[code]) else None
  }

  /** `Array.prototype.indexOf`: `undefined` is never found. */
  function IndexOf(xs: seq<Label>, x: Option<Label>): (k: int)
    ensures -1 <= k < |xs|
    ensures k == -1 <==> x.None? || x.value !in xs
    ensures 0 <= k ==> x.Some? && xs[k] == x.value && forall i :: 0 <= i < k ==> xs[i] != x.value
  {
    match x
    case None => -1
    case Some(name) => FirstIndexWhere(xs, (y: Label) => y == name)
  }

  /** Display rank of a stage code: `statesOrder.indexOf(states[code])`. */
  function Rank(t: Tables, code: int): (k: int)
    ensures -1 <= k < |t.statesOrder|
    ensures k == -1 <==> !(0 <= code < |t.states|) || t.states[code] !in t.statesOrder
    ensures 0 <= k ==>
      && 0 <= code < |t.states|
      && t.statesOrder[k] == t.states[code]
      && forall i :: 0 <= i < k ==> t.statesOrder[i] != t.states[code]
  {
    IndexOf(t.statesOrder, Lookup(t.states, code))
  }

  /** With consistent tables, every valid code has a display rank in 0..4. */
  lemma RankInRange(t: Tables, code: int)
    requires Consistent(t)
    requires 0 <= code < 5
    ensures 0 <= Rank(t, code) < 5
    ensures t.statesOrder[Rank(t, code)] == t.states[code]
  {
    assert t.states[code] in multiset(t.states);
    assert t.states[code] in multiset(t.statesOrder);
  }

  /** With consistent tables and distinct labels, distinct valid codes have distinct ranks. */
  lemma RankInjective(t: Tables, a: int, b: int)
    requires Consistent(t) && DistinctLabels(t)
    requires 0 <= a < 5 && 0 <= b < 5
    requires a != b
    ensures Rank(t, a) != Rank(t, b)
  {
    RankInRange(t, a);
    RankInRange(t, b);
    if a < b {
      assert t.states[a] != t.states[b];
    } else {
      assert t.states[b] != t.states[a];
    }
  }

  /** A code's rank is the first display position holding its label. */
  lemma RankAt(t: Tables, code: int, r: int)
    requires 0 <= code < |t.states|
    requires 0 <= r < |t.statesOrder| && t.statesOrder[r] == t.states[code]
    requires forall i :: 0 <= i < r ==> t.statesOrder[i] != t.states[code]
    ensures Rank(t, code) == r
  {
  }

  /** The application's tables list the same five labels in both orders. */
  lemma StandardTablesConsistent()
    ensures Consistent(StandardTables)
  {
    var s := StandardTables.states;
    var o := StandardTables.statesOrder;
    assert o == [s[0]] + [s[4]] + s[1..4];
    assert s == [s[0]] + s[1..4] + [s[4]];
  }

  /** The application's five stage labels are pairwise distinct. */
  lemma StandardTablesDistinct()
    ensures DistinctLabels(StandardTables)
  {
    var s := StandardTables.states;
    forall a, b | 0 <= a < b < |s|
      ensures s[a] != s[b]
    {
      assert s[a][0] != s[b][0] || s[a][|s[a]| - 1] != s[b][|s[b]| - 1];
    }
  }

  /** The application's display ranks: W -> 0, N1 -> 2, N2 -> 3, N3 -> 4, REM -> 1. */
  lemma StandardTablesRanks()
    ensures Rank(StandardTables, 0) == 0
    ensures Rank(StandardTables, 1) == 2
    ensures Rank(StandardTables, 2) == 3
    ensures Rank(StandardTables, 3) == 4
    ensures Rank(StandardTables, 4) == 1
  {
    var t := StandardTables;
    RankAt(t, 0, 0);
    RankAt(t, 1, 2);
    RankAt(t, 2, 3);
    RankAt(t, 3, 4);
    RankAt(t, 4, 1);
  }
}
