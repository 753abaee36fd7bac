/** Score aggregates over a flat list of arrows: mean, population standard deviation,
    percentages and the per-session summary with its first-half / second-half split. */
module Aggregates {
  import opened Wrappers
  import opened Reals
  import opened Roots
  import Seqs

  /** `mean(values)`: null for an empty list, otherwise sum over length. */
  function Mean(values: seq<real>): (r: Option<real>)
    ensures r.None? <==> values == []
    ensures r.Some? ==> r.value * |values| as real == Sum(values)
  {
    if |values| == 0 then None else Some(Average(values))
  }

  /** The mean lies between the smallest and the largest value. */
  lemma MeanBetweenExtremes(values: seq<real>, i: nat, j: nat)
    requires i < |values| && j < |values|
    requires forall k :: 0 <= k < |values| ==> values[i] <= values[k] <= values[j]
    ensures values[i] <= Mean(values).value <= values[j]
  {
    AverageBounds(values, values[i], values[j]);
  }

  /** `standardDeviation(values)`: null below two values, otherwise the root of the
      population variance (divided by n, not n - 1). */
  function StandardDeviation(values: seq<real>): (r: Option<Root>)
    ensures r.None? <==> |values| < 2
    ensures r.Some? ==> r.value.square * |values| as real == SumSquares(Deviations(values))
  {
    if |values| < 2 then None else Some(Root(PopVariance(values)))
  }

  /** The deviation is zero exactly for a constant list. */
  lemma StandardDeviationZero(values: seq<real>)
    requires |values| >= 2
    ensures StandardDeviation(values).value.square == 0.0 <==>
            forall i, j :: 0 <= i < |values| && 0 <= j < |values| ==> values[i] == values[j]
  {
    PopVarianceZero(values);
  }

  /** Adding the same amount to every value leaves the deviation unchanged. */
  lemma StandardDeviationShift(values: seq<real>, c: real)
    requires |values| >= 2
    ensures StandardDeviation(AddConst(values, c)) == StandardDeviation(values)
  {
    PopVarianceAddConst(values, c);
  }

  /** `percentage(items, predicate)`: null for no items, otherwise the share that satisfy the
      predicate, times 100. */
  function Percentage<T>(items: seq<T>, p: T -> bool): (r: Option<real>)
    ensures r.None? <==> items == []
    ensures r.Some? ==> 0.0 <= r.value <= 100.0
    ensures r.Some? ==> r.value * |items| as real == 100.0 * Seqs.Count(items, p) as real
  {
    if |items| == 0 then None else Some(Share(Seqs.Count(items, p), |items|))
  }

  /** One scored arrow as the statistics screen flattens it. */
  datatype ScoredArrow = ScoredArrow(score: real, isX: bool, volleyIndex: int)

  /** The summary object `computeSessionSummary` returns. */
  datatype SessionSummary = SessionSummary(
    arrowsCount: nat,
    totalVolleys: nat,
    averagePerVolley: Option<real>,
    xCount: nat,
    tenCount: nat,
    averageScore: Option<real>,
    stdDeviation: Option<Root>,
    xPercentage: Option<real>,
    tenPercentage: Option<real>,
    firstHalfAvg: Option<real>,
    secondHalfAvg: Option<real>)

  const ArrowsPerVolley: nat := 3

  /** `Math.floor(n / 3)`: the number of complete volleys among `n` arrows. */
  function CompleteVolleys(n: nat): (v: nat)
    ensures v == n / ArrowsPerVolley
    ensures v > 0 <==> n >= ArrowsPerVolley
  {
    n / ArrowsPerVolley
  }

  function Scores(arrows: seq<ScoredArrow>): (r: seq<real>)
    ensures |r| == |arrows|
    ensures forall i :: 0 <= i < |arrows| ==> r[i] == arrows[i].score
  {
    seq(|arrows|, i requires 0 <= i < |arrows| => arrows[i].score)
  }

  predicate InFirstHalf(a: ScoredArrow) { a.volleyIndex < 10 }
  predicate InSecondHalf(a: ScoredArrow) { a.volleyIndex >= 10 }
  predicate MarkedX(a: ScoredArrow) { a.isX }
  predicate ScoredTen(a: ScoredArrow) { a.score == 10.0 }

  /** `totalVolleys > 0 ? totalScore / totalVolleys : null`. */
  function PerVolley(totalScore: real, totalVolleys: nat): (r: Option<real>)
    ensures r.None? <==> totalVolleys == 0
    ensures r.Some? ==> r.value * totalVolleys as real == totalScore
  {
    if totalVolleys > 0 then Some(Quotient(totalScore, totalVolleys)) else None
  }

  /** `computeSessionSummary(arrows)`. */
  function ComputeSessionSummary(arrows: seq<ScoredArrow>): (r: Option<SessionSummary>)
    ensures r.None? <==> arrows == []
    ensures r.Some? ==> r.value.arrowsCount == |arrows|
    ensures r.Some? ==> r.value.totalVolleys == |arrows| / ArrowsPerVolley
    ensures r.Some? ==> (r.value.averagePerVolley.None? <==> |arrows| < ArrowsPerVolley)
    ensures r.Some? ==> r.value.averagePerVolley == PerVolley(Sum(Scores(arrows)), r.value.totalVolleys)
    ensures r.Some? ==> r.value.averageScore == Mean(Scores(arrows)) && r.value.averageScore.Some?
    ensures r.Some? ==> r.value.stdDeviation == StandardDeviation(Scores(arrows))
    ensures r.Some? ==> (r.value.stdDeviation.None? <==> |arrows| < 2)
    ensures r.Some? ==> r.value.xCount == Seqs.Count(arrows, MarkedX) && r.value.tenCount == Seqs.Count(arrows, ScoredTen)
    ensures r.Some? ==> r.value.xPercentage == Some(Share(r.value.xCount, |arrows|))
    ensures r.Some? ==> r.value.tenPercentage == Some(Share(r.value.tenCount, |arrows|))
  {
    if |arrows| == 0 then None
    else
      var scores := Scores(arrows);
      var totalVolleys := CompleteVolleys(|arrows|);
      var totalScore := Sum(scores);
      var averagePerVolley := PerVolley(totalScore, totalVolleys);
      var firstHalf := Seqs.Filter(arrows, InFirstHalf);
      var secondHalf := Seqs.Filter(arrows, InSecondHalf);
      var xCount := Seqs.Count(arrows, MarkedX);
      var tenCount := Seqs.Count(arrows, ScoredTen);
      Some(SessionSummary(
        |arrows|,
        totalVolleys,
        averagePerVolley,
        xCount,
        tenCount,
        Mean(scores),
        StandardDeviation(scores),
        Some(Share(xCount, |arrows|)),
        Some(Share(tenCount, |arrows|)),
        if |firstHalf| > 0 then Mean(Scores(firstHalf)) else None,
        if |secondHalf| > 0 then Mean(Scores(secondHalf)) else None))
  }

  /** The X and ten counts never exceed the arrow count, and their percentages lie in [0, 100]. */
  lemma SummaryCounts(arrows: seq<ScoredArrow>)
    requires arrows != []
    ensures var s := ComputeSessionSummary(arrows).value;
            && s.xCount == Seqs.Count(arrows, MarkedX) <= |arrows|
            && s.tenCount == Seqs.Count(arrows, ScoredTen) <= |arrows|
            && s.xPercentage.Some? && 0.0 <= s.xPercentage.value <= 100.0
            && s.tenPercentage.Some? && 0.0 <= s.tenPercentage.value <= 100.0
  {
  }

  /** Each half's average is null exactly when no arrow falls in that half, and is otherwise
      the mean score of the arrows in it. */
  lemma SummaryHalves(arrows: seq<ScoredArrow>)
    requires arrows != []
    ensures var s := ComputeSessionSummary(arrows).value;
            && (s.firstHalfAvg.None? <==> Seqs.Filter(arrows, InFirstHalf) == [])
            && (s.secondHalfAvg.None? <==> Seqs.Filter(arrows, InSecondHalf) == [])
            && (s.firstHalfAvg.Some? ==> s.firstHalfAvg == Mean(Scores(Seqs.Filter(arrows, InFirstHalf))))
            && (s.secondHalfAvg.Some? ==> s.secondHalfAvg == Mean(Scores(Seqs.Filter(arrows, InSecondHalf))))
  {
  }

  /** The two halves partition the arrows: every arrow is in exactly one of them. */
  lemma HalvesPartition(arrows: seq<ScoredArrow>)
    ensures |Seqs.Filter(arrows, InFirstHalf)| + |Seqs.Filter(arrows, InSecondHalf)| == |arrows|
    ensures multiset(Seqs.Filter(arrows, InFirstHalf)) + multiset(Seqs.Filter(arrows, InSecondHalf)) == multiset(arrows)
  {
    Seqs.FilterPartition(arrows, InFirstHalf, InSecondHalf);
  }

  /** The X count and the ten count are independent: an X-flagged 9 counts as an X but not as a
      ten, and an unflagged 10 counts as a ten but not as an X. */
  lemma XAndTenIndependent()
    ensures var s := ComputeSessionSummary([ScoredArrow(9.0, true, 0), ScoredArrow(10.0, false, 0)]).value;
            s.xCount == 1 && s.tenCount == 1
  {
    var x, t := ScoredArrow(9.0, true, 0), ScoredArrow(10.0, false, 0);
    assert [x, t] == [x] + [t];
    assert [x] == [] + [x];
    Seqs.FilterAppend([], x, MarkedX);
    Seqs.FilterAppend([x], t, MarkedX);
    Seqs.FilterAppend([], x, ScoredTen);
    Seqs.FilterAppend([x], t, ScoredTen);
  }

  /** Scores 10 (an X), 9 and 8 in the first volley. */
  lemma WorkedExample()
    ensures var s := ComputeSessionSummary([ScoredArrow(10.0, true, 0), ScoredArrow(9.0, false, 0), ScoredArrow(8.0, false, 0)]).value;
            && s.arrowsCount == 3 && s.xCount == 1 && s.tenCount == 1
            && s.averageScore == Some(9.0) && s.totalVolleys == 1 && s.averagePerVolley == Some(27.0)
            && s.firstHalfAvg == Some(9.0) && s.secondHalfAvg.None?
  {
    var x, n, e := ScoredArrow(10.0, true, 0), ScoredArrow(9.0, false, 0), ScoredArrow(8.0, false, 0);
    var a := [x, n, e];
    assert a == [x, n] + [e];
    assert [x, n] == [x] + [n];
    assert [x] == [] + [x];
    Seqs.FilterAppend([], x, MarkedX);
    Seqs.FilterAppend([x], n, MarkedX);
    Seqs.FilterAppend([x, n], e, MarkedX);
    Seqs.FilterAppend([], x, ScoredTen);
    Seqs.FilterAppend([x], n, ScoredTen);
    Seqs.FilterAppend([x, n], e, ScoredTen);
    Seqs.FilterAll(a, InFirstHalf);
    Seqs.FilterNone(a, InSecondHalf);
    var sc := Scores(a);
    assert sc == [10.0, 9.0, 8.0];
    assert sc[..2] == [10.0, 9.0];
    assert sc[..2][..1] == [10.0];
    assert sc[..2][..1][..0] == [];
    assert Sum([10.0]) == 10.0;
    assert Sum([10.0, 9.0]) == 19.0;
    assert Sum(sc) == 27.0;
  }
}
