/** The performance summary card: the half-to-half trend (delta, colour, signed label and text),
    the consistency grade read from the standard deviation, and when the trend section shows. */
module StatisticsSummary {
  import opened Wrappers
  import opened Roots
  import Seqs
  import Aggregates

  /* ---------------- trend ---------------- */

  /** `delta`: second half minus first half, when both halves have an average. */
  function Delta(first: Option<real>, second: Option<real>): (r: Option<real>)
    ensures r.Some? <==> first.Some? && second.Some?
    ensures r.Some? ==> r.value + first.value == second.value
  {
    if first.Some? && second.Some? then Some(second.value - first.value) else None
  }

  /** The delta is non-negative exactly when the second half is at least as good. */
  lemma DeltaSign(first: real, second: real)
    ensures Delta(Some(first), Some(second)).value >= 0.0 <==> second >= first
  {
  }

  const NeutralColor: string := "#6B7280"
  const RisingColor: string := "#059669"
  const FallingColor: string := "#DC2626"

  /** `trendColor`. */
  function TrendColor(delta: Option<real>): (r: string)
    ensures r == NeutralColor <==> delta.None?
    ensures r == RisingColor <==> delta.Some? && delta.value >= 0.0
    ensures r == FallingColor <==> delta.Some? && delta.value < 0.0
  {
    if delta.None? then NeutralColor else if delta.value >= 0.0 then RisingColor else FallingColor
  }

  /** `trendLabel`: a dash, or the delta with a `+` sign in front when it is not negative (the
      number's own formatting, minus sign included, is left abstract). */
  datatype TrendLabel = Dash | Signed(prefix: string, value: real)

  function TrendLabelOf(delta: Option<real>): (r: TrendLabel)
    ensures r.Dash? <==> delta.None?
    ensures r.Signed? ==> r.value == delta.value
    ensures r.Signed? ==> (r.prefix == "+" <==> delta.value >= 0.0)
    ensures r.Signed? ==> (r.prefix == "" <==> delta.value < 0.0)
  {
    if delta.None? then Dash else Signed(if delta.value >= 0.0 then "+" else "", delta.value)
  }

  const GoodFinish: string := "Buon finale"
  const SecondHalfDecline: string := "Leggero calo nella seconda met\U{00E0}"

  /** `trendText`. */
  function TrendText(delta: Option<real>): (r: string)
    ensures r == "" <==> delta.None?
    ensures r == GoodFinish <==> delta.Some? && delta.value >= 0.0
    ensures r == SecondHalfDecline <==> delta.Some? && delta.value < 0.0
  {
    if delta.None? then "" else if delta.value >= 0.0 then GoodFinish else SecondHalfDecline
  }

  /** Colour, label and text follow the same three-way split of the delta. */
  lemma TrendPartsAgree(delta: Option<real>)
    ensures TrendColor(delta) == NeutralColor <==> TrendText(delta) == "" && TrendLabelOf(delta).Dash?
    ensures TrendColor(delta) == RisingColor <==> TrendText(delta) == GoodFinish && TrendLabelOf(delta) == Signed("+", delta.value)
    ensures TrendColor(delta) == FallingColor <==> TrendText(delta) == SecondHalfDecline && TrendLabelOf(delta) == Signed("", delta.value)
  {
    assert GoodFinish != SecondHalfDecline by { assert GoodFinish[0] != SecondHalfDecline[0]; }
  }

  /* ---------------- consistency ---------------- */

  const Excellent: string := "Ottima"
  const Good: string := "Buona"
  const NeedsWork: string := "Da migliorare"

  /** `stdDeviation < 2`, with a null deviation coerced to 0. */
  predicate DeviationBelow(sd: Option<Root>, c: real)
  {
    if sd.None? then 0.0 < c else Below(sd.value, c)
  }

  /** `consistency`. */
  function Consistency(sd: Option<Root>): (r: string)
    ensures r == Excellent <==> sd.None? || Below(sd.value, 2.0)
    ensures r == Good <==> sd.Some? && !Below(sd.value, 2.0) && Below(sd.value, 3.0)
    ensures r == NeedsWork <==> sd.Some? && !Below(sd.value, 3.0)
  {
    if DeviationBelow(sd, 2.0) then Excellent else if DeviationBelow(sd, 3.0) then Good else NeedsWork
  }

  function GradeRank(grade: string): nat
  {
    if grade == Excellent then 0 else if grade == Good then 1 else 2
  }

  /** A smaller deviation never gets a worse grade. */
  lemma ConsistencyMonotone(a: Root, b: Root)
    requires AtMost(a, b)
    ensures GradeRank(Consistency(Some(a))) <= GradeRank(Consistency(Some(b)))
  {
  }

  /** A single arrow has no standard deviation, and the coerced 0 grades it "Ottima". */
  lemma SingleArrowIsExcellent(a: Aggregates.ScoredArrow)
    ensures Consistency(Aggregates.ComputeSessionSummary([a]).value.stdDeviation) == Excellent
  {
  }

  /* ---------------- the card ---------------- */

  /** The trend section's contents. */
  datatype Trend = Trend(firstHalf: real, secondHalf: real, color: string, signed: TrendLabel, text: string)

  datatype SummaryCard =
    | NoData
    | Card(averageScore: Option<real>, averagePerSession: Option<real>, consistency: string,
           xPercentage: Option<real>, tenPercentage: Option<real>, xCount: nat, tenCount: nat,
           arrowsCount: nat, trend: Option<Trend>)

  /** `StatisticsSummary`. */
  function Render(summary: Option<Aggregates.SessionSummary>, averagePerSession: Option<real>): (r: SummaryCard)
    ensures r.NoData? <==> summary.None?
    ensures r.Card? ==> r.consistency == Consistency(summary.value.stdDeviation)
    ensures r.Card? ==> (r.trend.Some? <==> summary.value.firstHalfAvg.Some? && summary.value.secondHalfAvg.Some?)
    ensures r.Card? && r.trend.Some? ==>
              var d := Delta(summary.value.firstHalfAvg, summary.value.secondHalfAvg);
              && r.trend.value.firstHalf == summary.value.firstHalfAvg.value
              && r.trend.value.secondHalf == summary.value.secondHalfAvg.value
              && r.trend.value.color == TrendColor(d) && r.trend.value.signed == TrendLabelOf(d)
              && r.trend.value.text == TrendText(d) && d.Some?
    ensures r.Card? ==> r.averagePerSession == averagePerSession && r.arrowsCount == summary.value.arrowsCount
    ensures r.Card? ==> r.averageScore == summary.value.averageScore
    ensures r.Card? ==> r.xPercentage == summary.value.xPercentage && r.tenPercentage == summary.value.tenPercentage
    ensures r.Card? ==> r.xCount == summary.value.xCount && r.tenCount == summary.value.tenCount
  {
    if summary.None? then NoData
    else
      var s := summary.value;
      var delta := Delta(s.firstHalfAvg, s.secondHalfAvg);
      var trend := if s.firstHalfAvg.Some? && s.secondHalfAvg.Some?
        then Some(Trend(s.firstHalfAvg.value, s.secondHalfAvg.value, TrendColor(delta), TrendLabelOf(delta), TrendText(delta)))
        else None;
      Card(s.averageScore, averagePerSession, Consistency(s.stdDeviation), s.xPercentage, s.tenPercentage,
           s.xCount, s.tenCount, s.arrowsCount, trend)
  }

  /** Over the screen's arrows: no card without arrows, and the trend section shows exactly when
      both the first ten and the later volleys contain a scored arrow. */
  lemma RenderOfArrows(arrows: seq<Aggregates.ScoredArrow>, averagePerSession: Option<real>)
    ensures var r := Render(Aggregates.ComputeSessionSummary(arrows), averagePerSession);
            && (r.NoData? <==> arrows == [])
            && (r.Card? ==> (r.trend.Some? <==>
                  Seqs.Filter(arrows, Aggregates.InFirstHalf) != [] && Seqs.Filter(arrows, Aggregates.InSecondHalf) != []))
  {
    if arrows != [] {
      Aggregates.SummaryHalves(arrows);
    }
  }

  /** Arrows all in the first ten volleys show no trend, however many there are. */
  lemma NoTrendWithoutSecondHalf(arrows: seq<Aggregates.ScoredArrow>)
    requires arrows != []
    requires forall i :: 0 <= i < |arrows| ==> arrows[i].volleyIndex < 10
    ensures Render(Aggregates.ComputeSessionSummary(arrows), None).trend.None?
  {
    Aggregates.SummaryHalves(arrows);
    Seqs.FilterNone(arrows, Aggregates.InSecondHalf);
  }
}
