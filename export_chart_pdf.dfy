/** The chart export: the sessions are copied and the copy sorted by date, then one point per
    session is pushed onto each of the four series (labels, arrow average, volley average,
    arrow deviation). The chart drawing and the PDF file are not part of this model. */
module ExportChartPdf {
  import opened Wrappers
  import opened Roots
  import opened SessionModel
  import opened ExportMetrics
  import ExportExcel
  import Text

  /* ---------------- the date order ---------------- */

  /** `new Date(a.date) - new Date(b.date) > 0`: `a` is later than `b`. With a date that does not
      parse the difference is NaN, which the sort treats as "equal". */
  predicate Later(a: Session, b: Session)
  {
    a.date.Some? && b.date.Some? && a.date.value > b.date.value
  }

  predicate AllDated(s: seq<Session>)
  {
    forall i :: 0 <= i < |s| ==> s[i].date.Some?
  }

  predicate SortedByDate(s: seq<Session>)
  {
    forall i, j :: 0 <= i < j < |s| ==> !Later(s[i], s[j])
  }

  /** Insertion of `x` behind every session not later than it: one step of a stable sort. */
  function Insert(x: Session, s: seq<Session>): (r: seq<Session>)
    ensures |r| == |s| + 1
    decreases |s|
  {
    if s == [] || !Later(s[|s| - 1], x) then s + [x]
    else Insert(x, s[..|s| - 1]) + [s[|s| - 1]]
  }

  lemma {:induction false} InsertPermutes(x: Session, s: seq<Session>)
    ensures multiset(Insert(x, s)) == multiset(s) + multiset{x}
    decreases |s|
  {
    if !(s == [] || !Later(s[|s| - 1], x)) {
      var init := s[..|s| - 1];
      assert s == init + [s[|s| - 1]];
      InsertPermutes(x, init);
    }
  }

  lemma {:induction false} InsertSorted(x: Session, s: seq<Session>)
    requires SortedByDate(s) && AllDated(s) && x.date.Some?
    ensures SortedByDate(Insert(x, s))
    decreases |s|
  {
    if !(s == [] || !Later(s[|s| - 1], x)) {
      var init := s[..|s| - 1];
      var last := s[|s| - 1];
      InsertSorted(x, init);
      InsertBelow(x, init, last);
    }
  }

  /** Inserting keeps every element not later than a bound that the inserted one and all the others respect. */
  lemma {:induction false} InsertBelow(x: Session, s: seq<Session>, bound: Session)
    requires !Later(x, bound)
    requires forall k :: 0 <= k < |s| ==> !Later(s[k], bound)
    ensures forall k :: 0 <= k < |s| + 1 ==> !Later(Insert(x, s)[k], bound)
    decreases |s|
  {
    if !(s == [] || !Later(s[|s| - 1], x)) {
      InsertBelow(x, s[..|s| - 1], bound);
    }
  }

  /** `sessions.slice().sort((a, b) => new Date(a.date) - new Date(b.date))`, as the result of a
      stable insertion sort. */
  function SortByDate(xs: seq<Session>): (r: seq<Session>)
    ensures |r| == |xs|
    decreases |xs|
  {
    if xs == [] then [] else Insert(xs[|xs| - 1], SortByDate(xs[..|xs| - 1]))
  }

  lemma {:induction false} SortPermutes(xs: seq<Session>)
    ensures multiset(SortByDate(xs)) == multiset(xs)
    decreases |xs|
  {
    if xs != [] {
      var init := xs[..|xs| - 1];
      assert xs == init + [xs[|xs| - 1]];
      SortPermutes(init);
      InsertPermutes(xs[|xs| - 1], SortByDate(init));
    }
  }

  /** With every date readable, the copy is in ascending date order. */
  lemma {:induction false} SortSorted(xs: seq<Session>)
    requires AllDated(xs)
    ensures SortedByDate(SortByDate(xs))
    decreases |xs|
  {
    if xs != [] {
      var init := xs[..|xs| - 1];
      assert AllDated(init);
      SortSorted(init);
      SortPermutes(init);
      var s := SortByDate(init);
      forall i | 0 <= i < |s|
        ensures s[i].date.Some?
      {
        assert s[i] in multiset(init);
        var j :| 0 <= j < |init| && init[j] == s[i];
      }
      InsertSorted(xs[|xs| - 1], s);
    }
  }

  /** Sort in place: a stable insertion sort on the date. */
  method SortSessions(a: array<Session>)
    modifies a
    ensures a[..] == SortByDate(old(a[..]))
  {
    ghost var input := a[..];
    var i := 0;
    while i < a.Length
      invariant 0 <= i <= a.Length
      invariant a[..i] == SortByDate(input[..i])
      invariant a[i..] == input[i..]
    {
      ghost var before := a[..];
      InsertInPlace(a, i);
      SortPrefixStep(input, i, before, a[..]);
      i := i + 1;
    }
    assert input[..a.Length] == input;
  }

  lemma SortPrefixStep(input: seq<Session>, i: nat, before: seq<Session>, after: seq<Session>)
    requires i < |input| == |before| == |after|
    requires before[..i] == SortByDate(input[..i]) && before[i..] == input[i..]
    requires after[..i + 1] == Insert(before[i], before[..i]) && after[i + 1..] == before[i + 1..]
    ensures after[..i + 1] == SortByDate(input[..i + 1])
    ensures after[i + 1..] == input[i + 1..]
  {
    assert before[i] == before[i..][0] == input[i];
    assert input[..i + 1][..i] == input[..i];
    assert before[i + 1..] == before[i..][1..];
    assert input[i + 1..] == input[i..][1..];
  }

  /** One pass: `a[i]` moves left past every later session. */
  method InsertInPlace(a: array<Session>, i: nat)
    requires i < a.Length
    modifies a
    ensures a[..i + 1] == Insert(old(a[i]), old(a[..i]))
    ensures a[i + 1..] == old(a[i + 1..])
  {
    ghost var sorted := a[..i];
    ghost var rest := a[i + 1..];
    var x := a[i];
    var j := ShiftLater(a, i, x);
    a[j] := x;
    InsertAt(x, sorted, j);
    assert a[..i + 1] == sorted[..j] + [x] + sorted[j..];
    forall k | i < k < a.Length
      ensures a[k] == rest[k - i - 1]
    {
      assert rest[k - i - 1] == old(a[k]);
    }
    assert a[i + 1..] == rest;
  }

  /** The shifting loop of one pass: every session later than `x` moves one place right, and the loop stops at
      the first element from the right that does not. */
  method ShiftLater(a: array<Session>, i: nat, x: Session) returns (j: nat)
    requires i < a.Length
    modifies a
    ensures j <= i
    ensures forall k :: 0 <= k < j ==> a[k] == old(a[k])
    ensures forall k :: j < k <= i ==> a[k] == old(a[k - 1])
    ensures forall k :: i < k < a.Length ==> a[k] == old(a[k])
    ensures j == 0 || !Later(old(a[j - 1]), x)
    ensures forall k :: j <= k < i ==> Later(old(a[k]), x)
  {
    j := i;
    while j > 0 && Later(a[j - 1], x)
      invariant 0 <= j <= i
      invariant forall k :: 0 <= k < j ==> a[k] == old(a[k])
      invariant forall k :: j < k <= i ==> a[k] == old(a[k - 1])
      invariant forall k :: i < k < a.Length ==> a[k] == old(a[k])
      invariant forall k :: j <= k < i ==> Later(old(a[k]), x)
    {
      a[j] := a[j - 1];
      j := j - 1;
    }
  }

  /** Where the insertion lands: behind the last element not later than `x`, with
      everything after it later. */
  lemma {:induction false} InsertAt(x: Session, s: seq<Session>, j: nat)
    requires j <= |s|
    requires j == 0 || !Later(s[j - 1], x)
    requires forall k :: j <= k < |s| ==> Later(s[k], x)
    ensures Insert(x, s) == s[..j] + [x] + s[j..]
    decreases |s|
  {
    if j == |s| {
      assert s[..j] == s && s[j..] == [];
    } else {
      var init := s[..|s| - 1];
      InsertAt(x, init, j);
      assert init[..j] == s[..j];
      assert s[j..] == init[j..] + [s[|s| - 1]];
    }
  }

  /* ---------------- the series ---------------- */

  /** The four series of the chart and the filter line printed above it. */
  datatype Chart = Chart(labels: seq<Option<int>>, arrowAvg: seq<real>, endAvg: seq<real>, arrowSd: seq<Root>,
                         filterLine: string)

  /** The `forEach` over the sorted copy: each series gets the session's point, in order. Each
      point is what the spreadsheet's trend row shows for the same session. */
  method BuildSeries(sorted: seq<Session>) returns (labels: seq<Option<int>>, arrowAvg: seq<real>, endAvg: seq<real>, arrowSd: seq<Root>)
    ensures |labels| == |arrowAvg| == |endAvg| == |arrowSd| == |sorted|
    ensures forall i :: 0 <= i < |sorted| ==>
              var t := ExportExcel.TrendRowOf(sorted[i]);
              labels[i] == t.date && arrowAvg[i] == t.arrowAverage && endAvg[i] == t.volleyAverage && arrowSd[i] == t.consistency
  {
    labels, arrowAvg, endAvg, arrowSd := [], [], [], [];
    var i := 0;
    while i < |sorted|
      invariant 0 <= i <= |sorted|
      invariant |labels| == |arrowAvg| == |endAvg| == |arrowSd| == i
      invariant forall k :: 0 <= k < i ==> IsPoint(sorted[k], labels[k], arrowAvg[k], endAvg[k], arrowSd[k])
    {
      var s := sorted[i];
      var volleys := VolleysOrEmpty(s);
      var arrows := VolleyArrows(volleys);
      labels := labels + [s.date];
      arrowAvg := arrowAvg + [Average(arrows)];
      endAvg := endAvg + [Average(RawTotals(volleys))];
      arrowSd := arrowSd + [StdDev(arrows)];
      i := i + 1;
    }
    forall k | 0 <= k < |sorted|
      ensures var t := ExportExcel.TrendRowOf(sorted[k]);
              labels[k] == t.date && arrowAvg[k] == t.arrowAverage && endAvg[k] == t.volleyAverage && arrowSd[k] == t.consistency
    {
      PointIsTrendRow(sorted[k], labels[k], arrowAvg[k], endAvg[k], arrowSd[k]);
    }
  }

  /** The point the loop pushes for one session. */
  predicate IsPoint(s: Session, day: Option<int>, arrowAvg: real, endAvg: real, arrowSd: Root)
  {
    var volleys := VolleysOrEmpty(s);
    && day == s.date
    && arrowAvg == Average(VolleyArrows(volleys))
    && endAvg == Average(RawTotals(volleys))
    && arrowSd == StdDev(VolleyArrows(volleys))
  }

  /** Each point is the spreadsheet's trend row for the same session. */
  lemma PointIsTrendRow(s: Session, day: Option<int>, arrowAvg: real, endAvg: real, arrowSd: Root)
    requires IsPoint(s, day, arrowAvg, endAvg, arrowSd)
    ensures var t := ExportExcel.TrendRowOf(s);
            day == t.date && arrowAvg == t.arrowAverage && endAvg == t.volleyAverage && arrowSd == t.consistency
  {
  }

  /** The filter line: dates, distance with " m", and target; a missing or empty distance or
      target prints "all", each on its own. */
  function FilterLine(f: ExportFilters): (r: string)
    ensures Text.Chosen(f.distance) && Text.Chosen(f.targetType) ==>
              r == "Filters: " + DateRange(f) + " | " + f.distance.value + " m | " + f.targetType.value
    ensures Text.Chosen(f.distance) && !Text.Chosen(f.targetType) ==>
              r == "Filters: " + DateRange(f) + " | " + f.distance.value + " m | all"
    ensures !Text.Chosen(f.distance) && Text.Chosen(f.targetType) ==>
              r == "Filters: " + DateRange(f) + " | all m | " + f.targetType.value
    ensures !Text.Chosen(f.distance) && !Text.Chosen(f.targetType) ==>
              r == "Filters: " + DateRange(f) + " | all m | all"
  {
    "Filters: " + DateRange(f) + " | " + Text.OrElse(f.distance, "all") + " m | " + Text.OrElse(f.targetType, "all")
  }

  /** Unlike the spreadsheet's "All", the distance-filter value `"all"` prints literally and
      reads the same as no distance filter: "all m". */
  lemma AllDistancePrintsLikeNone(f: ExportFilters)
    ensures FilterLine(f.(distance := Some("all"))) == FilterLine(f.(distance := None))
    ensures ExportExcel.DistanceCell(Some("all")) == "All"
  {
  }

  /** `exportChartPdf(sessions, filters)`: nothing for an empty list; otherwise the series over a
      sorted copy, leaving the caller's array as it was. */
  method ExportChart(sessions: array<Session>, f: ExportFilters) returns (chart: Option<Chart>)
    ensures chart.None? <==> sessions.Length == 0
    ensures chart.Some? ==>
              var sorted := SortByDate(sessions[..]);
              && |chart.value.labels| == |chart.value.arrowAvg| == |chart.value.endAvg| == |chart.value.arrowSd| == sessions.Length
              && chart.value.filterLine == FilterLine(f)
              && forall i :: 0 <= i < sessions.Length ==>
                   var t := ExportExcel.TrendRowOf(sorted[i]);
                   chart.value.labels[i] == t.date && chart.value.arrowAvg[i] == t.arrowAverage
                   && chart.value.endAvg[i] == t.volleyAverage && chart.value.arrowSd[i] == t.consistency
  {
    if sessions.Length == 0 {
      return None;
    }
    var copy := new Session[sessions.Length](i reads sessions requires 0 <= i < sessions.Length => sessions[i]);
    assert copy[..] == sessions[..];
    SortSessions(copy);
    var labels, arrowAvg, endAvg, arrowSd := BuildSeries(copy[..]);
    chart := Some(Chart(labels, arrowAvg, endAvg, arrowSd, FilterLine(f)));
  }

  /** The copy holds the same sessions, and when every date reads, they come oldest first. */
  lemma ChartOrder(xs: seq<Session>)
    ensures multiset(SortByDate(xs)) == multiset(xs)
    ensures AllDated(xs) ==> SortedByDate(SortByDate(xs))
  {
    SortPermutes(xs);
    if AllDated(xs) {
      SortSorted(xs);
    }
  }
}
