/** The spreadsheet export: the Summary sheet (filters used and key metrics over every volley),
    and the Sessions, Volley Details and Performance Trend sheets, whose rows are pushed one
    session (or one volley) at a time. Cell formatting, rounding and the workbook file itself
    are not part of this model; a row keeps the exact figures. */
module ExportExcel {
  import opened Wrappers
  import opened Reals
  import opened Roots
  import opened SessionModel
  import opened ExportMetrics
  import SessionList

  /* ---------------- the Summary sheet ---------------- */

  /** A filter cell: "All" for the value `"all"`, otherwise the value itself (an absent key is
      an empty cell). */
  function FilterCell(v: Option<string>): (r: Option<string>)
    ensures v == Some(SessionList.All) ==> r == Some("All")
    ensures v != Some(SessionList.All) ==> r == v
  {
    if v == Some(SessionList.All) then Some("All") else v
  }

  /** The distance cell: "All", or the value followed by " m" (an absent key reads "undefined"). */
  function DistanceCell(v: Option<string>): (r: string)
    ensures v == Some(SessionList.All) ==> r == "All"
    ensures v != Some(SessionList.All) ==> r == AttrText(v) + " m"
  {
    if v == Some(SessionList.All) then "All" else AttrText(v) + " m"
  }

  /** The distance cell reads "All" only when no distance was chosen. */
  lemma DistanceCellAllOnlyForAll(v: Option<string>)
    ensures DistanceCell(v) == "All" <==> v == Some(SessionList.All)
  {
    if v != Some(SessionList.All) {
      var t := AttrText(v) + " m";
      assert t[|t| - 1] == 'm';
      assert "All"[2] == 'l';
    }
  }

  datatype FiltersUsed = FiltersUsed(dateRange: string, distance: string, target: Option<string>,
                                     environment: Option<string>, kind: Option<string>)

  datatype Summary = Summary(filters: FiltersUsed, totalSessions: nat, totalVolleys: nat, metrics: Metrics)

  /** `sessions.flatMap(s => s.volleys || [])`. */
  function AllVolleys(ss: seq<Session>): (r: seq<Volley>)
    decreases |ss|
  {
    if ss == [] then [] else AllVolleys(ss[..|ss| - 1]) + VolleysOrEmpty(ss[|ss| - 1])
  }

  /** `summaryData`: the filters in use and the key metrics over every volley of every session. */
  function SummaryOf(ss: seq<Session>, f: ExportFilters): (r: Summary)
    ensures r.totalSessions == |ss| && r.totalVolleys == |AllVolleys(ss)|
    ensures r.metrics == MetricsOf(AllVolleys(ss))
    ensures r.filters.target == FilterCell(f.targetType) && r.filters.distance == DistanceCell(f.distance)
    ensures r.filters.dateRange == DateRange(f)
    ensures r.filters.environment == FilterCell(f.environment) && r.filters.kind == FilterCell(f.kind)
  {
    Summary(FiltersUsed(DateRange(f), DistanceCell(f.distance), FilterCell(f.targetType),
                        FilterCell(f.environment), FilterCell(f.kind)),
            |ss|, |AllVolleys(ss)|, MetricsOf(AllVolleys(ss)))
  }

  /* ---------------- the Sessions sheet ---------------- */

  const SessionsHeader: seq<string> := ["Date", "Session name", "Distance (m)", "Target", "Environment",
    "Session type", "Total arrows", "Total score", "Arrow average", "Volley average", "Consistency (Std Dev)"]

  /** One row of the Sessions sheet; the date is the parsed date, its formatting left out. */
  datatype SessionRow = SessionRow(date: Option<int>, name: string, distance: Distance, targetType: Option<string>,
                                   environment: Option<string>, kind: Option<string>, metrics: Metrics)

  function SessionRowOf(s: Session): (r: SessionRow)
    ensures r.metrics == MetricsOf(VolleysOrEmpty(s))
    ensures r.name == (if s.name.Some? then s.name.value else "")
  {
    SessionRow(s.date, s.name.GetOr(""), s.distance, s.targetType, s.environment, s.kind, MetricsOf(VolleysOrEmpty(s)))
  }

  function SessionRows(ss: seq<Session>): (r: seq<SessionRow>)
    ensures |r| == |ss|
    ensures forall i :: 0 <= i < |ss| ==> r[i] == SessionRowOf(ss[i])
  {
    seq(|ss|, i requires 0 <= i < |ss| => SessionRowOf(ss[i]))
  }

  /** `sessions.forEach(s => sessionsData.push(...))`: one row per session, in order. */
  method BuildSessionsSheet(ss: seq<Session>) returns (rows: seq<SessionRow>)
    ensures |rows| == |ss|
    ensures rows == SessionRows(ss)
  {
    rows := [];
    var i := 0;
    while i < |ss|
      invariant 0 <= i <= |ss|
      invariant |rows| == i
      invariant forall k :: 0 <= k < i ==> rows[k] == SessionRowOf(ss[k])
    {
      rows := rows + [SessionRowOf(ss[i])];
      i := i + 1;
    }
  }

  /** The sessions' total scores, added up. */
  function RowsTotal(rows: seq<SessionRow>): real
    decreases |rows|
  {
    if rows == [] then 0.0 else RowsTotal(rows[..|rows| - 1]) + rows[|rows| - 1].metrics.totalScore
  }

  /** The sessions' arrow counts, added up. */
  function RowsArrows(rows: seq<SessionRow>): nat
    decreases |rows|
  {
    if rows == [] then 0 else RowsArrows(rows[..|rows| - 1]) + rows[|rows| - 1].metrics.arrowsCount
  }

  /** The Summary's total score and arrow count are the sums of the Sessions sheet's columns. */
  lemma SummaryAddsUpSessions(ss: seq<Session>, f: ExportFilters)
    ensures SummaryOf(ss, f).metrics.totalScore == RowsTotal(SessionRows(ss))
    ensures SummaryOf(ss, f).metrics.arrowsCount == RowsArrows(SessionRows(ss))
  {
    ColumnsAddUp(ss);
  }

  lemma ColumnsAddUp(ss: seq<Session>)
    ensures TotalScore(AllVolleys(ss)) == RowsTotal(SessionRows(ss))
    ensures |VolleyArrows(AllVolleys(ss))| == RowsArrows(SessionRows(ss))
  {
    TotalColumnAddsUp(ss);
    ArrowsColumnAddsUp(ss);
  }

  lemma SessionRowsSnoc(ss: seq<Session>)
    requires ss != []
    ensures SessionRows(ss) == SessionRows(ss[..|ss| - 1]) + [SessionRowOf(ss[|ss| - 1])]
  {
  }

  lemma RowsSnoc(xs: seq<SessionRow>, r: SessionRow)
    ensures RowsTotal(xs + [r]) == RowsTotal(xs) + r.metrics.totalScore
    ensures RowsArrows(xs + [r]) == RowsArrows(xs) + r.metrics.arrowsCount
  {
    assert (xs + [r])[..|xs|] == xs;
  }

  lemma {:induction false} TotalColumnAddsUp(ss: seq<Session>)
    ensures TotalScore(AllVolleys(ss)) == RowsTotal(SessionRows(ss))
    decreases |ss|
  {
    if ss != [] {
      var init, last := ss[..|ss| - 1], ss[|ss| - 1];
      TotalColumnAddsUp(init);
      assert AllVolleys(ss) == AllVolleys(init) + VolleysOrEmpty(last);
      TotalScoreConcat(AllVolleys(init), VolleysOrEmpty(last));
      SessionRowsSnoc(ss);
      RowsSnoc(SessionRows(init), SessionRowOf(last));
      assert SessionRowOf(last).metrics.totalScore == TotalScore(VolleysOrEmpty(last));
    }
  }

  lemma {:induction false} ArrowsColumnAddsUp(ss: seq<Session>)
    ensures |VolleyArrows(AllVolleys(ss))| == RowsArrows(SessionRows(ss))
    decreases |ss|
  {
    if ss != [] {
      var init, last := ss[..|ss| - 1], ss[|ss| - 1];
      ArrowsColumnAddsUp(init);
      assert AllVolleys(ss) == AllVolleys(init) + VolleysOrEmpty(last);
      VolleyArrowsConcat(AllVolleys(init), VolleysOrEmpty(last));
      SessionRowsSnoc(ss);
      RowsSnoc(SessionRows(init), SessionRowOf(last));
      assert SessionRowOf(last).metrics.arrowsCount == |VolleyArrows(VolleysOrEmpty(last))|;
    }
  }

  /* ---------------- the Volley Details sheet ---------------- */

  const VolleyHeader: seq<string> := ["Date", "Session name", "Volley #", "Arrow 1", "Arrow 2", "Arrow 3",
    "Volley total", "Arrow average"]

  /** One row of Volley Details. An arrow cell is `None` for the dash; the arrow average is
      `None` for the dash and `Some(NonFinite)` when the total itself is not a finite number. */
  datatype VolleyRow = VolleyRow(date: Option<int>, name: string, number: nat,
                                 arrow1: Option<real>, arrow2: Option<real>, arrow3: Option<real>,
                                 total: real, arrowAverage: Option<Num>)

  /** `arrows[k] ?? "—"`. */
  function ArrowCell(m: seq<Num>, k: nat): (r: Option<real>)
    ensures r.Some? <==> k < |m| && m[k].Fin?
    ensures r.Some? ==> r.value == m[k].v
  {
    if k < |m| && m[k].Fin? then Some(m[k].v) else None
  }

  /** `valid.length ? v.total / valid.length : "—"`: the total shared out over the arrows that
      were shot. */
  function VolleyArrowAverage(v: Volley): (r: Option<Num>)
    ensures r.None? <==> Finite(MappedArrows(v)) == []
    ensures r.Some? ==> (r.value.Fin? <==> v.total.Fin?)
    ensures r.Some? && r.value.Fin? ==> r.value.v * |Finite(MappedArrows(v))| as real == v.total.v
  {
    var valid := Finite(MappedArrows(v));
    if valid == [] then None
    else if v.total.Fin? then Some(Fin(Quotient(v.total.v, |valid|)))
    else Some(NonFinite)
  }

  /** The row for volley `idx` of session `s`. */
  function VolleyRowOf(s: Session, v: Volley, idx: nat): (r: VolleyRow)
    ensures r.number == idx + 1
    ensures r.total == TotalOrZero(v.total)
    ensures r.arrow1 == ArrowCell(MappedArrows(v), 0) && r.arrow2 == ArrowCell(MappedArrows(v), 1)
    ensures r.arrow3 == ArrowCell(MappedArrows(v), 2)
  {
    var m := MappedArrows(v);
    VolleyRow(s.date, s.name.GetOr(""), idx + 1, ArrowCell(m, 0), ArrowCell(m, 1), ArrowCell(m, 2),
              TotalOrZero(v.total), VolleyArrowAverage(v))
  }

  /** The rows of one session, numbered from 1. */
  function SessionVolleyRows(s: Session): (r: seq<VolleyRow>)
    ensures |r| == |VolleysOrEmpty(s)|
    ensures forall i :: 0 <= i < |r| ==> r[i] == VolleyRowOf(s, VolleysOrEmpty(s)[i], i)
  {
    var vs := VolleysOrEmpty(s);
    seq(|vs|, i requires 0 <= i < |vs| => VolleyRowOf(s, vs[i], i))
  }

  /** `volleyData` without its header, session after session. */
  function VolleyRows(ss: seq<Session>): (r: seq<VolleyRow>)
    decreases |ss|
  {
    if ss == [] then [] else VolleyRows(ss[..|ss| - 1]) + SessionVolleyRows(ss[|ss| - 1])
  }

  /** One row per volley across all sessions. */
  lemma {:induction false} VolleyRowsCount(ss: seq<Session>)
    ensures |VolleyRows(ss)| == |AllVolleys(ss)|
    decreases |ss|
  {
    if ss != [] {
      VolleyRowsCount(ss[..|ss| - 1]);
    }
  }

  /** The totals column of Volley Details, added up. */
  function VolleyRowsTotal(rows: seq<VolleyRow>): real
    decreases |rows|
  {
    if rows == [] then 0.0 else VolleyRowsTotal(rows[..|rows| - 1]) + rows[|rows| - 1].total
  }

  lemma {:induction false} VolleyRowsTotalConcat(xs: seq<VolleyRow>, ys: seq<VolleyRow>)
    ensures VolleyRowsTotal(xs + ys) == VolleyRowsTotal(xs) + VolleyRowsTotal(ys)
    decreases |ys|
  {
    if ys == [] {
      assert xs + ys == xs;
    } else {
      var init := ys[..|ys| - 1];
      assert (xs + ys)[..|xs + ys| - 1] == xs + init;
      VolleyRowsTotalConcat(xs, init);
    }
  }

  lemma SessionVolleyRowsTotal(s: Session, n: nat)
    requires n <= |VolleysOrEmpty(s)|
    ensures VolleyRowsTotal(SessionVolleyRows(s)[..n]) == TotalScore(VolleysOrEmpty(s)[..n])
  {
    var rows, vs := SessionVolleyRows(s)[..n], VolleysOrEmpty(s)[..n];
    assert forall i :: 0 <= i < |rows| ==> rows[i].total == TotalOrZero(vs[i].total);
    TotalsColumn(rows, vs);
  }

  lemma SessionRowsTotal(s: Session)
    ensures VolleyRowsTotal(SessionVolleyRows(s)) == TotalScore(VolleysOrEmpty(s))
  {
    TotalsColumn(SessionVolleyRows(s), VolleysOrEmpty(s));
  }

  /** Rows whose totals are the volleys' `v.total || 0`, one for one, add up to the volleys' total. */
  lemma {:induction false} TotalsColumn(rows: seq<VolleyRow>, vs: seq<Volley>)
    requires |rows| == |vs|
    requires forall i :: 0 <= i < |rows| ==> rows[i].total == TotalOrZero(vs[i].total)
    ensures VolleyRowsTotal(rows) == TotalScore(vs)
    decreases |rows|
  {
    if rows != [] {
      TotalsColumn(rows[..|rows| - 1], vs[..|vs| - 1]);
    }
  }

  /** The Volley Details totals add up to the Summary's total score. */
  lemma {:induction false} VolleyDetailsAddUp(ss: seq<Session>, f: ExportFilters)
    ensures VolleyRowsTotal(VolleyRows(ss)) == SummaryOf(ss, f).metrics.totalScore
    decreases |ss|
  {
    if ss != [] {
      var init := ss[..|ss| - 1];
      var last := ss[|ss| - 1];
      VolleyDetailsAddUp(init, f);
      VolleyRowsTotalConcat(VolleyRows(init), SessionVolleyRows(last));
      TotalScoreConcat(AllVolleys(init), VolleysOrEmpty(last));
      SessionRowsTotal(last);
    }
  }

  /** The nested `forEach` over sessions and their volleys. */
  method BuildVolleySheet(ss: seq<Session>) returns (rows: seq<VolleyRow>)
    ensures rows == VolleyRows(ss)
    ensures |rows| == |AllVolleys(ss)|
  {
    rows := [];
    var i := 0;
    while i < |ss|
      invariant 0 <= i <= |ss|
      invariant rows == VolleyRows(ss[..i])
    {
      rows := AddSessionRows(rows, ss[i]);
      assert ss[..i + 1][..i] == ss[..i];
      i := i + 1;
    }
    assert ss[..i] == ss;
    VolleyRowsCount(ss);
  }

  /** The inner `session.volleys.forEach((v, idx) => volleyData.push(...))`. */
  method AddSessionRows(rows0: seq<VolleyRow>, s: Session) returns (rows: seq<VolleyRow>)
    ensures rows == rows0 + SessionVolleyRows(s)
  {
    rows := rows0;
    var vs := VolleysOrEmpty(s);
    var idx := 0;
    while idx < |vs|
      invariant 0 <= idx <= |vs|
      invariant rows == rows0 + SessionVolleyRows(s)[..idx]
    {
      assert SessionVolleyRows(s)[..idx + 1] == SessionVolleyRows(s)[..idx] + [VolleyRowOf(s, vs[idx], idx)];
      rows := rows + [VolleyRowOf(s, vs[idx], idx)];
      idx := idx + 1;
    }
    assert SessionVolleyRows(s)[..idx] == SessionVolleyRows(s);
  }

  /* ---------------- the Performance Trend sheet ---------------- */

  const TrendHeader: seq<string> := ["Date", "Arrow Avg", "Volley Avg", "Consistency (Std Dev)"]

  datatype TrendRow = TrendRow(date: Option<int>, arrowAverage: real, volleyAverage: real, consistency: Root)

  function TrendRowOf(s: Session): TrendRow
  {
    var m := MetricsOf(VolleysOrEmpty(s));
    TrendRow(s.date, m.arrowAverage, m.volleyAverage, m.consistency)
  }

  /** A session's trend row repeats its date and three of its metrics from the Sessions sheet. */
  lemma TrendRowMatchesSessionRow(s: Session)
    ensures var t, r := TrendRowOf(s), SessionRowOf(s);
            && t.date == r.date && t.arrowAverage == r.metrics.arrowAverage
            && t.volleyAverage == r.metrics.volleyAverage && t.consistency == r.metrics.consistency
  {
  }

  function TrendRows(ss: seq<Session>): (r: seq<TrendRow>)
    ensures |r| == |ss|
    ensures forall i :: 0 <= i < |ss| ==> r[i] == TrendRowOf(ss[i])
  {
    seq(|ss|, i requires 0 <= i < |ss| => TrendRowOf(ss[i]))
  }

  method BuildTrendSheet(ss: seq<Session>) returns (rows: seq<TrendRow>)
    ensures |rows| == |ss|
    ensures rows == TrendRows(ss)
  {
    rows := [];
    var i := 0;
    while i < |ss|
      invariant 0 <= i <= |ss|
      invariant |rows| == i
      invariant forall k :: 0 <= k < i ==> rows[k] == TrendRowOf(ss[k])
    {
      rows := rows + [TrendRowOf(ss[i])];
      i := i + 1;
    }
  }

  /* ---------------- the export ---------------- */

  datatype Workbook = Workbook(summary: Summary, sessions: seq<SessionRow>, volleys: seq<VolleyRow>, trend: seq<TrendRow>)

  /** `exportSessionsToExcel(sessions, filters)`: nothing for an empty list; otherwise the four
      sheets' contents. */
  method ExportSessions(ss: seq<Session>, f: ExportFilters) returns (wb: Option<Workbook>)
    ensures wb.None? <==> ss == []
    ensures wb.Some? ==> wb.value == Workbook(SummaryOf(ss, f), SessionRows(ss), VolleyRows(ss), TrendRows(ss))
    ensures wb.Some? ==> |wb.value.sessions| == |wb.value.trend| == |ss| && |wb.value.volleys| == |AllVolleys(ss)|
  {
    if |ss| == 0 {
      return None;
    }
    var summary := SummaryOf(ss, f);
    var sessions := BuildSessionsSheet(ss);
    var volleys := BuildVolleySheet(ss);
    var trend := BuildTrendSheet(ss);
    wb := Some(Workbook(summary, sessions, volleys, trend));
  }
}
