/** The saved-sessions list: the filter record and the predicate that selects the sessions to
    show, the per-row score totals, and the confirmation gate in front of a deletion. */
module SessionList {
  import opened Wrappers
  import opened Reals
  import opened SessionModel
  import Seqs
  import Text

  /* ---------------- filters ---------------- */

  /** The value of a filter field that lets every session through. */
  const All: string := "all"

  /** The filter record. `from` and `to` are the parsed date limits; `None` stands for an unset
      limit and for one that does not parse, since neither excludes anything. */
  datatype Filters = Filters(
    from: Option<int>,
    to: Option<int>,
    distance: string,
    kind: string,
    environment: string,
    targetType: string)

  /** `DEFAULT_FILTERS`. */
  const DefaultFilters: Filters := Filters(None, None, All, All, All, All)

  /** The period test. A session whose date does not parse compares false both ways and is
      never excluded. */
  predicate ExcludedByDate(f: Filters, s: Session)
  {
    && s.date.Some?
    && ((f.from.Some? && s.date.value < f.from.value) || (f.to.Some? && s.date.value > f.to.value))
  }

  /** `wanted !== "all" && actual !== wanted` fails the session. */
  predicate AttributeMatches(wanted: string, actual: Option<string>)
  {
    wanted == All || actual == Some(wanted)
  }

  /** The `filteredSessions` predicate. */
  predicate Passes(f: Filters, s: Session)
  {
    && !ExcludedByDate(f, s)
    && (f.distance == All || DistanceText(s.distance) == f.distance)
    && AttributeMatches(f.kind, s.kind)
    && AttributeMatches(f.environment, s.environment)
    && AttributeMatches(f.targetType, s.targetType)
  }

  /** The filters combine by conjunction: a session passes exactly when it passes each filter
      set on its own, the others left at "all" and the period unset. */
  lemma PassesEachFilter(f: Filters, s: Session)
    ensures Passes(f, s) <==>
              && Passes(DefaultFilters.(from := f.from, to := f.to), s)
              && Passes(DefaultFilters.(distance := f.distance), s)
              && Passes(DefaultFilters.(kind := f.kind), s)
              && Passes(DefaultFilters.(environment := f.environment), s)
              && Passes(DefaultFilters.(targetType := f.targetType), s)
  {
  }

  function Keep(f: Filters): Session -> bool
  {
    s => Passes(f, s)
  }

  /** `filteredSessions`: exactly the sessions that pass, in their original order. */
  function FilterSessions(ss: seq<Session>, f: Filters): (r: seq<Session>)
    ensures |r| <= |ss|
    ensures forall s :: s in r <==> s in ss && Passes(f, s)
  {
    var r := Seqs.Filter(ss, Keep(f));
    assert forall s :: s in r <==> s in ss && Passes(f, s) by {
      forall s
        ensures s in r <==> s in ss && Passes(f, s)
      {
        Seqs.FilterMembership(ss, Keep(f), s);
      }
    }
    r
  }

  lemma FilterSessionsKeepsOrder(ss: seq<Session>, f: Filters)
    ensures Seqs.IsSubsequence(FilterSessions(ss, f), ss)
  {
    Seqs.FilterIsSubsequence(ss, Keep(f));
  }

  /** The default filters keep every session. */
  lemma DefaultKeepsAll(ss: seq<Session>)
    ensures FilterSessions(ss, DefaultFilters) == ss
  {
    forall i | 0 <= i < |ss|
      ensures Keep(DefaultFilters)(ss[i])
    {
      assert !ExcludedByDate(DefaultFilters, ss[i]);
    }
    Seqs.FilterAll(ss, Keep(DefaultFilters));
  }

  /** A session whose date does not parse is judged as if no period were set. */
  lemma UnparseableDateNeverExcluded(f: Filters, s: Session)
    requires s.date.None?
    ensures Passes(f, s) <==> Passes(f.(from := None, to := None), s)
  {
  }

  /** The distance filter compares texts: `"18"` keeps a session stored with the number 18 but
      not one stored as `"18 m"`, unlike the comparison engine which parses both to 18. */
  lemma DistanceFilterIsTextual(s: Session)
    requires s.date.None? && s.kind.None? && s.environment.None? && s.targetType.None?
    ensures Passes(DefaultFilters.(distance := "18"), s.(distance := DNum(18)))
    ensures !Passes(DefaultFilters.(distance := "18"), s.(distance := DText("18 m")))
  {
    assert Text.NatToString(18) == "18" by { Text.DigitsValueOfNatToString(18); }
    assert "18 m" != "18" by { assert |"18 m"| != |"18"|; }
  }

  /** `g` is `f` with some fields that were `"all"` (or unset) given a value. */
  predicate Narrows(f: Filters, g: Filters)
  {
    && (f.from.None? || g.from == f.from)
    && (f.to.None? || g.to == f.to)
    && (f.distance == All || g.distance == f.distance)
    && (f.kind == All || g.kind == f.kind)
    && (f.environment == All || g.environment == f.environment)
    && (f.targetType == All || g.targetType == f.targetType)
  }

  /** Setting a filter can only shrink the list: the narrower result is the wider result
      filtered once more. */
  lemma NarrowingShrinks(ss: seq<Session>, f: Filters, g: Filters)
    requires Narrows(f, g)
    ensures FilterSessions(ss, g) == Seqs.Filter(FilterSessions(ss, f), Keep(g))
    ensures |FilterSessions(ss, g)| <= |FilterSessions(ss, f)|
  {
    assert forall s :: Keep(g)(s) ==> Keep(f)(s);
    Seqs.FilterStronger(ss, Keep(f), Keep(g));
  }

  /* ---------------- row totals ---------------- */

  /** `sum`: non-finite entries count 0. */
  function ListSum(xs: seq<Num>): (r: real)
    decreases |xs|
  {
    if xs == [] then 0.0 else ListSum(xs[..|xs| - 1]) + TotalOrZero(xs[|xs| - 1])
  }

  lemma {:induction false} ListSumConcat(xs: seq<Num>, ys: seq<Num>)
    ensures ListSum(xs + ys) == ListSum(xs) + ListSum(ys)
    decreases |ys|
  {
    if ys == [] {
      assert xs + ys == xs;
    } else {
      var init := ys[..|ys| - 1];
      assert (xs + ys)[..|xs + ys| - 1] == xs + init;
      ListSumConcat(xs, init);
    }
  }

  /** A non-finite entry changes nothing, wherever it stands. */
  lemma NonFiniteIgnored(xs: seq<Num>, ys: seq<Num>)
    ensures ListSum(xs + [NonFinite] + ys) == ListSum(xs + ys)
  {
    ListSumConcat(xs + [NonFinite], ys);
    ListSumConcat(xs, ys);
    assert (xs + [NonFinite])[..|xs|] == xs;
  }

  /** `v.total || 0`. A null, undefined or NaN total is falsy and becomes 0; an infinite one
      survives here but `sum` counts it 0 too, so it is collapsed the same way. */
  function TotalEntry(n: Num): (r: Num)
    ensures r.Fin? && r.v == TotalOrZero(n)
  {
    if n.Fin? then n else Fin(0.0)
  }

  /** `s.volleys?.map(v => v.total || 0) || []`. */
  function Totals(s: Session): (r: seq<Num>)
    ensures |r| == |VolleysOrEmpty(s)|
    ensures forall i :: 0 <= i < |r| ==> r[i] == TotalEntry(VolleysOrEmpty(s)[i].total)
  {
    var vs := VolleysOrEmpty(s);
    seq(|vs|, i requires 0 <= i < |vs| => TotalEntry(vs[i].total))
  }

  /** The numbers one list row shows; `average` is `None` for the dash. */
  datatype Row = Row(totalScore: real, firstHalf: real, secondHalf: real, volleysCount: nat, average: Option<real>)

  function Min(a: nat, b: nat): nat { if a <= b then a else b }

  /** The row totals: the whole session, `slice(0, 10)` and `slice(10, 20)`. */
  function RowOf(s: Session): (r: Row)
    ensures r.volleysCount == |VolleysOrEmpty(s)|
    ensures r.totalScore == ListSum(Totals(s))
    ensures r.average.None? <==> r.volleysCount == 0
    ensures r.average.Some? ==> r.average.value * r.volleysCount as real == r.totalScore
  {
    var t := Totals(s);
    var n := |t|;
    var total := ListSum(t);
    Row(total, ListSum(t[..Min(10, n)]), ListSum(t[Min(10, n)..Min(20, n)]), n,
        if n > 0 then Some(Quotient(total, n)) else None)
  }

  /** With at most 20 volleys the two halves add up to the total. */
  lemma HalvesAddUp(s: Session)
    requires |VolleysOrEmpty(s)| <= VolleysPerSession
    ensures RowOf(s).firstHalf + RowOf(s).secondHalf == RowOf(s).totalScore
  {
    var t := Totals(s);
    var a := Min(10, |t|);
    assert t == t[..a] + t[a..|t|];
    ListSumConcat(t[..a], t[a..|t|]);
  }

  /** Volleys past the twentieth count in the total but in neither half. */
  lemma HalvesStopAtTwenty(s: Session)
    requires |VolleysOrEmpty(s)| > VolleysPerSession
    ensures RowOf(s).firstHalf + RowOf(s).secondHalf == ListSum(Totals(s)[..20])
    ensures RowOf(s).totalScore == ListSum(Totals(s)[..20]) + ListSum(Totals(s)[20..])
  {
    var t := Totals(s);
    assert t[..20] == t[..10] + t[10..20];
    ListSumConcat(t[..10], t[10..20]);
    assert t == t[..20] + t[20..];
    ListSumConcat(t[..20], t[20..]);
  }

  /* ---------------- deletion ---------------- */

  /** `confirmDelete(id)`: the id handed to `onDelete`, or `None` when the user cancels. */
  function DeleteCall(id: Option<string>, confirmed: bool): (r: Option<Option<string>>)
    ensures r.Some? <==> confirmed
    ensures r.Some? ==> r.value == id
  {
    if confirmed then Some(id) else None
  }
}
