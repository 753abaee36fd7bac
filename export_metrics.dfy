/** The metric helpers both exports share: `average` and `stdDev` over the finite entries of a
    list, the "X"→10 mapping of arrow slots, and the per-volley-list metrics the export rows
    are made of. */
module ExportMetrics {
  import opened Wrappers
  import opened Reals
  import opened Roots
  import opened SessionModel
  import Aggregates
  import SessionList
  import Text

  /* ---------------- average and stdDev ---------------- */

  /** `arr.filter(n => Number.isFinite(n))`, as the numbers themselves. */
  function Finite(xs: seq<Num>): (r: seq<real>)
    ensures |r| <= |xs|
    decreases |xs|
  {
    if xs == [] then [] else Finite(xs[..|xs| - 1]) + (if xs[|xs| - 1].Fin? then [xs[|xs| - 1].v] else [])
  }

  /** The finite numbers are exactly the values of the finite entries. */
  lemma {:induction false} FiniteMembership(xs: seq<Num>, v: real)
    ensures v in Finite(xs) <==> Fin(v) in xs
    decreases |xs|
  {
    if xs != [] {
      var init := xs[..|xs| - 1];
      assert xs == init + [xs[|xs| - 1]];
      FiniteMembership(init, v);
    }
  }

  lemma {:induction false} FiniteConcat(xs: seq<Num>, ys: seq<Num>)
    ensures Finite(xs + ys) == Finite(xs) + Finite(ys)
    decreases |ys|
  {
    if ys != [] {
      var init := ys[..|ys| - 1];
      assert (xs + ys)[..|xs + ys| - 1] == xs + init;
      FiniteConcat(xs, init);
    } else {
      assert xs + ys == xs;
    }
  }

  /** `average(arr)`: the mean of the finite entries, and 0 when there are none. */
  function Average(xs: seq<Num>): (r: real)
    ensures Finite(xs) == [] ==> r == 0.0
    ensures Finite(xs) != [] ==> r * |Finite(xs)| as real == Sum(Finite(xs))
  {
    var valid := Finite(xs);
    if valid == [] then 0.0 else Reals.Average(valid)
  }

  /** An entry that is not a finite number changes nothing, wherever it stands. */
  lemma AverageIgnoresNonFinite(xs: seq<Num>, ys: seq<Num>)
    ensures Average(xs + [NonFinite] + ys) == Average(xs + ys)
  {
    FiniteConcat(xs + [NonFinite], ys);
    FiniteConcat(xs, [NonFinite]);
    FiniteConcat(xs, ys);
    assert [NonFinite][..0] == [];
    assert Finite([NonFinite]) == [];
    assert Finite(xs + [NonFinite] + ys) == Finite(xs + ys);
  }

  /** Scores between 0 and 10 average between 0 and 10. */
  lemma AverageWithinScores(xs: seq<Num>)
    requires forall i :: 0 <= i < |xs| && xs[i].Fin? ==> 0.0 <= xs[i].v <= 10.0
    ensures 0.0 <= Average(xs) <= 10.0
  {
    var valid := Finite(xs);
    if valid != [] {
      forall i | 0 <= i < |valid|
        ensures 0.0 <= valid[i] <= 10.0
      {
        assert valid[i] in valid;
        FiniteMembership(xs, valid[i]);
        var j :| 0 <= j < |xs| && xs[j] == Fin(valid[i]);
      }
      Reals.AverageBounds(valid, 0.0, 10.0);
    }
  }

  /** `stdDev(arr)`: the population deviation of the finite entries around their mean, and 0
      when there are none. The root is kept as its square. */
  function StdDev(xs: seq<Num>): (r: Root)
    ensures Finite(xs) == [] ==> r.square == 0.0
    ensures Finite(xs) != [] ==> r.square * |Finite(xs)| as real == SumSquares(Deviations(Finite(xs)))
  {
    var valid := Finite(xs);
    if valid == [] then Root(0.0) else Root(PopVariance(valid))
  }

  /** The deviation is zero exactly when the finite entries are all equal. */
  lemma StdDevZero(xs: seq<Num>)
    ensures StdDev(xs).square == 0.0 <==>
            forall i, j :: 0 <= i < |Finite(xs)| && 0 <= j < |Finite(xs)| ==> Finite(xs)[i] == Finite(xs)[j]
  {
    var valid := Finite(xs);
    if valid != [] {
      PopVarianceZero(valid);
      assert StdDev(xs) == Root(PopVariance(valid));
    } else {
      assert StdDev(xs) == Root(0.0);
    }
  }

  /** One finite entry gives 0, where the statistics screen has no deviation at all; from two
      entries on, the two agree. */
  lemma StdDevAgainstStatistics(xs: seq<Num>)
    ensures |Finite(xs)| == 1 ==> StdDev(xs).square == 0.0 && Aggregates.StandardDeviation(Finite(xs)).None?
    ensures |Finite(xs)| >= 2 ==> Aggregates.StandardDeviation(Finite(xs)) == Some(StdDev(xs))
  {
    StdDevZero(xs);
  }

  /* ---------------- arrows ---------------- */

  /** `a === "X" ? 10 : a`, read as a number: a slot is finite unless it is null or undefined. */
  function MappedArrow(a: Arrow): (r: Num)
    ensures r.Fin? <==> !IsNullish(a)
    ensures r.Fin? ==> r.v == ScoreValue(a)
  {
    match a
    case Number(v) => Fin(v)
    case LegacyX => Fin(10.0)
    case _ => NonFinite
  }

  /** `(v.arrows || []).map(a => (a === "X" ? 10 : a))`. */
  function MappedArrows(v: Volley): (r: seq<Num>)
    ensures |r| == |ArrowsOrEmpty(v)|
    ensures forall k :: 0 <= k < |r| ==> r[k] == MappedArrow(ArrowsOrEmpty(v)[k])
  {
    var arrows := ArrowsOrEmpty(v);
    seq(|arrows|, k requires 0 <= k < |arrows| => MappedArrow(arrows[k]))
  }

  /** `volleys.flatMap(v => mapped arrows of v)`. */
  function VolleyArrows(vs: seq<Volley>): (r: seq<Num>)
    decreases |vs|
  {
    if vs == [] then [] else VolleyArrows(vs[..|vs| - 1]) + MappedArrows(vs[|vs| - 1])
  }

  lemma {:induction false} VolleyArrowsConcat(vs: seq<Volley>, ws: seq<Volley>)
    ensures VolleyArrows(vs + ws) == VolleyArrows(vs) + VolleyArrows(ws)
    decreases |ws|
  {
    if ws == [] {
      assert vs + ws == vs;
    } else {
      var init, last := ws[..|ws| - 1], ws[|ws| - 1];
      var all := vs + ws;
      assert all[..|all| - 1] == vs + init && all[|all| - 1] == last;
      assert VolleyArrows(all) == VolleyArrows(vs + init) + MappedArrows(last);
      VolleyArrowsConcat(vs, init);
      assert VolleyArrows(ws) == VolleyArrows(init) + MappedArrows(last);
      AppendAssoc(VolleyArrows(vs), VolleyArrows(init), MappedArrows(last));
    }
  }

  lemma AppendAssoc(a: seq<Num>, b: seq<Num>, c: seq<Num>)
    ensures (a + b) + c == a + (b + c)
  {
  }

  /** Every slot counts, null ones included: three per volley of three slots. */
  lemma {:induction false} ArrowCountOfShaped(vs: seq<Volley>)
    requires forall i :: 0 <= i < |vs| ==> |ArrowsOrEmpty(vs[i])| == ArrowsPerVolley
    ensures |VolleyArrows(vs)| == ArrowsPerVolley * |vs|
    decreases |vs|
  {
    if vs != [] {
      ArrowCountOfShaped(vs[..|vs| - 1]);
    }
  }

  /** The finite mapped arrows of a volley add up to its score as the scoring screen counts it. */
  lemma {:induction false} FiniteArrowsSum(arrows: seq<Arrow>)
    ensures Sum(Finite(seq(|arrows|, k requires 0 <= k < |arrows| => MappedArrow(arrows[k])))) == SumScores(arrows)
    decreases |arrows|
  {
    if arrows != [] {
      var init := arrows[..|arrows| - 1];
      var m := seq(|arrows|, k requires 0 <= k < |arrows| => MappedArrow(arrows[k]));
      var mi := seq(|init|, k requires 0 <= k < |init| => MappedArrow(init[k]));
      assert m[..|m| - 1] == mi;
      FiniteArrowsSum(init);
      var tail := if m[|m| - 1].Fin? then [m[|m| - 1].v] else [];
      SumConcat(Finite(mi), tail);
    }
  }

  /* ---------------- totals ---------------- */

  /** `volleys.map(v => v.total)`: the raw totals, which `average` filters itself. */
  function RawTotals(vs: seq<Volley>): (r: seq<Num>)
    ensures |r| == |vs|
    ensures forall i :: 0 <= i < |vs| ==> r[i] == vs[i].total
  {
    seq(|vs|, i requires 0 <= i < |vs| => vs[i].total)
  }

  /** `volleys.reduce((sum, v) => sum + (v.total || 0), 0)`. */
  function TotalScore(vs: seq<Volley>): (r: real)
    decreases |vs|
  {
    if vs == [] then 0.0 else TotalScore(vs[..|vs| - 1]) + TotalOrZero(vs[|vs| - 1].total)
  }

  lemma {:induction false} TotalScoreConcat(vs: seq<Volley>, ws: seq<Volley>)
    ensures TotalScore(vs + ws) == TotalScore(vs) + TotalScore(ws)
    decreases |ws|
  {
    if ws == [] {
      assert vs + ws == vs;
    } else {
      var init := ws[..|ws| - 1];
      assert (vs + ws)[..|vs + ws| - 1] == vs + init;
      TotalScoreConcat(vs, init);
    }
  }

  /** The export's total is the total the session list shows for the same session. */
  lemma TotalScoreAgreesWithList(s: Session)
    ensures TotalScore(VolleysOrEmpty(s)) == SessionList.RowOf(s).totalScore
  {
    TotalsAgree(VolleysOrEmpty(s));
  }

  lemma {:induction false} TotalsAgree(vs: seq<Volley>)
    ensures TotalScore(vs) == SessionList.ListSum(seq(|vs|, i requires 0 <= i < |vs| => SessionList.TotalEntry(vs[i].total)))
    decreases |vs|
  {
    if vs != [] {
      var init := vs[..|vs| - 1];
      var t := seq(|vs|, i requires 0 <= i < |vs| => SessionList.TotalEntry(vs[i].total));
      assert t[..|t| - 1] == seq(|init|, i requires 0 <= i < |init| => SessionList.TotalEntry(init[i].total));
      TotalsAgree(init);
    }
  }

  /* ---------------- metrics of a list of volleys ---------------- */

  /** The figures a row reports for a list of volleys: arrow slots, total score, arrow average,
      volley average and arrow deviation. */
  datatype Metrics = Metrics(arrowsCount: nat, totalScore: real, arrowAverage: real, volleyAverage: real, consistency: Root)

  function MetricsOf(vs: seq<Volley>): (r: Metrics)
    ensures r.arrowsCount == |VolleyArrows(vs)|
    ensures r.totalScore == TotalScore(vs)
    ensures r.arrowAverage == Average(VolleyArrows(vs)) && r.consistency == StdDev(VolleyArrows(vs))
    ensures r.volleyAverage == Average(RawTotals(vs))
  {
    var arrows := VolleyArrows(vs);
    Metrics(|arrows|, TotalScore(vs), Average(arrows), Average(RawTotals(vs)), StdDev(arrows))
  }

  /** Empty slots count as arrows but leave the averages alone: one volley with a 9 and two
      empty slots reports three arrows, an arrow average of 9 and no spread. */
  lemma NullSlotsCountedNotAveraged()
    ensures var m := MetricsOf([Volley(Some([Number(9.0), Null, Null]), None, Fin(9.0), map[])]);
            m.arrowsCount == 3 && m.arrowAverage == 9.0 && m.volleyAverage == 9.0 && m.consistency.square == 0.0
  {
    var v := Volley(Some([Number(9.0), Null, Null]), None, Fin(9.0), map[]);
    NineAndTwoEmpty(v);
    var m := VolleyArrows([v]);
    assert [v][..0] == [];
    assert RawTotals([v]) == [Fin(9.0)];
    SingleFinite(9.0);
    StdDevZero(m);
  }

  /** The arrows of the example volley: the 9 and two non-finite slots. */
  lemma NineAndTwoEmpty(v: Volley)
    requires v == Volley(Some([Number(9.0), Null, Null]), None, Fin(9.0), map[])
    ensures VolleyArrows([v]) == [Fin(9.0), NonFinite, NonFinite]
    ensures Finite(VolleyArrows([v])) == [9.0]
  {
    assert [v][..0] == [];
    var m := MappedArrows(v);
    assert m == [Fin(9.0), NonFinite, NonFinite];
    assert VolleyArrows([v]) == m;
    assert m[..2] == [Fin(9.0), NonFinite];
    assert m[..2][..1] == [Fin(9.0)];
    SingleFinite(9.0);
    assert Finite(m[..2]) == [9.0];
  }

  lemma SingleFinite(x: real)
    ensures Finite([Fin(x)]) == [x]
  {
    assert [Fin(x)][..0] == [];
  }

  /** A legacy "X" averages as a 10. */
  lemma LegacyXAveragesAsTen()
    ensures Average(MappedArrows(Volley(Some([LegacyX]), None, NonFinite, map[]))) == 10.0
  {
    var m := MappedArrows(Volley(Some([LegacyX]), None, NonFinite, map[]));
    assert m == [Fin(10.0)];
    assert m[..0] == [];
    assert Finite(m) == [10.0];
    assert Sum([10.0]) == 10.0;
  }

  /* ---------------- filter texts ---------------- */

  /** The filter record the exports receive; an absent key is `None`. */
  datatype ExportFilters = ExportFilters(
    from: Option<string>,
    to: Option<string>,
    distance: Option<string>,
    targetType: Option<string>,
    environment: Option<string>,
    kind: Option<string>)

  /** `${from || "—"} → ${to || "—"}`: each chosen date prints as itself, and a missing or
      empty one as a dash. */
  function DateRange(f: ExportFilters): (r: string)
    ensures f.from.None? && f.to.None? ==> r == "\U{2014} \U{2192} \U{2014}"
    ensures Text.Chosen(f.from) && Text.Chosen(f.to) ==> r == f.from.value + " \U{2192} " + f.to.value
    ensures Text.Chosen(f.from) && !Text.Chosen(f.to) ==> r == f.from.value + " \U{2192} \U{2014}"
    ensures !Text.Chosen(f.from) && Text.Chosen(f.to) ==> r == "\U{2014} \U{2192} " + f.to.value
    ensures !Text.Chosen(f.from) && !Text.Chosen(f.to) ==> r == "\U{2014} \U{2192} \U{2014}"
  {
    Text.OrElse(f.from, "\U{2014}") + " \U{2192} " + Text.OrElse(f.to, "\U{2014}")
  }
}
