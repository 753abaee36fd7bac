/** The statistics screen's data pipeline: its own normalisation of the selected sessions, the
    mean of per-session volley averages, the flat lists of scored arrows and of hits, the hits
    grouped by trispot face, the per-face technical summaries, the choice of interpretation
    and the context line naming the sessions' common attributes. */
module StatisticsScreen {
  import opened Wrappers
  import opened Reals
  import opened SessionModel
  import Roots
  import Text
  import Scoring
  import Aggregates
  import Dispersion
  import Interpretation

  /* ---------------- normalisation ---------------- */

  /** `v.hits` when it is an array, else `[]`. */
  function HitsOrEmpty(v: Volley): seq<Option<Hit>>
  {
    if v.hits.Some? then v.hits.value else []
  }

  /** One volley: exactly `arrows`, `hits` and `total`; other fields are not carried over. */
  function NormalizeVolley(v: Volley): (r: Volley)
    ensures VolleyShaped(r) && r.extra == map[]
    ensures forall k :: 0 <= k < ArrowsPerVolley ==>
              r.arrows.value[k] == ArrowOrNull(ArrowsOrEmpty(v), k) && r.hits.value[k] == HitAt(HitsOrEmpty(v), k)
    ensures r.total == Fin(TotalOrZero(v.total))
  {
    var a, h := ArrowsOrEmpty(v), HitsOrEmpty(v);
    Volley(
      Some([ArrowOrNull(a, 0), ArrowOrNull(a, 1), ArrowOrNull(a, 2)]),
      Some([HitAt(h, 0), HitAt(h, 1), HitAt(h, 2)]),
      Fin(TotalOrZero(v.total)),
      map[])
  }

  /** `normalizedSessions` for one session: every field kept, the stored volleys normalised one
      by one, none added and none dropped. */
  function NormalizeSession(s: Session): (r: Session)
    ensures r.(volleys := s.volleys) == s
    ensures r.volleys.Some? && |r.volleys.value| == |VolleysOrEmpty(s)|
    ensures forall i :: 0 <= i < |VolleysOrEmpty(s)| ==> r.volleys.value[i] == NormalizeVolley(VolleysOrEmpty(s)[i])
  {
    var vs := VolleysOrEmpty(s);
    s.(volleys := Some(seq(|vs|, i requires 0 <= i < |vs| => NormalizeVolley(vs[i]))))
  }

  function NormalizeSessions(ss: seq<Session>): (r: seq<Session>)
    ensures |r| == |ss|
    ensures forall i :: 0 <= i < |ss| ==> r[i] == NormalizeSession(ss[i])
  {
    seq(|ss|, i requires 0 <= i < |ss| => NormalizeSession(ss[i]))
  }

  lemma NormalizeVolleyIdempotent(v: Volley)
    ensures NormalizeVolley(NormalizeVolley(v)) == NormalizeVolley(v)
  {
    var n := NormalizeVolley(v);
    assert ArrowsOrEmpty(n) == n.arrows.value;
    assert HitsOrEmpty(n) == n.hits.value;
  }

  /** Normalising twice changes nothing more. */
  lemma NormalizeIdempotent(s: Session)
    ensures NormalizeSession(NormalizeSession(s)) == NormalizeSession(s)
  {
    var n := NormalizeSession(s);
    forall i | 0 <= i < |VolleysOrEmpty(n)|
      ensures NormalizeVolley(VolleysOrEmpty(n)[i]) == VolleysOrEmpty(n)[i]
    {
      NormalizeVolleyIdempotent(VolleysOrEmpty(s)[i]);
    }
    assert NormalizeSession(n).volleys.value == n.volleys.value;
  }

  /** Unlike the scoring screen, which always yields 20 volleys, this normalisation keeps the
      stored number of volleys, and it drops the extra volley fields the scoring screen keeps. */
  lemma NormalizationsDiffer(s: Session)
    ensures |NormalizeSession(s).volleys.value| == |VolleysOrEmpty(s)|
    ensures |Scoring.NormalizeSession(s).volleys.value| == VolleysPerSession
    ensures forall i :: 0 <= i < |VolleysOrEmpty(s)| ==> NormalizeSession(s).volleys.value[i].extra == map[]
  {
  }

  /* ---------------- mean of per-session means ---------------- */

  /** `session.volleys.flatMap(v => v.arrows)`. */
  function FlatArrows(vs: seq<Volley>): (r: seq<Arrow>)
    decreases |vs|
  {
    if vs == [] then [] else FlatArrows(vs[..|vs| - 1]) + ArrowsOrEmpty(vs[|vs| - 1])
  }

  /** One entry of `.filter(a => a != null)`, read as its score, with the legacy "X" read as 10
      (as the scorecard's volley score and the exports read it; the source's own reading is
      `SessionAverageAsWritten`). */
  function ValueOf(a: Arrow): (r: seq<real>)
    ensures |r| <= 1
    ensures r == [] <==> IsNullish(a)
    ensures r != [] ==> r[0] == ScoreValue(a)
    ensures a == LegacyX ==> r == [10.0]
  {
    if IsNullish(a) then [] else [ScoreValue(a)]
  }

  /** `.filter(a => a != null)`, each entry read as its score. */
  function ScoredValues(arrows: seq<Arrow>): (r: seq<real>)
    ensures |r| <= |arrows|
    decreases |arrows|
  {
    if arrows == [] then [] else ScoredValues(arrows[..|arrows| - 1]) + ValueOf(arrows[|arrows| - 1])
  }

  lemma {:induction false} ScoredValuesConcat(xs: seq<Arrow>, ys: seq<Arrow>)
    ensures ScoredValues(xs + ys) == ScoredValues(xs) + ScoredValues(ys)
    decreases |ys|
  {
    if ys == [] {
      assert xs + ys == xs;
    } else {
      var init := ys[..|ys| - 1];
      assert xs + ys == (xs + init) + [ys[|ys| - 1]];
      assert (xs + ys)[..|xs + ys| - 1] == xs + init;
      ScoredValuesConcat(xs, init);
    }
  }

  /** The non-null scores of one session, volley after volley. */
  function SessionValues(s: Session): seq<real>
  {
    ScoredValues(FlatArrows(VolleysOrEmpty(s)))
  }

  /** The per-session value of `averagePerSession`: the non-null scores added up and divided by
      the number of complete volleys; null when there is no complete volley. */
  function SessionAverage(s: Session): (r: Option<real>)
    ensures r.None? <==> |SessionValues(s)| < ArrowsPerVolley
    ensures r.Some? ==> r.value * Aggregates.CompleteVolleys(|SessionValues(s)|) as real == Sum(SessionValues(s))
  {
    var vals := SessionValues(s);
    if |vals| == 0 then None
    else
      var volleysCount := Aggregates.CompleteVolleys(|vals|);
      if volleysCount == 0 then None else Some(Quotient(Sum(vals), volleysCount))
  }

  /** `.map(session => ...).filter(v => v != null)`. */
  function SessionAverages(ss: seq<Session>): (r: seq<real>)
    ensures |r| <= |ss|
    decreases |ss|
  {
    if ss == [] then []
    else
      var a := SessionAverage(ss[|ss| - 1]);
      SessionAverages(ss[..|ss| - 1]) + (if a.Some? then [a.value] else [])
  }

  /** `averagePerSession`: the unweighted mean of the per-session values, null when no session
      has a complete volley. */
  function AveragePerSession(ss: seq<Session>): (r: Option<real>)
    ensures r.None? <==> SessionAverages(ss) == []
    ensures r.Some? ==> r == Aggregates.Mean(SessionAverages(ss))
  {
    if |ss| == 0 then None
    else
      var avgs := SessionAverages(ss);
      Aggregates.Mean(avgs)
  }

  /** A session without a complete volley is skipped: it changes neither the result nor the
      divisor. */
  lemma IncompleteSessionSkipped(ss: seq<Session>, s: Session)
    requires SessionAverage(s).None?
    ensures AveragePerSession(ss + [s]) == AveragePerSession(ss)
  {
    assert (ss + [s])[..|ss|] == ss;
    assert (ss + [s])[|ss|] == s;
    assert SessionAverages(ss + [s]) == SessionAverages(ss);
  }

  /** Two sessions count equally, however many volleys each has. */
  lemma AveragePerSessionOfTwo(a: Session, b: Session, x: real, y: real)
    requires SessionAverage(a) == Some(x) && SessionAverage(b) == Some(y)
    ensures AveragePerSession([a, b]) == Some((x + y) / 2.0)
  {
    assert [a, b][..1] == [a];
    assert [a][..0] == [];
    assert SessionAverages([a]) == [x];
    assert SessionAverages([a, b]) == [x, y];
    PairMean(x, y);
  }

  lemma PairMean(x: real, y: real)
    ensures Aggregates.Mean([x, y]) == Some((x + y) / 2.0)
  {
    assert [x, y][..1] == [x];
    assert [x][..0] == [];
    assert Sum([x]) == x;
    assert Sum([x, y]) == x + y;
  }

  /** With "X" read as 10, the sum a session's value divides is the sum of its volleys' scores as
      the scorecard computes them, empty slots counting 0. */
  lemma {:induction false} SessionSumIsVolleyScores(vs: seq<Volley>)
    ensures Sum(ScoredValues(FlatArrows(vs))) == VolleyScoreSum(vs)
    decreases |vs|
  {
    if vs != [] {
      var init, last := vs[..|vs| - 1], vs[|vs| - 1];
      SessionSumIsVolleyScores(init);
      ScoredValuesConcat(FlatArrows(init), ArrowsOrEmpty(last));
      SumConcat(ScoredValues(FlatArrows(init)), ScoredValues(ArrowsOrEmpty(last)));
      ScoredValuesSumScores(ArrowsOrEmpty(last));
    }
  }

  /** The scorecard's volley scores added up: `SumScores` of each volley's arrows. */
  function VolleyScoreSum(vs: seq<Volley>): real
    decreases |vs|
  {
    if vs == [] then 0.0 else VolleyScoreSum(vs[..|vs| - 1]) + SumScores(ArrowsOrEmpty(vs[|vs| - 1]))
  }

  lemma {:induction false} ScoredValuesSumScores(arrows: seq<Arrow>)
    ensures Sum(ScoredValues(arrows)) == SumScores(arrows)
    decreases |arrows|
  {
    if arrows != [] {
      var init := arrows[..|arrows| - 1];
      ScoredValuesSumScores(init);
      SumConcat(ScoredValues(init), ValueOf(arrows[|arrows| - 1]));
      if !IsNullish(arrows[|arrows| - 1]) {
        assert Sum(ValueOf(arrows[|arrows| - 1])) == ScoreValue(arrows[|arrows| - 1]) by {
          assert ValueOf(arrows[|arrows| - 1])[..0] == [];
        }
      }
    }
  }

  /* ---------------- the legacy "X" in the sums, as written ---------------- */

  /** The accumulator of `reduce((s, a) => s + a, 0)` over non-null entries. It stays a number
      until it meets the legacy "X"; from then on `+` joins texts. `Joined(Some(d))` is the text
      "0X" followed by the digits `d`, which `Number` reads as a hexadecimal literal;
      `Joined(None)` is any other text, which `Number` reads as NaN. */
  datatype JsSum = Numeric(v: real) | Joined(hexDigits: Option<string>)

  const ExponentFrom: real := 1000000000000000000000.0

  /** `String(v)` when it is a run of digits: for a whole number from 0 up to below 10^21. The
      text of any other number holds a '-', a '.' or an exponent. */
  function DigitText(v: real): (r: Option<string>)
    ensures r.Some? <==> 0.0 <= v < ExponentFrom && v == v.Floor as real
    ensures r.Some? ==> Text.AllDigits(r.value) && r.value != "" && Text.DigitsValue(r.value) as real == v
  {
    if 0.0 <= v < ExponentFrom && v == v.Floor as real then
      Text.DigitsValueOfNatToString(v.Floor as nat);
      Some(Text.NatToString(v.Floor as nat))
    else None
  }

  /** One step `s + a`. From a number, the sum `String(s) + "X"` starts with "0X" exactly when
      `s` is 0. */
  function AddEntry(acc: JsSum, a: Arrow): JsSum
    requires !IsNullish(a)
  {
    match acc
    case Numeric(p) =>
      if a.Number? then Numeric(p + a.v) else Joined(if p == 0.0 then Some("") else None)
    case Joined(d) =>
      if d.Some? && a.Number? && DigitText(a.v).Some? then Joined(Some(d.value + DigitText(a.v).value)) else Joined(None)
  }

  function Reduce(xs: seq<Arrow>): JsSum
    requires forall i :: 0 <= i < |xs| ==> !IsNullish(xs[i])
    decreases |xs|
  {
    if xs == [] then Numeric(0.0) else AddEntry(Reduce(xs[..|xs| - 1]), xs[|xs| - 1])
  }

  /** How `/` reads the accumulator: a number as itself, "0X" followed by digits in base 16, and any
      other text (among them "0X" alone) as NaN. */
  function ReadNumber(acc: JsSum): Num
  {
    match acc
    case Numeric(v) => Fin(v)
    case Joined(d) =>
      if d.Some? && d.value != "" && Text.AllDigits(d.value) then Fin(Text.HexDigitsValue(d.value) as real) else NonFinite
  }

  /** `n / k` for a positive `k`: NaN stays NaN. */
  function DivideNum(n: Num, k: nat): Num
    requires k > 0
  {
    if n.Fin? then Fin(n.v / k as real) else NonFinite
  }

  /** `.filter(a => a != null)`, the entries kept as they are. */
  function NonNull(arrows: seq<Arrow>): (r: seq<Arrow>)
    ensures forall i :: 0 <= i < |r| ==> !IsNullish(r[i])
    ensures |r| == |ScoredValues(arrows)|
    decreases |arrows|
  {
    if arrows == [] then []
    else NonNull(arrows[..|arrows| - 1]) + (if IsNullish(arrows[|arrows| - 1]) then [] else [arrows[|arrows| - 1]])
  }

  /** `mean(values)` as written, over scores that may hold the legacy "X". */
  function MeanAsWritten(values: seq<Arrow>): (r: Option<Num>)
    requires forall i :: 0 <= i < |values| ==> !IsNullish(values[i])
    ensures r.None? <==> values == []
  {
    if values == [] then None else Some(DivideNum(ReadNumber(Reduce(values)), |values|))
  }

  /** The per-session value of `averagePerSession` as written: the non-null entries reduced with
      `+` and divided by the number of complete volleys. */
  function SessionAverageAsWritten(s: Session): (r: Option<Num>)
    ensures r.None? <==> SessionAverage(s).None?
  {
    var vals := NonNull(FlatArrows(VolleysOrEmpty(s)));
    if |vals| == 0 then None
    else
      var volleysCount := Aggregates.CompleteVolleys(|vals|);
      if volleysCount == 0 then None else Some(DivideNum(ReadNumber(Reduce(vals)), volleysCount))
  }

  /** Some slot of the session holds the legacy "X". */
  predicate HoldsLegacyX(s: Session)
  {
    LegacyX in FlatArrows(VolleysOrEmpty(s))
  }

  /** Without the legacy "X" the reduction only adds numbers. */
  lemma {:induction false} ReduceWithoutX(arrows: seq<Arrow>)
    requires LegacyX !in arrows
    ensures Reduce(NonNull(arrows)) == Numeric(Sum(ScoredValues(arrows)))
    decreases |arrows|
  {
    if arrows != [] {
      var init, last := arrows[..|arrows| - 1], arrows[|arrows| - 1];
      assert LegacyX !in init by { assert forall a :: a in init ==> a in arrows; }
      ReduceWithoutX(init);
      assert ScoredValues(arrows) == ScoredValues(init) + ValueOf(last);
      SumConcat(ScoredValues(init), ValueOf(last));
      if IsNullish(last) {
        assert NonNull(arrows) == NonNull(init) + [];
        assert NonNull(init) + [] == NonNull(init);
      } else {
        assert NonNull(arrows) == NonNull(init) + [last];
        ReduceSnoc(NonNull(init), last);
        assert Sum(ValueOf(last)) == last.v by { assert ValueOf(last)[..0] == []; }
      }
    }
  }

  lemma ReduceSnoc(xs: seq<Arrow>, a: Arrow)
    requires forall i :: 0 <= i < |xs| ==> !IsNullish(xs[i])
    requires !IsNullish(a)
    ensures Reduce(xs + [a]) == AddEntry(Reduce(xs), a)
  {
    assert (xs + [a])[..|xs|] == xs;
  }

  /** Without the legacy "X" the source's per-session value is the model's. */
  lemma AsWrittenAgreesWithoutX(s: Session)
    requires !HoldsLegacyX(s)
    ensures SessionAverage(s).Some? ==> SessionAverageAsWritten(s) == Some(Fin(SessionAverage(s).value))
  {
    var arrows := FlatArrows(VolleysOrEmpty(s));
    ReduceWithoutX(arrows);
    if SessionAverage(s).Some? {
      var n := Aggregates.CompleteVolleys(|SessionValues(s)|);
      assert SessionAverage(s).value == Sum(SessionValues(s)) / n as real;
    }
  }

  /** The session `{ volleys: [{ arrows, hits: [null, null, null], total: 0 }] }`. */
  function OneVolley(arrows: seq<Arrow>): Session
  {
    BlankSession.(volleys := Some([Volley(Some(arrows), Some([None, None, None]), Fin(0.0), map[])]))
  }

  /** Scored "X", 9, 10, the sum is the text "0X910", which the division reads as the hexadecimal
      0x910 = 2320, where "X" read as 10 gives a volley of 29. The summary's `mean(scores)` takes
      the same path. */
  lemma LegacyXFirstReadsAsHex(a: seq<Arrow>)
    requires |a| == 3 && a[0] == LegacyX && a[1] == Number(9.0) && a[2] == Number(10.0)
    ensures SessionAverageAsWritten(OneVolley(a)) == Some(Fin(2320.0))
    ensures SessionAverage(OneVolley(a)) == Some(29.0)
    ensures MeanAsWritten(a) == Some(Fin(2320.0 / 3.0))
  {
    OneVolleyArrows(a);
    ReduceXNineTen(a);
    assert Aggregates.CompleteVolleys(3) == 1;
    XNineTenAverage(a);
  }

  lemma XNineTenAverage(a: seq<Arrow>)
    requires |a| == 3 && a[0] == LegacyX && a[1] == Number(9.0) && a[2] == Number(10.0)
    ensures SessionAverage(OneVolley(a)) == Some(29.0)
  {
    OneVolleyFlat(a);
    ScoredValuesOfThree(a);
    assert SessionValues(OneVolley(a)) == [10.0, 9.0, 10.0];
    SumTenNineTen();
    AverageOfOneVolley(OneVolley(a));
  }

  /** Three scores make one complete volley, whose value is their sum. */
  lemma AverageOfOneVolley(s: Session)
    requires |SessionValues(s)| == 3
    ensures SessionAverage(s) == Some(Sum(SessionValues(s)))
  {
    assert Aggregates.CompleteVolleys(3) == 1;
  }

  lemma SumTenNineTen()
    ensures Sum([10.0, 9.0, 10.0]) == 29.0
  {
    assert [10.0, 9.0, 10.0][..2] == [10.0, 9.0] && [10.0, 9.0][..1] == [10.0] && [10.0][..0] == [];
  }

  /** Scored 10, "X", 9, the sum is the text "10X9", which reads as NaN. */
  lemma LegacyXLaterReadsAsNaN(b: seq<Arrow>)
    requires |b| == 3 && b[0] == Number(10.0) && b[1] == LegacyX && b[2] == Number(9.0)
    ensures SessionAverageAsWritten(OneVolley(b)) == Some(NonFinite)
  {
    OneVolleyArrows(b);
    ReduceTenXNine(b);
  }

  lemma ReduceTenXNine(b: seq<Arrow>)
    requires |b| == 3 && b[0] == Number(10.0) && b[1] == LegacyX && b[2] == Number(9.0)
    ensures Reduce(b) == Joined(None)
  {
    var b2, b1 := b[..2], b[..1];
    assert b2[..1] == b1 && b1[..0] == [];
    assert Reduce(b1) == Numeric(10.0);
    assert Reduce(b2) == Joined(None);
  }

  lemma OneVolleyFlat(a: seq<Arrow>)
    ensures FlatArrows(VolleysOrEmpty(OneVolley(a))) == a
  {
    var v := Volley(Some(a), Some([None, None, None]), Fin(0.0), map[]);
    assert VolleysOrEmpty(OneVolley(a)) == [v];
    assert [v][..0] == [];
  }

  lemma OneVolleyArrows(a: seq<Arrow>)
    requires |a| == 3 && !IsNullish(a[0]) && !IsNullish(a[1]) && !IsNullish(a[2])
    ensures NonNull(FlatArrows(VolleysOrEmpty(OneVolley(a)))) == a
  {
    OneVolleyFlat(a);
    assert a[..2][..1] == a[..1] && a[..1][..0] == [];
    assert NonNull(a[..1]) == [a[0]] by { assert NonNull(a[..1]) == NonNull(a[..1][..0]) + [a[0]]; }
    assert NonNull(a[..2]) == [a[0], a[1]] by { assert NonNull(a[..2]) == NonNull(a[..2][..1]) + [a[1]]; }
    assert NonNull(a) == NonNull(a[..2]) + [a[2]];
  }

  lemma ReduceXNineTen(a: seq<Arrow>)
    requires |a| == 3 && a[0] == LegacyX && a[1] == Number(9.0) && a[2] == Number(10.0)
    ensures Reduce(a) == Joined(Some("910"))
    ensures ReadNumber(Reduce(a)) == Fin(2320.0)
  {
    var a2, a1 := a[..2], a[..1];
    DigitTextNineTen();
    assert a2[..1] == a1 && a1[..0] == [];
    assert Reduce(a1) == Joined(Some(""));
    assert Reduce(a2) == Joined(Some("9")) by { assert "" + "9" == "9"; }
    assert Reduce(a) == Joined(Some("910")) by { assert "9" + "10" == "910"; }
    HexNineOneZero();
  }

  lemma DigitTextNineTen()
    ensures DigitText(9.0) == Some("9") && DigitText(10.0) == Some("10")
  {
    assert (9.0).Floor == 9 && (10.0).Floor == 10;
    assert Text.NatToString(9) == "9";
    assert Text.NatToString(10) == "10";
  }

  lemma HexNineOneZero()
    ensures Text.HexDigitsValue("910") == 2320
  {
    assert "910"[..2] == "91" && "91"[..1] == "9" && "9"[..0] == "";
  }

  /* ---------------- scored arrows ---------------- */

  /** `hit?.isX === true`. */
  function MarkedX(h: Option<Hit>): bool
  {
    h.Some? && h.value.isX
  }

  /** The entry slot `k` of a normalised volley contributes: none for a null score; otherwise
      its score (the legacy "X" read as 10), whether its hit is marked X, and its volley. */
  function SlotArrow(v: Volley, k: nat, volleyIndex: nat): (r: seq<Aggregates.ScoredArrow>)
    ensures |r| <= 1
    ensures r == [] <==> IsNullish(ArrowAt(ArrowsOrEmpty(v), k))
    ensures r != [] ==> r[0] == Aggregates.ScoredArrow(ScoreValue(ArrowAt(ArrowsOrEmpty(v), k)), MarkedX(HitAt(HitsOrEmpty(v), k)), volleyIndex)
  {
    var a := ArrowAt(ArrowsOrEmpty(v), k);
    if IsNullish(a) then []
    else [Aggregates.ScoredArrow(ScoreValue(a), MarkedX(HitAt(HitsOrEmpty(v), k)), volleyIndex)]
  }

  function VolleyScoredArrows(v: Volley, volleyIndex: nat): (r: seq<Aggregates.ScoredArrow>)
    ensures |r| <= ArrowsPerVolley
  {
    SlotArrow(v, 0, volleyIndex) + SlotArrow(v, 1, volleyIndex) + SlotArrow(v, 2, volleyIndex)
  }

  /** The scored arrows of one session, in volley and slot order. */
  function SessionScoredArrows(vs: seq<Volley>): (r: seq<Aggregates.ScoredArrow>)
    ensures |r| <= ArrowsPerVolley * |vs|
    ensures forall i :: 0 <= i < |r| ==> 0 <= r[i].volleyIndex < |vs|
    decreases |vs|
  {
    if vs == [] then []
    else SessionScoredArrows(vs[..|vs| - 1]) + VolleyScoredArrows(vs[|vs| - 1], |vs| - 1)
  }

  /** `arrows`: every session's scored arrows, sessions in order; each `volleyIndex` counts
      within its own session. */
  function Arrows(ss: seq<Session>): (r: seq<Aggregates.ScoredArrow>)
    ensures forall i :: 0 <= i < |r| ==> exists s :: s in ss && r[i].volleyIndex < |VolleysOrEmpty(s)|
    decreases |ss|
  {
    if ss == [] then [] else Arrows(ss[..|ss| - 1]) + SessionScoredArrows(VolleysOrEmpty(ss[|ss| - 1]))
  }

  lemma ScoresConcat(xs: seq<Aggregates.ScoredArrow>, ys: seq<Aggregates.ScoredArrow>)
    ensures Aggregates.Scores(xs + ys) == Aggregates.Scores(xs) + Aggregates.Scores(ys)
  {
    assert forall i :: 0 <= i < |xs + ys| ==> Aggregates.Scores(xs + ys)[i] == (Aggregates.Scores(xs) + Aggregates.Scores(ys))[i];
  }

  lemma ScoredValuesOfThree(a: seq<Arrow>)
    requires |a| == 3
    ensures ScoredValues(a) == ValueOf(a[0]) + ValueOf(a[1]) + ValueOf(a[2])
  {
    var a2, a1 := a[..2], a[..1];
    assert a2[..1] == a1 && a1[..0] == [];
    assert ScoredValues(a1) == ValueOf(a[0]);
    assert ScoredValues(a2) == ScoredValues(a1) + ValueOf(a[1]);
    assert ScoredValues(a) == ScoredValues(a2) + ValueOf(a[2]);
  }

  lemma VolleyScoresAgree(v: Volley, vi: nat)
    requires VolleyShaped(v)
    ensures Aggregates.Scores(VolleyScoredArrows(v, vi)) == ScoredValues(ArrowsOrEmpty(v))
  {
    var a := ArrowsOrEmpty(v);
    ScoredValuesOfThree(a);
    var s0, s1, s2 := SlotArrow(v, 0, vi), SlotArrow(v, 1, vi), SlotArrow(v, 2, vi);
    assert Aggregates.Scores(s0) == ValueOf(a[0]);
    assert Aggregates.Scores(s1) == ValueOf(a[1]);
    assert Aggregates.Scores(s2) == ValueOf(a[2]);
    ScoresConcat(s0, s1);
    ScoresConcat(s0 + s1, s2);
    assert VolleyScoredArrows(v, vi) == s0 + s1 + s2;
    assert Aggregates.Scores(s0 + s1 + s2) == ValueOf(a[0]) + ValueOf(a[1]) + ValueOf(a[2]);
    assert ScoredValues(a) == ValueOf(a[0]) + ValueOf(a[1]) + ValueOf(a[2]);
  }

  /** For normalised volleys, the scores the summary reads from `arrows` are exactly the
      non-null scores `averagePerSession` adds up. */
  lemma {:induction false} ArrowsAgreeWithAverages(vs: seq<Volley>)
    requires forall i :: 0 <= i < |vs| ==> VolleyShaped(vs[i])
    ensures Aggregates.Scores(SessionScoredArrows(vs)) == ScoredValues(FlatArrows(vs))
    decreases |vs|
  {
    if vs != [] {
      var init := vs[..|vs| - 1];
      var last := vs[|vs| - 1];
      ArrowsAgreeWithAverages(init);
      VolleyScoresAgree(last, |vs| - 1);
      ScoredValuesConcat(FlatArrows(init), ArrowsOrEmpty(last));
      var xs, ys := SessionScoredArrows(init), VolleyScoredArrows(last, |vs| - 1);
      ScoresConcat(xs, ys);
      assert SessionScoredArrows(vs) == xs + ys;
      assert FlatArrows(vs) == FlatArrows(init) + ArrowsOrEmpty(last);
    }
  }

  /* ---------------- hits ---------------- */

  /** One hit of `hits`: the `(xNorm, yNorm)` pair when both are finite, otherwise the `(x, y)`
      pair when both are finite, otherwise dropped. */
  function HitPoint(h: Option<Hit>): (r: Option<Dispersion.Point>)
    ensures r.Some? <==> h.Some? && ((h.value.xNorm.Some? && h.value.yNorm.Some?) || (h.value.x.Some? && h.value.y.Some?))
    ensures r.Some? && h.value.xNorm.Some? && h.value.yNorm.Some? ==> r.value == Dispersion.Point(h.value.xNorm.value, h.value.yNorm.value)
    ensures r.Some? && !(h.value.xNorm.Some? && h.value.yNorm.Some?) ==> r.value == Dispersion.Point(h.value.x.value, h.value.y.value)
  {
    if h.None? then None
    else if h.value.xNorm.Some? && h.value.yNorm.Some? then Some(Dispersion.Point(h.value.xNorm.value, h.value.yNorm.value))
    else if h.value.x.Some? && h.value.y.Some? then Some(Dispersion.Point(h.value.x.value, h.value.y.value))
    else None
  }

  function HitPoints(hs: seq<Option<Hit>>): (r: seq<Dispersion.Point>)
    ensures |r| <= |hs|
    decreases |hs|
  {
    if hs == [] then []
    else
      var p := HitPoint(hs[|hs| - 1]);
      HitPoints(hs[..|hs| - 1]) + (if p.Some? then [p.value] else [])
  }

  function SessionHits(vs: seq<Volley>): (r: seq<Dispersion.Point>)
    decreases |vs|
  {
    if vs == [] then [] else SessionHits(vs[..|vs| - 1]) + HitPoints(HitsOrEmpty(vs[|vs| - 1]))
  }

  /** `hits`: every usable hit of every session, in order. */
  function Hits(ss: seq<Session>): (r: seq<Dispersion.Point>)
    decreases |ss|
  {
    if ss == [] then [] else Hits(ss[..|ss| - 1]) + SessionHits(VolleysOrEmpty(ss[|ss| - 1]))
  }

  /** `flatMap` over the sessions: each list of sessions contributes its own hits, in order. */
  lemma {:induction false} HitsConcat(xs: seq<Session>, ys: seq<Session>)
    ensures Hits(xs + ys) == Hits(xs) + Hits(ys)
    decreases |ys|
  {
    if ys == [] {
      assert xs + ys == xs;
    } else {
      var init, last := ys[..|ys| - 1], ys[|ys| - 1];
      var zs := xs + ys;
      assert zs[..|zs| - 1] == xs + init;
      assert zs[|zs| - 1] == last;
      assert Hits(zs) == Hits(xs + init) + SessionHits(VolleysOrEmpty(last));
      HitsConcat(xs, init);
      assert Hits(ys) == Hits(init) + SessionHits(VolleysOrEmpty(last));
    }
  }

  /** The precedence is the reverse of the scoring screen's: with both pairs stored, the
      statistics use `xNorm`/`yNorm`, the scoring screen keeps `x`/`y`. */
  lemma HitPrecedenceReversed(h: Hit)
    requires h.x.Some? && h.y.Some? && h.xNorm.Some? && h.yNorm.Some?
    ensures HitPoint(Some(h)) == Some(Dispersion.Point(h.xNorm.value, h.yNorm.value))
    ensures Scoring.NormalizeHit(Some(h)).value.x == h.x && Scoring.NormalizeHit(Some(h)).value.y == h.y
  {
  }

  /* ---------------- hits by trispot face ---------------- */

  /** `Number.isFinite(norm) ? norm : Number.isFinite(legacy) ? legacy : null`. */
  function Coordinate(norm: Option<real>, legacy: Option<real>): (r: Option<real>)
    ensures r.Some? <==> norm.Some? || legacy.Some?
    ensures norm.Some? ==> r == norm
  {
    if norm.Some? then norm else legacy
  }

  /** One hit as `hitsBySpot` reads it: each coordinate resolved on its own. */
  function SpotPoint(h: Option<Hit>): (r: Option<Dispersion.Point>)
    ensures r.Some? <==> h.Some? && Coordinate(h.value.xNorm, h.value.x).Some? && Coordinate(h.value.yNorm, h.value.y).Some?
  {
    if h.None? then None
    else
      var x := Coordinate(h.value.xNorm, h.value.x);
      var y := Coordinate(h.value.yNorm, h.value.y);
      if x.None? || y.None? then None else Some(Dispersion.Point(x.value, y.value))
  }

  /** When a hit stores both coordinates of the same pair, both readings agree. */
  lemma SpotPointAgreesWithHitPoint(h: Hit)
    requires h.xNorm.Some? == h.yNorm.Some?
    requires h.xNorm.Some? || (h.x.Some? && h.y.Some?) || (h.x.None? && h.y.None?)
    ensures SpotPoint(Some(h)) == HitPoint(Some(h))
  {
  }

  /** A hit with `xNorm` but no `yNorm` is read as `(x, y)` by `hits` and as `(xNorm, y)` by
      `hitsBySpot`. */
  lemma MixedHitReadTwoWays()
    ensures var h := Hit(Some(0.1), Some(0.2), Some(0.3), None, false);
            HitPoint(Some(h)) == Some(Dispersion.Point(0.1, 0.2)) && SpotPoint(Some(h)) == Some(Dispersion.Point(0.3, 0.2))
  {
  }

  /** What one volley adds to the face `slot`. */
  function SlotContribution(v: Volley, slot: nat): (r: seq<Dispersion.Point>)
    ensures |r| <= 1
  {
    if v.hits.Some? && slot < |v.hits.value| && SpotPoint(v.hits.value[slot]).Some?
    then [SpotPoint(v.hits.value[slot]).value] else []
  }

  function SlotPoints(vs: seq<Volley>, slot: nat): (r: seq<Dispersion.Point>)
    ensures |r| <= |vs|
    decreases |vs|
  {
    if vs == [] then [] else SlotPoints(vs[..|vs| - 1], slot) + SlotContribution(vs[|vs| - 1], slot)
  }

  /** `hitsBySpot[high | middle | low]` for slot 0, 1, 2: the resolvable hits in that slot. */
  function SpotPoints(ss: seq<Session>, slot: nat): (r: seq<Dispersion.Point>)
    decreases |ss|
  {
    if ss == [] then [] else SpotPoints(ss[..|ss| - 1], slot) + SlotPoints(VolleysOrEmpty(ss[|ss| - 1]), slot)
  }

  lemma AppendAssoc(a: seq<Dispersion.Point>, b: seq<Dispersion.Point>, c: seq<Dispersion.Point>)
    ensures (a + b) + c == a + (b + c)
  {
  }

  lemma SlotPointsStep(vs: seq<Volley>, j: nat, slot: nat)
    requires j < |vs|
    ensures SlotPoints(vs[..j + 1], slot) == SlotPoints(vs[..j], slot) + SlotContribution(vs[j], slot)
  {
    assert vs[..j + 1][..j] == vs[..j];
  }

  lemma SpotPointsStep(ss: seq<Session>, i: nat, slot: nat)
    requires i < |ss|
    ensures SpotPoints(ss[..i + 1], slot) == SpotPoints(ss[..i], slot) + SlotPoints(VolleysOrEmpty(ss[i]), slot)
  {
    assert ss[..i + 1][..i] == ss[..i];
  }

  /** The innermost `forEach` of `hitsBySpot`: one volley's hits, slot by slot. */
  method AddVolleyHits(v: Volley, high0: seq<Dispersion.Point>, middle0: seq<Dispersion.Point>, low0: seq<Dispersion.Point>)
    returns (high: seq<Dispersion.Point>, middle: seq<Dispersion.Point>, low: seq<Dispersion.Point>)
    ensures high == high0 + SlotContribution(v, 0)
    ensures middle == middle0 + SlotContribution(v, 1)
    ensures low == low0 + SlotContribution(v, 2)
  {
    high, middle, low := high0, middle0, low0;
    if v.hits.Some? {
      var hs := v.hits.value;
      var k := 0;
      while k < |hs|
        invariant 0 <= k <= |hs|
        invariant high == high0 + (if k > 0 then SlotContribution(v, 0) else [])
        invariant middle == middle0 + (if k > 1 then SlotContribution(v, 1) else [])
        invariant low == low0 + (if k > 2 then SlotContribution(v, 2) else [])
      {
        var p := SpotPoint(hs[k]);
        if p.Some? {
          if k == 0 { high := high + [p.value]; }
          if k == 1 { middle := middle + [p.value]; }
          if k == 2 { low := low + [p.value]; }
        }
        k := k + 1;
      }
    }
  }

  /** The middle `forEach` of `hitsBySpot`: one session's volleys. */
  method AddSessionHits(vs: seq<Volley>, high0: seq<Dispersion.Point>, middle0: seq<Dispersion.Point>, low0: seq<Dispersion.Point>)
    returns (high: seq<Dispersion.Point>, middle: seq<Dispersion.Point>, low: seq<Dispersion.Point>)
    ensures high == high0 + SlotPoints(vs, 0)
    ensures middle == middle0 + SlotPoints(vs, 1)
    ensures low == low0 + SlotPoints(vs, 2)
  {
    high, middle, low := high0, middle0, low0;
    var j := 0;
    while j < |vs|
      invariant 0 <= j <= |vs|
      invariant high == high0 + SlotPoints(vs[..j], 0)
      invariant middle == middle0 + SlotPoints(vs[..j], 1)
      invariant low == low0 + SlotPoints(vs[..j], 2)
    {
      AppendAssoc(high0, SlotPoints(vs[..j], 0), SlotContribution(vs[j], 0));
      AppendAssoc(middle0, SlotPoints(vs[..j], 1), SlotContribution(vs[j], 1));
      AppendAssoc(low0, SlotPoints(vs[..j], 2), SlotContribution(vs[j], 2));
      high, middle, low := AddVolleyHits(vs[j], high, middle, low);
      SlotPointsStep(vs, j, 0);
      SlotPointsStep(vs, j, 1);
      SlotPointsStep(vs, j, 2);
      j := j + 1;
    }
    assert vs[..j] == vs;
  }

  /** `hitsBySpot`: the sessions in order. */
  method HitsBySpot(ss: seq<Session>) returns (high: seq<Dispersion.Point>, middle: seq<Dispersion.Point>, low: seq<Dispersion.Point>)
    ensures high == SpotPoints(ss, 0) && middle == SpotPoints(ss, 1) && low == SpotPoints(ss, 2)
  {
    high, middle, low := [], [], [];
    var i := 0;
    while i < |ss|
      invariant 0 <= i <= |ss|
      invariant high == SpotPoints(ss[..i], 0) && middle == SpotPoints(ss[..i], 1) && low == SpotPoints(ss[..i], 2)
    {
      high, middle, low := AddSessionHits(VolleysOrEmpty(ss[i]), high, middle, low);
      SpotPointsStep(ss, i, 0);
      SpotPointsStep(ss, i, 1);
      SpotPointsStep(ss, i, 2);
      i := i + 1;
    }
    assert ss[..i] == ss;
  }

  /** A hit lands on the face of its slot only: slot 0 high, 1 middle, 2 low. */
  lemma SlotDecidesFace(v: Volley, h: Dispersion.Point)
    requires v.hits.Some? && |v.hits.value| == 3
    requires SpotPoint(v.hits.value[1]) == Some(h)
    requires SpotPoint(v.hits.value[0]).None? && SpotPoint(v.hits.value[2]).None?
    ensures SlotContribution(v, 1) == [h]
    ensures SlotContribution(v, 0) == [] && SlotContribution(v, 2) == []
  {
  }

  /* ---------------- trispot summaries and interpretation ---------------- */

  const TrispotTarget: string := "Trispot"

  /** `sessions.some(s => s.targetType === "Trispot")`. */
  predicate IsTrispotSelected(ss: seq<Session>)
  {
    exists i :: 0 <= i < |ss| && ss[i].targetType == Some(TrispotTarget)
  }

  /** The test is exact: a selection whose only target is spelt "trispot" is not a trispot one. */
  lemma TrispotTestIsExact(s: Session)
    requires s.targetType == Some("trispot")
    ensures !IsTrispotSelected([s])
    ensures IsTrispotSelected([s.(targetType := Some(TrispotTarget))])
  {
    assert [s.(targetType := Some(TrispotTarget))][0].targetType == Some(TrispotTarget);
  }

  /** `technicalBySpot`: null unless a trispot session is selected, otherwise one technical
      summary per face. */
  function TechnicalBySpot(ss: seq<Session>): (r: Option<Interpretation.SummaryBySpot>)
    ensures r.Some? <==> IsTrispotSelected(ss)
    ensures r.Some? ==> var n := NormalizeSessions(ss);
              r.value == Interpretation.SummaryBySpot(
                Dispersion.ComputeTechnicalSummary(SpotPoints(n, 0)),
                Dispersion.ComputeTechnicalSummary(SpotPoints(n, 1)),
                Dispersion.ComputeTechnicalSummary(SpotPoints(n, 2)))
  {
    if !IsTrispotSelected(ss) then None
    else
      var n := NormalizeSessions(ss);
      Some(Interpretation.SummaryBySpot(
        Dispersion.ComputeTechnicalSummary(SpotPoints(n, 0)),
        Dispersion.ComputeTechnicalSummary(SpotPoints(n, 1)),
        Dispersion.ComputeTechnicalSummary(SpotPoints(n, 2))))
  }

  /** `technicalBySpot?.high || technicalBySpot?.middle || technicalBySpot?.low`. */
  predicate AnySpotSummary(b: Option<Interpretation.SummaryBySpot>)
  {
    b.Some? && (b.value.high.Some? || b.value.middle.Some? || b.value.low.Some?)
  }

  /** `interpretation` as written: the summaries are handed over as they are. */
  function InterpretationAsWired(technical: Option<Dispersion.TechnicalSummary>, b: Option<Interpretation.SummaryBySpot>): (r: Option<string>)
    ensures AnySpotSummary(b) ==> r == Interpretation.TrispotAdvice(Some(Interpretation.BySpotAsWired(b.value)))
    ensures !AnySpotSummary(b) ==> (r.None? <==> technical.None?)
    ensures !AnySpotSummary(b) && technical.Some? ==> r.value == Interpretation.InterpretGrouping(Interpretation.GroupingAsWired(technical.value))
  {
    if AnySpotSummary(b) then Interpretation.TrispotAdvice(Some(Interpretation.BySpotAsWired(b.value)))
    else if technical.None? then None
    else Some(Interpretation.InterpretGrouping(Interpretation.GroupingAsWired(technical.value)))
  }

  /** `interpretation` with the summaries' fields read under their own names: the trispot advice
      whenever some face has a summary, even when that advice is null; else null without a
      technical summary; else the grouping verdict. */
  function InterpretationOf(technical: Option<Dispersion.TechnicalSummary>, b: Option<Interpretation.SummaryBySpot>): (r: Option<string>)
    ensures AnySpotSummary(b) ==> r == Interpretation.TrispotAdvice(Some(Interpretation.BySpotOf(b.value)))
    ensures !AnySpotSummary(b) ==> (r.None? <==> technical.None?)
    ensures !AnySpotSummary(b) && technical.Some? ==> r.value == Interpretation.InterpretGrouping(Interpretation.GroupingOf(technical.value))
  {
    if AnySpotSummary(b) then Interpretation.TrispotAdvice(Some(Interpretation.BySpotOf(b.value)))
    else if technical.None? then None
    else Some(Interpretation.InterpretGrouping(Interpretation.GroupingOf(technical.value)))
  }

  /** As written, once any face has a summary the screen shows no advice at all, even where a
      grouping verdict exists. */
  lemma InterpretationAsWiredSilentOnTrispot(technical: Option<Dispersion.TechnicalSummary>, b: Option<Interpretation.SummaryBySpot>)
    requires AnySpotSummary(b)
    ensures InterpretationAsWired(technical, b).None?
  {
    Interpretation.TrispotAsWiredNull(b);
  }

  /** The grouping verdict is reached only when no face has a summary. */
  lemma GroupingOnlyWithoutSpots(technical: Dispersion.TechnicalSummary, b: Option<Interpretation.SummaryBySpot>)
    requires InterpretationOf(Some(technical), b) == Some(Interpretation.CompactAdvice)
    ensures !AnySpotSummary(b) || Interpretation.TrispotAdvice(Some(Interpretation.BySpotOf(b.value))) == Some(Interpretation.CompactAdvice)
    ensures !AnySpotSummary(b) ==> Roots.Below(technical.dispersionRadius, Interpretation.CompactBelowMm)
  {
  }

  /* ---------------- analysis context ---------------- */

  /** `[...new Set(values)]`: the distinct values in order of first occurrence. */
  function Distinct<T(==,!new)>(xs: seq<T>): (r: seq<T>)
    ensures forall x :: x in r <==> x in xs
    ensures forall i, j :: 0 <= i < j < |r| ==> r[i] != r[j]
    decreases |xs|
  {
    if xs == [] then []
    else
      var init := Distinct(xs[..|xs| - 1]);
      var last := xs[|xs| - 1];
      assert forall x :: x in xs <==> x in xs[..|xs| - 1] || x == last by {
        assert xs == xs[..|xs| - 1] + [last];
      }
      if last in init then init else init + [last]
  }

  /** The value shown for one attribute: the single value, or "<caption> misto". */
  datatype Shown<T> = Single(value: T) | Mixed(text: string)

  function SingleOrMixed<T>(values: seq<T>, caption: string): (r: Shown<T>)
    ensures r.Single? <==> |values| == 1
    ensures r.Mixed? ==> r.text == caption + " misto"
  {
    if |values| == 1 then Single(values[0]) else Mixed(caption + " misto")
  }

  /** An attribute is shown as a single value exactly when all its present values agree and
      at least one is present. */
  lemma SingleIffUnanimous<T(!new)>(values: seq<T>, caption: string, v: T)
    ensures SingleOrMixed(Distinct(values), caption) == Single(v) <==>
            v in values && forall i :: 0 <= i < |values| ==> values[i] == v
  {
    var d := Distinct(values);
    if v in values && forall i :: 0 <= i < |values| ==> values[i] == v {
      forall i | 0 <= i < |d|
        ensures d[i] == v
      {
        assert d[i] in values;
      }
      assert v in d;
      var k := |d| - 1;
      assert d[0] == v && d[k] == v;
      assert k == 0;
    }
    if SingleOrMixed(d, caption) == Single(v) {
      assert d == [v];
      forall i | 0 <= i < |values|
        ensures values[i] == v
      {
        assert values[i] in d;
      }
    }
  }

  function PresentKinds(ss: seq<Session>): (r: seq<string>)
    decreases |ss|
  {
    if ss == [] then [] else PresentKinds(ss[..|ss| - 1]) + (var a := ss[|ss| - 1].kind; if a.Some? then [a.value] else [])
  }

  function PresentEnvironments(ss: seq<Session>): (r: seq<string>)
    decreases |ss|
  {
    if ss == [] then [] else PresentEnvironments(ss[..|ss| - 1]) + (var a := ss[|ss| - 1].environment; if a.Some? then [a.value] else [])
  }

  function PresentTargets(ss: seq<Session>): (r: seq<string>)
    decreases |ss|
  {
    if ss == [] then [] else PresentTargets(ss[..|ss| - 1]) + (var a := ss[|ss| - 1].targetType; if a.Some? then [a.value] else [])
  }

  /** `v != null` for a distance: NaN, numbers and texts are kept. */
  function PresentDistances(ss: seq<Session>): (r: seq<Distance>)
    decreases |ss|
  {
    if ss == [] then []
    else
      var d := ss[|ss| - 1].distance;
      PresentDistances(ss[..|ss| - 1]) + (if d == DNull || d == DUndefined then [] else [d])
  }

  datatype AnalysisContext = AnalysisContext(
    count: nat,
    kind: Shown<string>,
    distance: Shown<Distance>,
    environment: Shown<string>,
    target: Shown<string>)

  /** `analysisContext`: null without sessions. */
  function AnalysisContextOf(ss: seq<Session>): (r: Option<AnalysisContext>)
    ensures r.None? <==> ss == []
    ensures r.Some? ==> r.value.count == |ss|
    ensures r.Some? ==> r.value.kind == SingleOrMixed(Distinct(PresentKinds(ss)), "Tipologia")
    ensures r.Some? ==> r.value.distance == SingleOrMixed(Distinct(PresentDistances(ss)), "Distanza")
    ensures r.Some? ==> r.value.environment == SingleOrMixed(Distinct(PresentEnvironments(ss)), "Ambiente")
    ensures r.Some? ==> r.value.target == SingleOrMixed(Distinct(PresentTargets(ss)), "Bersaglio")
  {
    if |ss| == 0 then None
    else Some(AnalysisContext(
      |ss|,
      SingleOrMixed(Distinct(PresentKinds(ss)), "Tipologia"),
      SingleOrMixed(Distinct(PresentDistances(ss)), "Distanza"),
      SingleOrMixed(Distinct(PresentEnvironments(ss)), "Ambiente"),
      SingleOrMixed(Distinct(PresentTargets(ss)), "Bersaglio")))
  }

  /** Sessions without any kind show "Tipologia misto", like sessions of several kinds. */
  lemma NoKindIsMixed(ss: seq<Session>)
    requires ss != []
    requires forall i :: 0 <= i < |ss| ==> ss[i].kind.None?
    ensures AnalysisContextOf(ss).value.kind == Mixed("Tipologia misto")
  {
    NoKindsPresent(ss);
    var kinds: seq<string> := [];
    assert Distinct(kinds) == [];
    KindMixedCaption();
  }

  lemma KindMixedCaption()
    ensures SingleOrMixed<string>([], "Tipologia") == Mixed("Tipologia misto")
  {
    assert "Tipologia" + " misto" == "Tipologia misto";
  }

  lemma {:induction false} NoKindsPresent(ss: seq<Session>)
    requires forall i :: 0 <= i < |ss| ==> ss[i].kind.None?
    ensures PresentKinds(ss) == []
    decreases |ss|
  {
    if ss != [] {
      NoKindsPresent(ss[..|ss| - 1]);
    }
  }
}
