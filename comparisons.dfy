/** The competition-versus-training comparison: sessions shot under equivalent conditions
    (same distance, same target face) are split by kind, each session is reduced to its mean
    volley total, and the two group means are compared. */
module Comparisons {
  import opened Wrappers
  import opened Reals
  import opened SessionModel
  import Text
  import Seqs
  import Aggregates

  const DefaultDistance: int := 18
  const DefaultTargetType: string := "40cm"
  const Training: string := "Allenamento"
  const Competition: string := "Competizione"

  /** The `options` object: each field is `None` when it is left undefined. */
  datatype Options = Options(distance: Option<int>, targetType: Option<string>)

  /** `Number(String(s.distance).replace(/[^\d]/g, ""))`: the digits of the rendered distance
      read as one number, 0 when there are none. */
  function ParsedDistance(d: Distance): nat
  {
    var digits := Text.KeepDigits(DistanceText(d));
    Text.DigitsValue(digits)
  }

  /** `String(t).replace(/\s+/g, "").toLowerCase()`. */
  function FoldTarget(t: string): string
  {
    Text.Lower(Text.StripSpaces(t))
  }

  /** The filter of equivalent conditions. */
  predicate Equivalent(s: Session, distance: int, targetType: string)
  {
    && ParsedDistance(s.distance) == distance
    && FoldTarget(AttrText(s.targetType)) == FoldTarget(targetType)
    && (s.kind == Some(Competition) || s.kind == Some(Training))
  }

  function Retained(sessions: seq<Session>, distance: int, targetType: string): (r: seq<Session>)
    ensures forall s :: s in r <==> s in sessions && Equivalent(s, distance, targetType)
  {
    var p := (s: Session) => Equivalent(s, distance, targetType);
    var r := Seqs.Filter(sessions, p);
    assert forall s :: s in r <==> s in sessions && p(s) by {
      forall s ensures s in r <==> s in sessions && p(s) {
        Seqs.FilterMembership(sessions, p, s);
      }
    }
    r
  }

  /** `volleys.map(v => v.total).filter(Number.isFinite)`. */
  function FiniteTotals(volleys: seq<Volley>): (r: seq<real>)
    ensures |r| <= |volleys|
    decreases |volleys|
  {
    if volleys == [] then []
    else
      var last := volleys[|volleys| - 1];
      FiniteTotals(volleys[..|volleys| - 1]) + (if last.total.Fin? then [last.total.v] else [])
  }

  /** The inner `averagePerVolley(session)`: null without volleys or without any finite total,
      otherwise the mean of the finite totals only. */
  function AveragePerVolley(s: Session): (r: Option<real>)
    ensures r.None? <==> FiniteTotals(VolleysOrEmpty(s)) == []
    ensures r.Some? ==> r.value * |FiniteTotals(VolleysOrEmpty(s))| as real == Sum(FiniteTotals(VolleysOrEmpty(s)))
  {
    var volleys := VolleysOrEmpty(s);
    if |volleys| == 0 then
      assert FiniteTotals(volleys) == [];
      None
    else
      var totals := FiniteTotals(volleys);
      if |totals| == 0 then None else Some(Average(totals))
  }

  /** A volley whose total is not finite has no influence on the session's average, wherever it
      stands among the volleys. */
  lemma NonFiniteTotalIgnored(s: Session, v: Volley, i: nat)
    requires s.volleys.Some? && i <= |s.volleys.value| && !v.total.Fin?
    ensures AveragePerVolley(s.(volleys := Some(s.volleys.value[..i] + [v] + s.volleys.value[i..]))) == AveragePerVolley(s)
  {
    var vs := s.volleys.value;
    var xs, ys := vs[..i], vs[i..];
    var t := s.(volleys := Some(xs + [v] + ys));
    FiniteTotalsConcat(xs + [v], ys);
    FiniteTotalsConcat(xs, ys);
    assert (xs + [v])[..|xs|] == xs;
    assert FiniteTotals(xs + [v]) == FiniteTotals(xs);
    assert xs + ys == vs;
    SameFiniteTotals(t, s);
  }

  /** The average depends on the finite totals only. */
  lemma SameFiniteTotals(s: Session, t: Session)
    requires FiniteTotals(VolleysOrEmpty(s)) == FiniteTotals(VolleysOrEmpty(t))
    ensures AveragePerVolley(s) == AveragePerVolley(t)
  {
  }

  lemma {:induction false} FiniteTotalsConcat(xs: seq<Volley>, ys: seq<Volley>)
    ensures FiniteTotals(xs + ys) == FiniteTotals(xs) + FiniteTotals(ys)
    decreases |ys|
  {
    if ys == [] {
      assert xs + ys == xs;
    } else {
      var init, last := ys[..|ys| - 1], ys[|ys| - 1];
      FiniteTotalsConcat(xs, init);
      assert (xs + ys)[..|xs + ys| - 1] == xs + init;
    }
  }

  /** When every total is finite the average is the plain mean of the volley totals. */
  lemma {:induction false} AllFiniteTotals(volleys: seq<Volley>)
    requires forall i :: 0 <= i < |volleys| ==> volleys[i].total.Fin?
    ensures |FiniteTotals(volleys)| == |volleys|
    ensures forall i :: 0 <= i < |volleys| ==> FiniteTotals(volleys)[i] == volleys[i].total.v
    decreases |volleys|
  {
    if volleys != [] {
      AllFiniteTotals(volleys[..|volleys| - 1]);
    }
  }

  predicate HasAverage(s: Session) { AveragePerVolley(s).Some? }

  /** The averages the `forEach` loop pushes into the group of `kind`, in session order. */
  function GroupAverages(filtered: seq<Session>, kind: string): (r: seq<real>)
    ensures |r| <= |filtered|
    decreases |filtered|
  {
    if filtered == [] then []
    else
      var s := filtered[|filtered| - 1];
      var avg := AveragePerVolley(s);
      GroupAverages(filtered[..|filtered| - 1], kind) + (if avg.Some? && s.kind == Some(kind) then [avg.value] else [])
  }

  /** A group holds exactly the averages of the retained sessions of its kind that have one. */
  lemma {:induction false} GroupAveragesMembers(filtered: seq<Session>, kind: string, x: real)
    ensures x in GroupAverages(filtered, kind)
            <==> exists s :: s in filtered && s.kind == Some(kind) && AveragePerVolley(s) == Some(x)
    decreases |filtered|
  {
    if filtered != [] {
      var init, last := filtered[..|filtered| - 1], filtered[|filtered| - 1];
      GroupAveragesMembers(init, kind, x);
      assert filtered == init + [last];
      assert forall s :: s in filtered <==> s in init || s == last;
    }
  }

  /** The two groups receive exactly the retained sessions that have an average: each such
      session lands in one group and one only. */
  lemma {:induction false} GroupsCoverAveraged(filtered: seq<Session>)
    requires forall i :: 0 <= i < |filtered| ==> filtered[i].kind == Some(Competition) || filtered[i].kind == Some(Training)
    ensures |GroupAverages(filtered, Training)| + |GroupAverages(filtered, Competition)| == Seqs.Count(filtered, HasAverage)
    decreases |filtered|
  {
    if filtered != [] {
      GroupsCoverAveraged(filtered[..|filtered| - 1]);
    }
  }

  lemma GroupAveragesStep(filtered: seq<Session>, i: nat, kind: string)
    requires i < |filtered|
    ensures var s := filtered[i];
            GroupAverages(filtered[..i + 1], kind)
            == GroupAverages(filtered[..i], kind) + (if AveragePerVolley(s).Some? && s.kind == Some(kind) then [AveragePerVolley(s).value] else [])
  {
    assert filtered[..i + 1][..i] == filtered[..i];
  }

  /** The loop `filtered.forEach(s => { ... training.push(avg) ... competition.push(avg) })`. */
  method SplitByKind(filtered: seq<Session>) returns (training: seq<real>, competition: seq<real>)
    ensures training == GroupAverages(filtered, Training)
    ensures competition == GroupAverages(filtered, Competition)
  {
    training, competition := [], [];
    var i := 0;
    while i < |filtered|
      invariant 0 <= i <= |filtered|
      invariant training == GroupAverages(filtered[..i], Training)
      invariant competition == GroupAverages(filtered[..i], Competition)
    {
      var s := filtered[i];
      GroupAveragesStep(filtered, i, Training);
      GroupAveragesStep(filtered, i, Competition);
      var avg := AveragePerVolley(s);
      if avg.Some? {
        if s.kind == Some(Training) {
          training := training + [avg.value];
        }
        if s.kind == Some(Competition) {
          competition := competition + [avg.value];
        }
      }
      i := i + 1;
    }
    assert filtered[..i] == filtered;
  }

  /** The object `compareCompetitionVsTraining` returns. */
  datatype Comparison = Comparison(
    distance: int,
    targetType: string,
    trainingAvg: Option<real>,
    competitionAvg: Option<real>,
    delta: Option<real>,
    trainingCount: nat,
    competitionCount: nat)

  /** The comparison, as a value. */
  function Compare(sessions: seq<Session>, options: Options): (r: Comparison)
    ensures r.distance == options.distance.GetOr(DefaultDistance)
    ensures r.targetType == options.targetType.GetOr(DefaultTargetType)
    ensures var filtered := Retained(sessions, r.distance, r.targetType);
            && r.trainingCount == |GroupAverages(filtered, Training)|
            && r.competitionCount == |GroupAverages(filtered, Competition)|
            && r.trainingAvg == Aggregates.Mean(GroupAverages(filtered, Training))
            && r.competitionAvg == Aggregates.Mean(GroupAverages(filtered, Competition))
            && r.trainingCount + r.competitionCount <= |filtered|
    ensures r.trainingAvg.None? <==> r.trainingCount == 0
    ensures r.competitionAvg.None? <==> r.competitionCount == 0
    ensures r.delta.Some? <==> r.trainingAvg.Some? && r.competitionAvg.Some?
    ensures r.delta.Some? ==> r.delta.value == r.competitionAvg.value - r.trainingAvg.value
  {
    var distance := options.distance.GetOr(DefaultDistance);
    var targetType := options.targetType.GetOr(DefaultTargetType);
    var filtered := Retained(sessions, distance, targetType);
    var training := GroupAverages(filtered, Training);
    var competition := GroupAverages(filtered, Competition);
    CountsBounded(filtered);
    var trainingAvg := Aggregates.Mean(training);
    var competitionAvg := Aggregates.Mean(competition);
    Comparison(
      distance,
      targetType,
      trainingAvg,
      competitionAvg,
      if trainingAvg.Some? && competitionAvg.Some? then Some(competitionAvg.value - trainingAvg.value) else None,
      |training|,
      |competition|)
  }

  lemma CountsBounded(filtered: seq<Session>)
    ensures |GroupAverages(filtered, Training)| + |GroupAverages(filtered, Competition)| <= |filtered|
  {
    var p := (s: Session) => s.kind == Some(Competition) || s.kind == Some(Training);
    if forall i :: 0 <= i < |filtered| ==> p(filtered[i]) {
      GroupsCoverAveraged(filtered);
    } else {
      GroupsBounded(filtered);
    }
  }

  /** Two distinct kinds never share a session, so the groups together are never longer than the list. */
  lemma {:induction false} GroupsBounded(filtered: seq<Session>)
    ensures |GroupAverages(filtered, Training)| + |GroupAverages(filtered, Competition)| <= |filtered|
    decreases |filtered|
  {
    if filtered != [] {
      GroupsBounded(filtered[..|filtered| - 1]);
    }
  }

  /** `compareCompetitionVsTraining(sessions, options)`. */
  method CompareCompetitionVsTraining(sessions: seq<Session>, options: Options) returns (r: Comparison)
    ensures r == Compare(sessions, options)
  {
    var distance := options.distance.GetOr(DefaultDistance);
    var targetType := options.targetType.GetOr(DefaultTargetType);
    var filtered := Retained(sessions, distance, targetType);
    var training, competition := SplitByKind(filtered);
    var trainingAvg := Aggregates.Mean(training);
    var competitionAvg := Aggregates.Mean(competition);
    var delta := if trainingAvg.Some? && competitionAvg.Some? then Some(competitionAvg.value - trainingAvg.value) else None;
    r := Comparison(distance, targetType, trainingAvg, competitionAvg, delta, |training|, |competition|);
    CompareUnfolds(sessions, options, distance, targetType, training, competition);
  }

  lemma CompareUnfolds(sessions: seq<Session>, options: Options, distance: int, targetType: string,
                       training: seq<real>, competition: seq<real>)
    requires distance == options.distance.GetOr(DefaultDistance)
    requires targetType == options.targetType.GetOr(DefaultTargetType)
    requires training == GroupAverages(Retained(sessions, distance, targetType), Training)
    requires competition == GroupAverages(Retained(sessions, distance, targetType), Competition)
    ensures var trainingAvg, competitionAvg := Aggregates.Mean(training), Aggregates.Mean(competition);
            Compare(sessions, options)
            == Comparison(distance, targetType, trainingAvg, competitionAvg,
                          if trainingAvg.Some? && competitionAvg.Some? then Some(competitionAvg.value - trainingAvg.value) else None,
                          |training|, |competition|)
  {
    var c := Compare(sessions, options);
    assert c.distance == distance && c.targetType == targetType;
    assert c.trainingAvg == Aggregates.Mean(training) && c.competitionAvg == Aggregates.Mean(competition);
    assert c.trainingCount == |training| && c.competitionCount == |competition|;
  }

  lemma DigitsOf18()
    ensures Text.DigitsValue("18") == 18
  {
    assert "18"[..1] == "1";
    assert "1"[..0] == "";
  }

  /** "18 m", "18m" and 18 all read as distance 18. */
  lemma DistanceSpellings()
    ensures ParsedDistance(DText("18 m")) == 18
    ensures ParsedDistance(DText("18m")) == 18
    ensures ParsedDistance(DNum(18)) == 18
  {
    DigitsOf18();
    KeepDigitsOf18Spaced();
    KeepDigitsOf18m();
    assert Text.NatToString(18) == "18";
    Text.KeepDigitsOfDigits("18");
  }

  lemma KeepDigitsOf18Spaced()
    ensures Text.KeepDigits("18 m") == "18"
  {
    assert "18 m"[..3] == "18 ";
    assert "18 "[..2] == "18";
    assert "18"[..1] == "1";
    assert "1"[..0] == "";
  }

  lemma KeepDigitsOf18m()
    ensures Text.KeepDigits("18m") == "18"
  {
    assert "18m"[..2] == "18";
    assert "18"[..1] == "1";
    assert "1"[..0] == "";
  }

  /** A distance without digits reads as `Number("")`, that is 0. */
  lemma DistanceWithoutDigits()
    ensures ParsedDistance(DText("m")) == 0
    ensures ParsedDistance(DNull) == 0
  {
    assert Text.KeepDigits("m") == "" by {
      assert "m"[..0] == "";
    }
    assert Text.KeepDigits("null") == "" by {
      assert "null"[..3] == "nul";
      assert "nul"[..2] == "nu";
      assert "nu"[..1] == "n";
      assert "n"[..0] == "";
    }
  }

  /** The target type matches regardless of spacing and letter case. */
  lemma TargetSpellings()
    ensures FoldTarget("40 CM") == FoldTarget("40cm")
  {
    SpacesStripped();
    CaseFolded();
  }

  lemma SpacesStripped()
    ensures Text.StripSpaces("40 CM") == "40CM"
    ensures Text.StripSpaces("40cm") == "40cm"
  {
    StripSpaced();
    StripPlain();
  }

  lemma StripSpaced()
    ensures Text.StripSpaces("40 CM") == "40CM"
  {
    StripTwoDigits();
    assert "40 " == "40" + [' '] && "40 C" == "40 " + ['C'] && "40 CM" == "40 C" + ['M'];
    StripSnoc("40", ' ');
    StripSnoc("40 ", 'C');
    StripSnoc("40 C", 'M');
  }

  lemma StripPlain()
    ensures Text.StripSpaces("40cm") == "40cm"
  {
    StripTwoDigits();
    assert "40c" == "40" + ['c'] && "40cm" == "40c" + ['m'];
    StripSnoc("40", 'c');
    StripSnoc("40c", 'm');
  }

  lemma StripSnoc(s: string, c: char)
    ensures Text.StripSpaces(s + [c]) == Text.StripSpaces(s) + (if Text.IsSpace(c) then "" else [c])
  {
    assert (s + [c])[..|s|] == s;
  }

  lemma StripTwoDigits()
    ensures Text.StripSpaces("40") == "40"
  {
    assert "40"[..1] == "4";
    assert "4"[..0] == "";
  }

  lemma CaseFolded()
    ensures Text.Lower("40CM") == "40cm" == Text.Lower("40cm")
  {
    var u, l := Text.Lower("40CM"), Text.Lower("40cm");
    assert u[0] == '4' && u[1] == '0' && u[2] == 'c' && u[3] == 'm';
    assert l[0] == '4' && l[1] == '0' && l[2] == 'c' && l[3] == 'm';
  }

  function SessionOf(kind: string, total: real): Session
  {
    Session(None, None, None, Some(kind), None, Some("40cm"), DNum(18),
            Some([Volley(Some([Null, Null, Null]), Some([]), Fin(total), map[])]), map[])
  }

  lemma SessionOfAverage(kind: string, total: real)
    ensures AveragePerVolley(SessionOf(kind, total)) == Some(total)
  {
    var vs := SessionOf(kind, total).volleys.value;
    assert vs[..0] == [];
    assert FiniteTotals(vs) == [total];
    assert Sum([total]) == total;
  }

  lemma SessionOfRetained(kind: string, total: real)
    requires kind == Training || kind == Competition
    ensures Equivalent(SessionOf(kind, total), DefaultDistance, DefaultTargetType)
  {
    DistanceSpellings();
  }

  /** One training session averaging 25 per volley and one competition session averaging 27
      give a delta of 2 with the default options. */
  lemma DeltaExample()
    ensures var r := Compare([SessionOf(Training, 25.0), SessionOf(Competition, 27.0)], Options(None, None));
            r.delta == Some(2.0) && r.trainingCount == 1 && r.competitionCount == 1
  {
    ExamplePair();
    SingletonMean(25.0);
    SingletonMean(27.0);
  }

  /** Both sessions of the example are retained, and each lands in its own group. */
  lemma ExamplePair()
    ensures var a, b := SessionOf(Training, 25.0), SessionOf(Competition, 27.0);
            && Retained([a, b], DefaultDistance, DefaultTargetType) == [a, b]
            && GroupAverages([a, b], Training) == [25.0]
            && GroupAverages([a, b], Competition) == [27.0]
  {
    ExampleRetained();
    assert Training[0] != Competition[0];
    ExampleGroup(Training, 25.0, Competition, 27.0);
    ExampleGroup(Competition, 27.0, Training, 25.0);
  }

  lemma ExampleRetained()
    ensures var a, b := SessionOf(Training, 25.0), SessionOf(Competition, 27.0);
            Retained([a, b], DefaultDistance, DefaultTargetType) == [a, b]
  {
    var a, b := SessionOf(Training, 25.0), SessionOf(Competition, 27.0);
    SessionOfRetained(Training, 25.0);
    SessionOfRetained(Competition, 27.0);
    PairRetained(a, b, DefaultDistance, DefaultTargetType);
  }

  lemma PairRetained(a: Session, b: Session, distance: int, targetType: string)
    requires Equivalent(a, distance, targetType) && Equivalent(b, distance, targetType)
    ensures Retained([a, b], distance, targetType) == [a, b]
  {
    var xs := [a, b];
    assert forall i :: 0 <= i < |xs| ==> xs[i] == a || xs[i] == b;
    RetainedAll(xs, distance, targetType);
  }

  /** A list whose every session is equivalent to the options is retained whole. */
  lemma RetainedAll(sessions: seq<Session>, distance: int, targetType: string)
    requires forall i :: 0 <= i < |sessions| ==> Equivalent(sessions[i], distance, targetType)
    ensures Retained(sessions, distance, targetType) == sessions
  {
    Seqs.FilterAll(sessions, (s: Session) => Equivalent(s, distance, targetType));
  }

  /** Of two sessions of different kinds, each group holds the average of its own. */
  lemma ExampleGroup(k: string, x: real, other: string, y: real)
    requires k != other
    ensures var a, b := SessionOf(k, x), SessionOf(other, y);
            GroupAverages([a, b], k) == [x] && GroupAverages([b, a], k) == [x]
  {
    var a, b := SessionOf(k, x), SessionOf(other, y);
    SessionOfAverage(k, x);
    SessionOfAverage(other, y);
    assert [a, b][..1] == [a] && [b, a][..1] == [b];
    assert [a][..0] == [] && [b][..0] == [];
    assert GroupAverages([a], k) == [x];
    assert GroupAverages([b], k) == [];
  }

  lemma SingletonMean(x: real)
    ensures Aggregates.Mean([x]) == Some(x)
  {
    assert [x][..0] == [];
    assert Sum([x]) == x;
  }
}
