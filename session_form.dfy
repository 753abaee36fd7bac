/** The new/edit session form: the initial field values, and the payload `submit` hands on,
    built from the stored session (when editing) with six fields overwritten, plus a fresh
    scorecard when the session is new. */
module SessionForm {
  import opened Wrappers
  import opened SessionModel
  import Text
  import Scoring

  const Distances: seq<nat> := [18, 25, 30, 50, 70, 90]
  const TargetTypes: seq<string> := ["Trispot", "40cm", "60cm", "120cm"]
  const Environments: seq<string> := ["Indoor", "Outdoor"]
  const Kinds: seq<string> := ["Allenamento", "Competizione"]

  const DefaultKind: string := "Allenamento"
  const DefaultTarget: string := "Trispot"
  const DefaultEnvironment: string := "Indoor"
  const DefaultDistance: nat := 18

  /** The defaults are among the choices the form offers. */
  lemma DefaultsAreOffered()
    ensures DefaultKind in Kinds && DefaultTarget in TargetTypes && DefaultEnvironment in Environments
    ensures DefaultDistance in Distances
  {
    assert Kinds[0] == DefaultKind && TargetTypes[0] == DefaultTarget && Environments[0] == DefaultEnvironment;
    assert Distances[0] == DefaultDistance;
  }

  /** The form's fields. `date` is the chosen day; a select that was changed holds the option's
      text, so the distance may be a number or a text. */
  datatype FormState = FormState(date: int, kind: string, targetType: string, environment: string, distance: Distance)

  /** Whether a distance field is truthy: a non-zero number or a non-empty text. */
  predicate DistanceTruthy(d: Distance)
  {
    (d.DNum? && d.n != 0) || (d.DText? && d.text != "")
  }

  /** The `useState` initial values: the stored field when it is truthy, the default otherwise;
      the stored day, or today when the stored date is missing. */
  function InitialState(initial: Option<Session>, today: int): (r: FormState)
    ensures initial.None? ==> r == FormState(today, DefaultKind, DefaultTarget, DefaultEnvironment, DNum(DefaultDistance))
    ensures initial.Some? ==> r.kind == Text.OrElse(initial.value.kind, DefaultKind)
    ensures initial.Some? ==> r.targetType == Text.OrElse(initial.value.targetType, DefaultTarget)
    ensures initial.Some? ==> r.environment == Text.OrElse(initial.value.environment, DefaultEnvironment)
    ensures initial.Some? && DistanceTruthy(initial.value.distance) ==> r.distance == initial.value.distance
    ensures initial.Some? && !DistanceTruthy(initial.value.distance) ==> r.distance == DNum(DefaultDistance)
    ensures initial.Some? && initial.value.date.Some? ==> r.date == initial.value.date.value
    ensures (initial.None? || initial.value.date.None?) ==> r.date == today
  {
    if initial.None? then FormState(today, DefaultKind, DefaultTarget, DefaultEnvironment, DNum(DefaultDistance))
    else
      var s := initial.value;
      FormState(
        if s.date.Some? then s.date.value else today,
        Text.OrElse(s.kind, DefaultKind),
        Text.OrElse(s.targetType, DefaultTarget),
        Text.OrElse(s.environment, DefaultEnvironment),
        if DistanceTruthy(s.distance) then s.distance else DNum(DefaultDistance))
  }

  /** `Number(distance)`: a number stays; a text, once trimmed of white space, reads as the
      value of its digits, and as 0 when nothing is left; null reads 0 and undefined NaN. Texts
      that JavaScript reads through a fraction, an exponent, a sign or a base prefix are read
      here as NaN (distances are whole numbers). */
  function NumberOf(d: Distance): (r: Distance)
    ensures r.DNum? || r.DNaN?
    ensures d.DNum? ==> r == d
    ensures d.DText? && Text.AllDigits(Text.Trim(d.text)) ==> r == DNum(Text.DigitsValue(Text.Trim(d.text)))
    ensures d.DText? && !Text.AllDigits(Text.Trim(d.text)) ==> r == DNaN
    ensures d.DNull? ==> r == DNum(0)
    ensures d.DNaN? || d.DUndefined? ==> r == DNaN
  {
    match d
    case DNum(_) => d
    case DText(t) =>
      var u := Text.Trim(t);
      if Text.AllDigits(u) then DNum(Text.DigitsValue(u)) else DNaN
    case DNull => DNum(0)
    case _ => DNaN
  }

  /** Surrounding white space does not change the reading: " 18 " is 18, and a blank text 0. */
  lemma PaddedDistances()
    ensures NumberOf(DText(" 18")) == DNum(18)
    ensures NumberOf(DText("18\n")) == DNum(18)
    ensures NumberOf(DText("  ")) == DNum(0)
  {
    assert Text.IsSpace(' ') && Text.IsSpace('\n');
    assert Text.Trim(" 18") == "18" by {
      assert Text.FirstNonSpace(" 18", 0) == 1 by {
        assert Text.FirstNonSpace(" 18", 1) == 1;
      }
      assert Text.EndOfNonSpace(" 18", 1, 3) == 3;
      assert " 18"[1..3] == "18";
    }
    assert Text.Trim("18\n") == "18" by {
      assert Text.FirstNonSpace("18\n", 0) == 0;
      assert Text.EndOfNonSpace("18\n", 0, 3) == 2 by {
        assert Text.EndOfNonSpace("18\n", 0, 2) == 2;
      }
      assert "18\n"[0..2] == "18";
    }
    assert Text.Trim("  ") == "";
    assert "18"[..1] == "1" && "1"[..0] == "";
  }

  /** Every offered distance survives the trip through the select's text and `Number`. */
  lemma OfferedDistancesRoundTrip(i: nat)
    requires i < |Distances|
    ensures NumberOf(DText(Text.NatToString(Distances[i]))) == DNum(Distances[i])
  {
    var t := Text.NatToString(Distances[i]);
    assert !Text.IsSpace(t[0]) && !Text.IsSpace(t[|t| - 1]);
    Text.TrimOfTrimmed(t);
    Text.DigitsValueOfNatToString(Distances[i]);
  }

  /** `{ arrows: [null, null, null], total: 0, hits: [] }`. */
  const FreshVolley: Volley := Volley(Some([Null, Null, Null]), Some([]), Fin(0.0), map[])

  /** `submit`: the stored session (or an empty record) with name, date, kind, target,
      environment and distance overwritten; a new session also gets 20 fresh volleys. The
      day's locale rendering `dateLabel` is an input. */
  method Submit(form: FormState, initial: Option<Session>, dateLabel: string) returns (payload: Session)
    ensures payload.name == Some(dateLabel + " - " + form.kind)
    ensures payload.date == Some(form.date) && payload.kind == Some(form.kind)
    ensures payload.targetType == Some(form.targetType) && payload.environment == Some(form.environment)
    ensures payload.distance == NumberOf(form.distance)
    ensures initial.Some? ==>
              payload.(name := initial.value.name, date := initial.value.date, kind := initial.value.kind,
                       targetType := initial.value.targetType, environment := initial.value.environment,
                       distance := initial.value.distance) == initial.value
    ensures initial.None? ==> payload.id.None? && payload.extra == map[]
    ensures initial.None? ==> payload.volleys.Some? && |payload.volleys.value| == VolleysPerSession
    ensures initial.None? ==> forall i :: 0 <= i < |payload.volleys.value| ==> payload.volleys.value[i] == FreshVolley
  {
    var base := if initial.Some? then initial.value else BlankSession;
    payload := base.(name := Some(dateLabel + " - " + form.kind), date := Some(form.date), kind := Some(form.kind),
                     targetType := Some(form.targetType), environment := Some(form.environment),
                     distance := NumberOf(form.distance));
    if initial.None? {
      payload := payload.(volleys := Some(seq(VolleysPerSession, _ => FreshVolley)));
    }
  }

  /** A new session's fresh volleys load on the scoring screen as its own empty scorecard: the
      empty hit list becomes three empty slots. */
  lemma FreshVolleysLoadAsEmptyCard(s: Session)
    requires s.volleys.Some? && |s.volleys.value| == VolleysPerSession
    requires forall i :: 0 <= i < VolleysPerSession ==> s.volleys.value[i] == FreshVolley
    ensures Scoring.NormalizeSession(s) == Scoring.MakeEmptySession(s)
  {
    assert Scoring.NormalizeVolley(FreshVolley) == EmptyVolley;
    var n := Scoring.NormalizeSession(s);
    var e := Scoring.MakeEmptySession(s);
    assert n.volleys.value == e.volleys.value by {
      forall i | 0 <= i < VolleysPerSession
        ensures n.volleys.value[i] == e.volleys.value[i]
      {
        assert Scoring.StoredVolley(s, i) == FreshVolley;
      }
    }
  }

  /** Editing keeps the scores: the payload's volleys and total are the stored session's. */
  lemma EditKeepsScores(form: FormState, initial: Session, payload: Session)
    requires payload.(name := initial.name, date := initial.date, kind := initial.kind,
                      targetType := initial.targetType, environment := initial.environment,
                      distance := initial.distance) == initial
    ensures payload.volleys == initial.volleys && payload.id == initial.id
    ensures Scoring.SessionTotal(payload) == Scoring.SessionTotal(initial)
  {
    assert payload.volleys == initial.volleys;
  }
}
