/** The session record as the front end stores and exchanges it: a session owns a list of
    volleys, each volley three arrow slots, three hit slots and a cached total. Stored records
    may be partial or legacy, so every field keeps the shapes the JavaScript code tests for. */
module SessionModel {
  import opened Wrappers
  import opened Reals
  import Text

  /** A value read through `Number.isFinite`: `Fin(v)` for a finite number, `NonFinite` for
      anything else (NaN, an infinity, null, undefined, a string). */
  datatype Num = Fin(v: real) | NonFinite

  /** One arrow slot: a numeric score, the legacy string "X", null, or undefined (a missing
      array element). */
  datatype Arrow = Number(v: real) | LegacyX | Null | Undefined

  /** A stored point of impact. Each coordinate field is `Some` when it holds a finite number;
      `x`/`y` is the legacy format and `xNorm`/`yNorm` the newer one. `isX` records whether the field is `=== true`. */
  datatype Hit = Hit(x: Option<real>, y: Option<real>, xNorm: Option<real>, yNorm: Option<real>, isX: bool)

  /** A volley record. `arrows`/`hits` are `None` when the field is not an array; a hit slot is
      `None` when it is falsy. `extra` holds any further fields, by name, as their stored text. */
  datatype Volley = Volley(
    arrows: Option<seq<Arrow>>,
    hits: Option<seq<Option<Hit>>>,
    total: Num,
    extra: map<string, string>)

  /** The `distance` field: a whole number, a text such as "18 m", NaN, null or undefined. */
  datatype Distance = DNum(n: nat) | DText(text: string) | DNaN | DNull | DUndefined

  /** A session record. `date` is the instant the stored date denotes (`None` when it does not
      parse); `kind`, `environment`, `targetType` are `None` when absent; `volleys` is `None`
      when the field is not an array; `extra` holds every other field. */
  datatype Session = Session(
    id: Option<string>,
    date: Option<int>,
    name: Option<string>,
    kind: Option<string>,
    environment: Option<string>,
    targetType: Option<string>,
    distance: Distance,
    volleys: Option<seq<Volley>>,
    extra: map<string, string>)

  const VolleysPerSession: nat := 20
  const ArrowsPerVolley: nat := 3

  /** The empty object `{}`. */
  const BlankSession := Session(None, None, None, None, None, None, DUndefined, None, map[])

  /** `{}` read as a volley: no arrays, no total. */
  const BlankVolley := Volley(None, None, NonFinite, map[])

  /** The fresh volley `{ arrows: [null, null, null], total: 0, hits: [null, null, null] }`. */
  const EmptyVolley := Volley(Some([Null, Null, Null]), Some([None, None, None]), Fin(0.0), map[])

  /** `x == null` in JavaScript (loose equality): true for null and undefined. */
  predicate IsNullish(a: Arrow) { a == Null || a == Undefined }

  /** The value `sum` adds for one entry: its number when finite, otherwise 0 (so "X" adds 0). */
  function FiniteValue(a: Arrow): real
  {
    if a.Number? then a.v else 0.0
  }

  /** The value a volley total counts for one slot once "X" has been mapped to 10. */
  function ScoreValue(a: Arrow): real
  {
    match a
    case Number(v) => v
    case LegacyX => 10.0
    case _ => 0.0
  }

  /** `sum(arrows)`: the finite entries added up. */
  function SumFinite(arrows: seq<Arrow>): real
    decreases |arrows|
  {
    if arrows == [] then 0.0 else SumFinite(arrows[..|arrows| - 1]) + FiniteValue(arrows[|arrows| - 1])
  }

  /** `sum(arrows.map(a => a === "X" ? 10 : a))`. */
  function SumScores(arrows: seq<Arrow>): real
    decreases |arrows|
  {
    if arrows == [] then 0.0 else SumScores(arrows[..|arrows| - 1]) + ScoreValue(arrows[|arrows| - 1])
  }

  /** The score of a three-slot volley, term by term. */
  lemma SumScoresOfThree(a: Arrow, b: Arrow, c: Arrow)
    ensures SumScores([a, b, c]) == ScoreValue(a) + ScoreValue(b) + ScoreValue(c)
  {
    assert [a, b, c][..2] == [a, b];
    assert [a, b][..1] == [a];
    assert [a][..0] == [];
    assert SumScores([a]) == ScoreValue(a);
    assert SumScores([a, b]) == ScoreValue(a) + ScoreValue(b);
  }

  /** `sum` of a three-slot volley, term by term. */
  lemma SumFiniteOfThree(a: Arrow, b: Arrow, c: Arrow)
    ensures SumFinite([a, b, c]) == FiniteValue(a) + FiniteValue(b) + FiniteValue(c)
  {
    assert [a, b, c][..2] == [a, b];
    assert [a, b][..1] == [a];
    assert [a][..0] == [];
    assert SumFinite([a]) == FiniteValue(a);
    assert SumFinite([a, b]) == FiniteValue(a) + FiniteValue(b);
  }

  /** `v.total || 0`: a falsy or non-finite total counts 0. */
  function TotalOrZero(n: Num): real
  {
    if n.Fin? then n.v else 0.0
  }

  /** `a[i]`, undefined past the end. */
  function ArrowAt(a: seq<Arrow>, i: nat): Arrow
  {
    if i < |a| then a[i] else Undefined
  }

  /** `a[i] ?? null`. */
  function ArrowOrNull(a: seq<Arrow>, i: nat): Arrow
  {
    var x := ArrowAt(a, i);
    if x == Undefined then Null else x
  }

  /** `h[i]`, falsy past the end. */
  function HitAt(h: seq<Option<Hit>>, i: nat): Option<Hit>
  {
    if i < |h| then h[i] else None
  }

  /** The session has the normalised scoring shape: 20 volleys, each with 3 arrow slots and 3 hit slots. */
  ghost predicate WellShaped(s: Session)
  {
    && s.volleys.Some?
    && |s.volleys.value| == VolleysPerSession
    && forall i :: 0 <= i < |s.volleys.value| ==> VolleyShaped(s.volleys.value[i])
  }

  ghost predicate VolleyShaped(v: Volley)
  {
    && v.arrows.Some? && |v.arrows.value| == ArrowsPerVolley
    && v.hits.Some? && |v.hits.value| == ArrowsPerVolley
  }

  /** `String(d)`: the text a distance field renders as. */
  function DistanceText(d: Distance): string
  {
    match d
    case DNum(n) => Text.NatToString(n)
    case DText(t) => t
    case DNaN => "NaN"
    case DNull => "null"
    case DUndefined => "undefined"
  }

  /** `String(a)` for an attribute field; an absent field renders as "undefined". */
  function AttrText(a: Option<string>): string
  {
    if a.Some? then a.value else "undefined"
  }

  /** The volleys the statistics and export code iterate: `s.volleys || []`. */
  function VolleysOrEmpty(s: Session): seq<Volley>
  {
    if s.volleys.Some? then s.volleys.value else []
  }

  /** `v.arrows || []`. */
  function ArrowsOrEmpty(v: Volley): seq<Arrow>
  {
    if v.arrows.Some? then v.arrows.value else []
  }
}
