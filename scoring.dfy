/** The scoring screen: the fixed 20×3 scorecard, the normalisation applied to any stored
    session when it is opened, and the `setArrow` state machine that writes one slot and moves
    the (volley, arrow) cursor. */
module Scoring {
  import opened Wrappers
  import opened Reals
  import opened SessionModel
  import Seqs

  /** `clamp(n, a, b)`: `max(a, min(b, n))`. */
  function Clamp(n: int, a: int, b: int): (r: int)
    ensures a <= b ==> a <= r <= b
    ensures a <= n <= b ==> r == n
    ensures n < a ==> r == a
    ensures a <= b < n ==> r == b
  {
    var m := if b < n then b else n;
    if a < m then m else a
  }

  /** A button colouring: background and text colour. */
  datatype Style = Style(bg: string, color: string)

  /** `scoreStyle`: the colour band of a score, yellow from 9, red from 7, blue from 5, black
      from 3, white below. */
  function ScoreStyle(score: real): (r: Style)
    ensures r.bg == "#FFD200" <==> 9.0 <= score
    ensures r.bg == "#D00000" <==> 7.0 <= score < 9.0
    ensures r.bg == "#1E5AA8" <==> 5.0 <= score < 7.0
    ensures r.bg == "#111111" <==> 3.0 <= score < 5.0
    ensures r.bg == "#FFFFFF" <==> score < 3.0
    ensures r.color == (if 9.0 <= score || score < 3.0 then "#000" else "#FFF")
  {
    if score >= 9.0 then Style("#FFD200", "#000")
    else if score >= 7.0 then Style("#D00000", "#FFF")
    else if score >= 5.0 then Style("#1E5AA8", "#FFF")
    else if score >= 3.0 then Style("#111111", "#FFF")
    else Style("#FFFFFF", "#000")
  }

  /** The 20 empty volleys of a fresh scorecard. */
  function EmptyVolleys(): (r: seq<Volley>)
    ensures |r| == VolleysPerSession
    ensures forall i :: 0 <= i < |r| ==> r[i] == EmptyVolley
  {
    seq(VolleysPerSession, _ => EmptyVolley)
  }

  /** `makeEmptySession(base)`: `base` with its volleys replaced by 20 empty ones. */
  function MakeEmptySession(base: Session): (r: Session)
    ensures WellShaped(r)
    ensures forall i :: 0 <= i < VolleysPerSession ==> r.volleys.value[i] == EmptyVolley
    ensures r.(volleys := base.volleys) == base
  {
    base.(volleys := Some(EmptyVolleys()))
  }

  /* ---------- Normalisation on load ---------- */

  /** `session.volleys?.[i] || {}`: the stored volley at index `i`, or the empty object. */
  function StoredVolley(s: Session, i: nat): (v: Volley)
    ensures s.volleys.Some? && i < |s.volleys.value| ==> v == s.volleys.value[i]
    ensures (s.volleys.None? || i >= |s.volleys.value|) ==> v == BlankVolley
  {
    if s.volleys.Some? && i < |s.volleys.value| then s.volleys.value[i] else BlankVolley
  }

  /** The stored arrows, or `[null, null, null]` when the field is not an array. */
  function RawArrows(v: Volley): seq<Arrow>
  {
    if v.arrows.Some? then v.arrows.value else [Null, Null, Null]
  }

  /** The stored hits, or `[]` when the field is not an array. */
  function RawHits(v: Volley): seq<Option<Hit>>
  {
    if v.hits.Some? then v.hits.value else []
  }

  /** One hit slot on load: falsy stays null; otherwise a fresh `{x, y, isX}` whose coordinates
      prefer `x`/`y` over the legacy `xNorm`/`yNorm`, with non-finite ones as null. */
  function NormalizeHit(h: Option<Hit>): (r: Option<Hit>)
    ensures h.None? <==> r.None?
    ensures h.Some? ==> r.value.xNorm.None? && r.value.yNorm.None?
    ensures h.Some? ==> (r.value.isX <==> h.value.isX)
    ensures h.Some? && h.value.x.Some? ==> r.value.x == h.value.x
    ensures h.Some? && h.value.x.None? ==> r.value.x == h.value.xNorm
    ensures h.Some? && h.value.y.Some? ==> r.value.y == h.value.y
    ensures h.Some? && h.value.y.None? ==> r.value.y == h.value.yNorm
  {
    match h
    case None => None
    case Some(p) =>
      var x := if p.x.Some? then p.x else p.xNorm;
      var y := if p.y.Some? then p.y else p.yNorm;
      Some(Hit(x, y, None, None, p.isX))
  }

  /** One volley on load: three arrow slots (`?? null`), three normalised hit slots, the stored
      total when finite and otherwise `sum` of the raw arrows, every other field kept. */
  function NormalizeVolley(v: Volley): (r: Volley)
    ensures VolleyShaped(r)
    ensures r.extra == v.extra
    ensures forall k :: 0 <= k < ArrowsPerVolley ==> r.arrows.value[k] == ArrowOrNull(RawArrows(v), k)
    ensures forall k :: 0 <= k < ArrowsPerVolley ==> r.arrows.value[k] != Undefined
    ensures forall k :: 0 <= k < ArrowsPerVolley ==> r.hits.value[k] == NormalizeHit(HitAt(RawHits(v), k))
    ensures v.total.Fin? ==> r.total == v.total
    ensures v.total.NonFinite? ==> r.total == Fin(SumFinite(RawArrows(v)))
  {
    var arrows := RawArrows(v);
    var hitsArr := RawHits(v);
    var hits := [NormalizeHit(HitAt(hitsArr, 0)), NormalizeHit(HitAt(hitsArr, 1)), NormalizeHit(HitAt(hitsArr, 2))];
    Volley(
      Some([ArrowOrNull(arrows, 0), ArrowOrNull(arrows, 1), ArrowOrNull(arrows, 2)]),
      Some(hits),
      if v.total.Fin? then v.total else Fin(SumFinite(arrows)),
      v.extra)
  }

  /** The load effect: every field of the stored session kept, the volleys replaced by exactly
      20 normalised ones (missing ones read as `{}`; stored ones past the 20th dropped). */
  function NormalizeSession(s: Session): (r: Session)
    ensures WellShaped(r)
    ensures r.(volleys := s.volleys) == s
    ensures forall i :: 0 <= i < VolleysPerSession ==> r.volleys.value[i] == NormalizeVolley(StoredVolley(s, i))
  {
    s.(volleys := Some(seq(VolleysPerSession, i requires 0 <= i < VolleysPerSession => NormalizeVolley(StoredVolley(s, i)))))
  }

  /** The session the screen holds after the load effect: the normalised prop, or an empty
      scorecard when there is none. */
  function Loaded(session: Option<Session>): (r: Session)
    ensures WellShaped(r)
  {
    if session.Some? then NormalizeSession(session.value) else MakeEmptySession(BlankSession)
  }

  /** A normalised hit slot is its own normalisation. */
  lemma NormalizeHitIdempotent(h: Option<Hit>)
    ensures NormalizeHit(NormalizeHit(h)) == NormalizeHit(h)
  {
    if h.Some? {
      var p := NormalizeHit(h).value;
      assert NormalizeHit(Some(p)) == Some(Hit(p.x, p.y, None, None, p.isX));
    }
  }

  lemma NormalizeVolleyIdempotent(v: Volley)
    ensures NormalizeVolley(NormalizeVolley(v)) == NormalizeVolley(v)
  {
    var n := NormalizeVolley(v);
    var m := NormalizeVolley(n);
    assert m.arrows.value == n.arrows.value by {
      forall k | 0 <= k < 3 ensures m.arrows.value[k] == n.arrows.value[k] {}
    }
    assert m.hits.value == n.hits.value by {
      forall k | 0 <= k < 3 ensures m.hits.value[k] == n.hits.value[k] {
        NormalizeHitIdempotent(HitAt(RawHits(v), k));
      }
    }
  }

  /** Opening an already normalised session changes nothing. */
  lemma NormalizeIdempotent(s: Session)
    ensures NormalizeSession(NormalizeSession(s)) == NormalizeSession(s)
  {
    var n := NormalizeSession(s);
    var m := NormalizeSession(n);
    assert m.volleys.value == n.volleys.value by {
      forall i | 0 <= i < VolleysPerSession ensures m.volleys.value[i] == n.volleys.value[i] {
        NormalizeVolleyIdempotent(StoredVolley(s, i));
      }
    }
  }

  /** The stored total is trusted: a volley whose stored total disagrees with its arrows keeps
      that total through normalisation. */
  lemma NormalizeTrustsStoredTotal()
    ensures var v := Volley(Some([Number(10.0), Number(10.0), Number(10.0)]), None, Fin(5.0), map[]);
            NormalizeVolley(v).total == Fin(5.0) && SumScores(NormalizeVolley(v).arrows.value) == 30.0
  {
    var v := Volley(Some([Number(10.0), Number(10.0), Number(10.0)]), None, Fin(5.0), map[]);
    assert NormalizeVolley(v).arrows.value == [Number(10.0), Number(10.0), Number(10.0)];
    SumScoresOfThree(Number(10.0), Number(10.0), Number(10.0));
  }

  /** A missing total is rebuilt from the raw arrow array: all of it (a fourth arrow counts) and
      with the legacy "X" worth 0. */
  lemma NormalizeRebuildsTotalFromRawArrows()
    ensures var v := Volley(Some([LegacyX, Number(9.0), Number(8.0), Number(7.0)]), None, NonFinite, map[]);
            NormalizeVolley(v).total == Fin(24.0)
            && NormalizeVolley(v).arrows.value == [LegacyX, Number(9.0), Number(8.0)]
  {
    var raw := [LegacyX, Number(9.0), Number(8.0), Number(7.0)];
    assert raw[..3] == [LegacyX, Number(9.0), Number(8.0)];
    SumFiniteOfThree(LegacyX, Number(9.0), Number(8.0));
  }

  /* ---------- Derived values ---------- */

  /** `arrows.every(a => a != null)`. */
  function NoEmptySlot(arrows: seq<Arrow>): (r: bool)
    ensures r <==> forall k :: 0 <= k < |arrows| ==> !IsNullish(arrows[k])
    decreases |arrows|
  {
    if arrows == [] then true
    else NoEmptySlot(arrows[..|arrows| - 1]) && !IsNullish(arrows[|arrows| - 1])
  }

  /** A volley's arrows are an array with every slot filled. */
  ghost predicate Filled(v: Volley)
  {
    v.arrows.Some? && forall k :: 0 <= k < |v.arrows.value| ==> !IsNullish(v.arrows.value[k])
  }

  /** `volleys.every(v => Array.isArray(v.arrows) && v.arrows.every(a => a != null))`. */
  function AllVolleysFilled(vs: seq<Volley>): (r: bool)
    ensures r <==> forall i :: 0 <= i < |vs| ==> Filled(vs[i])
    decreases |vs|
  {
    if vs == [] then true
    else
      var last := vs[|vs| - 1];
      AllVolleysFilled(vs[..|vs| - 1]) && last.arrows.Some? && NoEmptySlot(last.arrows.value)
  }

  /** `isSessionComplete`: exactly 20 volleys, each with every arrow slot filled. */
  function IsSessionComplete(s: Session): (r: bool)
    ensures r <==> && s.volleys.Some? && |s.volleys.value| == VolleysPerSession
                   && forall i :: 0 <= i < VolleysPerSession ==> Filled(s.volleys.value[i])
  {
    s.volleys.Some? && |s.volleys.value| == VolleysPerSession && AllVolleysFilled(s.volleys.value)
  }

  /** A fresh scorecard is not complete. */
  lemma EmptySessionIncomplete(base: Session)
    ensures !IsSessionComplete(MakeEmptySession(base))
  {
    var r := MakeEmptySession(base);
    assert r.volleys.value[0].arrows.value[0] == Null;
  }

  predicate IsPresent(o: Option<Hit>) { o.Some? }

  /** `v.hits` when it is an array, else `[]`, truthy entries only. */
  function VolleyHits(v: Volley): (r: seq<Hit>)
    ensures forall h :: h in r <==> v.hits.Some? && Some(h) in v.hits.value
    ensures v.hits.Some? ==> |r| == Seqs.Count(v.hits.value, IsPresent)
    ensures v.hits.None? ==> r == []
    decreases if v.hits.Some? then |v.hits.value| else 0
  {
    if v.hits.None? || v.hits.value == [] then []
    else
      var hs := v.hits.value;
      var init := VolleyHits(v.(hits := Some(hs[..|hs| - 1])));
      assert forall h :: Some(h) in hs <==> Some(h) in hs[..|hs| - 1] || hs[|hs| - 1] == Some(h) by {
        assert hs == hs[..|hs| - 1] + [hs[|hs| - 1]];
      }
      if hs[|hs| - 1].Some? then init + [hs[|hs| - 1].value] else init
  }

  /** `allHits`: every truthy hit of every volley, in order. */
  function AllHits(vs: seq<Volley>): (r: seq<Hit>)
    ensures forall i, h :: 0 <= i < |vs| && h in VolleyHits(vs[i]) ==> h in r
    ensures forall h :: h in r ==> exists i :: 0 <= i < |vs| && h in VolleyHits(vs[i])
    decreases |vs|
  {
    if vs == [] then []
    else
      var init := vs[..|vs| - 1];
      assert forall i :: 0 <= i < |init| ==> init[i] == vs[i];
      AllHits(init) + VolleyHits(vs[|vs| - 1])
  }

  /** `allHits` is a flat map: the hits of a run of volleys followed by another are the two
      runs' hits, in that order. */
  lemma {:induction false} AllHitsConcat(vs: seq<Volley>, ws: seq<Volley>)
    ensures AllHits(vs + ws) == AllHits(vs) + AllHits(ws)
    decreases |ws|
  {
    if ws != [] {
      var init := ws[..|ws| - 1];
      AllHitsConcat(vs, init);
      assert (vs + ws)[..|vs + ws| - 1] == vs + init;
      assert (vs + ws)[|vs + ws| - 1] == ws[|ws| - 1];
    } else {
      assert vs + ws == vs;
    }
  }

  /** `allHits.length`, the "Totale frecce" of the heat map: one per truthy hit slot. */
  lemma {:induction false} AllHitsCount(vs: seq<Volley>)
    requires forall i :: 0 <= i < |vs| ==> vs[i].hits.Some?
    ensures |AllHits(vs)| == HitSlotCount(vs)
    decreases |vs|
  {
    if vs != [] {
      AllHitsCount(vs[..|vs| - 1]);
    }
  }

  /** The number of truthy hit slots over the volleys. */
  function HitSlotCount(vs: seq<Volley>): nat
    requires forall i :: 0 <= i < |vs| ==> vs[i].hits.Some?
    decreases |vs|
  {
    if vs == [] then 0 else HitSlotCount(vs[..|vs| - 1]) + Seqs.Count(vs[|vs| - 1].hits.value, IsPresent)
  }

  /** The score totals the header shows: `v.total || 0` for each volley. */
  function VolleyTotals(vs: seq<Volley>): (r: seq<real>)
    ensures |r| == |vs|
    ensures forall i :: 0 <= i < |vs| ==> r[i] == TotalOrZero(vs[i].total)
  {
    seq(|vs|, i requires 0 <= i < |vs| => TotalOrZero(vs[i].total))
  }

  /** `total`: the sum of the volley totals. */
  function SessionTotal(s: Session): real
  {
    Sum(VolleyTotals(VolleysOrEmpty(s)))
  }

  /** A fresh scorecard totals 0. */
  lemma EmptySessionTotal(base: Session)
    ensures SessionTotal(MakeEmptySession(base)) == 0.0
  {
    var t := VolleyTotals(VolleysOrEmpty(MakeEmptySession(base)));
    SumNonNegZero(t);
  }

  /** Every volley's total equals the score of its arrows ("X" as 10). */
  ghost predicate TotalsConsistent(s: Session)
  {
    forall i :: 0 <= i < |VolleysOrEmpty(s)| ==>
      VolleysOrEmpty(s)[i].arrows.Some? &&
      VolleysOrEmpty(s)[i].total == Fin(SumScores(VolleysOrEmpty(s)[i].arrows.value))
  }

  /** Replacing one volley by one whose total is its score keeps the totals consistent and
      changes the session's total by the difference of the two volley totals. */
  lemma VolleyReplaced(s: Session, i: nat, v: Volley)
    requires s.volleys.Some? && i < |s.volleys.value|
    requires v.arrows.Some? && v.total == Fin(SumScores(v.arrows.value))
    ensures var next := s.(volleys := Some(s.volleys.value[i := v]));
            && (TotalsConsistent(s) ==> TotalsConsistent(next))
            && SessionTotal(next) == SessionTotal(s) - TotalOrZero(s.volleys.value[i].total) + SumScores(v.arrows.value)
  {
    var next := s.(volleys := Some(s.volleys.value[i := v]));
    if TotalsConsistent(s) {
      forall j | 0 <= j < |VolleysOrEmpty(next)|
        ensures VolleysOrEmpty(next)[j].arrows.Some?
        ensures VolleysOrEmpty(next)[j].total == Fin(SumScores(VolleysOrEmpty(next)[j].arrows.value))
      {
        if j != i {
          assert VolleysOrEmpty(next)[j] == VolleysOrEmpty(s)[j];
        }
      }
    }
    assert VolleyTotals(next.volleys.value) == VolleyTotals(s.volleys.value)[i := SumScores(v.arrows.value)];
    SumUpdate(VolleyTotals(s.volleys.value), i, SumScores(v.arrows.value));
  }

  /** Replacing one slot changes a volley's score by the difference of the two slot values. */
  lemma {:induction false} SumScoresUpdate(arrows: seq<Arrow>, k: nat, a: Arrow)
    requires k < |arrows|
    ensures SumScores(arrows[k := a]) == SumScores(arrows) - ScoreValue(arrows[k]) + ScoreValue(a)
    decreases |arrows|
  {
    var n := |arrows|;
    var init := arrows[..n - 1];
    assert arrows[k := a][..n - 1] == if k < n - 1 then init[k := a] else init;
    if k < n - 1 {
      SumScoresUpdate(init, k, a);
    }
  }

  /* ---------- Cursor ---------- */

  /** The slot the next score is written to. */
  datatype Cursor = Cursor(volley: nat, arrow: nat)

  predicate InRange(c: Cursor)
  {
    c.volley < VolleysPerSession && c.arrow < ArrowsPerVolley
  }

  /** The cursor step after a slot is written: the next slot of the same volley, else the
      first slot of the next volley, clamped to the last volley. */
  function Advance(c: Cursor): (r: Cursor)
    requires InRange(c)
    ensures InRange(r)
    ensures c.arrow + 1 < ArrowsPerVolley ==> r == Cursor(c.volley, c.arrow + 1)
    ensures c.arrow + 1 == ArrowsPerVolley && c.volley + 1 < VolleysPerSession ==> r == Cursor(c.volley + 1, 0)
    ensures c.arrow + 1 == ArrowsPerVolley && c.volley + 1 == VolleysPerSession ==> r == Cursor(c.volley, 0)
  {
    var nextArrow := c.arrow + 1;
    if nextArrow < 3 then Cursor(c.volley, nextArrow)
    else Cursor(Clamp(c.volley + 1, 0, 19), 0)
  }

  /** The cursor after `n` writes starting from `c`. */
  function AdvanceTimes(c: Cursor, n: nat): (r: Cursor)
    requires InRange(c)
    ensures InRange(r)
    decreases n
  {
    if n == 0 then c else Advance(AdvanceTimes(c, n - 1))
  }

  /** From the first slot, `n` writes reach slot `n % 3` of volley `n / 3`; past the last
      volley the cursor keeps cycling within volley 20. */
  lemma {:induction false} AdvanceFromStart(n: nat)
    ensures AdvanceTimes(Cursor(0, 0), n) == Cursor(if n / 3 < 19 then n / 3 else 19, n % 3)
    decreases n
  {
    if n > 0 {
      AdvanceFromStart(n - 1);
      var m := n - 1;
      if m % 3 < 2 {
        assert n / 3 == m / 3 && n % 3 == m % 3 + 1;
      } else {
        assert n / 3 == m / 3 + 1 && n % 3 == 0;
      }
    }
  }

  /** `findIndex(x => x == null)`: the first empty slot, or -1. */
  function FirstEmptySlot(arrows: seq<Arrow>): (r: int)
    ensures -1 <= r < |arrows|
    ensures r == -1 <==> forall k :: 0 <= k < |arrows| ==> !IsNullish(arrows[k])
    ensures r >= 0 ==> IsNullish(arrows[r]) && forall k :: 0 <= k < r ==> !IsNullish(arrows[k])
    decreases |arrows|
  {
    if arrows == [] then -1
    else if IsNullish(arrows[0]) then 0
    else
      var t := FirstEmptySlot(arrows[1..]);
      if t == -1 then -1 else t + 1
  }

  /** A bare hit record handed to `setArrow`: `{xNorm, yNorm, isX}` from a tap, `{isX: true}`
      from the X button. A coordinate is `Some` when finite. */
  datatype HitInput = HitInput(xNorm: Option<real>, yNorm: Option<real>, isX: bool)

  /** The hit `setArrow` stores: the tap position when both coordinates are finite, a
      coordinate-less X when the X flag is set, and null otherwise. */
  function StoredHit(hit: Option<HitInput>): (r: Option<Hit>)
    ensures hit.Some? && hit.value.xNorm.Some? && hit.value.yNorm.Some? ==>
              r == Some(Hit(hit.value.xNorm, hit.value.yNorm, None, None, hit.value.isX))
    ensures hit.Some? && !(hit.value.xNorm.Some? && hit.value.yNorm.Some?) && hit.value.isX ==>
              r == Some(Hit(None, None, None, None, true))
    ensures (hit.None? || (!(hit.value.xNorm.Some? && hit.value.yNorm.Some?) && !hit.value.isX)) ==> r.None?
  {
    if hit.Some? && hit.value.xNorm.Some? && hit.value.yNorm.Some? then
      Some(Hit(hit.value.xNorm, hit.value.yNorm, None, None, hit.value.isX))
    else if hit.Some? && hit.value.isX then
      Some(Hit(None, None, None, None, true))
    else
      None
  }

  /** The hit argument of `quick(score, isX)`. */
  function QuickHit(isX: bool): (r: Option<HitInput>)
    ensures isX ==> StoredHit(r) == Some(Hit(None, None, None, None, true))
    ensures !isX ==> StoredHit(r) == None
  {
    if isX then Some(HitInput(None, None, true)) else None
  }

  /** The scoring screen's state: the session being scored and the cursor. */
  class Scorer {
    var local: Session
    var cursor: Cursor

    ghost predicate Valid()
      reads this
    {
      WellShaped(local) && InRange(cursor)
    }

    /** The initial state: `makeEmptySession(session)` (or of `{}`), cursor on the first slot. */
    constructor (session: Option<Session>)
      ensures Valid()
      ensures local == MakeEmptySession(if session.Some? then session.value else BlankSession)
      ensures cursor == Cursor(0, 0)
    {
      local := MakeEmptySession(if session.Some? then session.value else BlankSession);
      cursor := Cursor(0, 0);
    }

    /** The effect run whenever the `session` prop arrives. The cursor is left where it is. */
    method Load(session: Option<Session>)
      requires Valid()
      modifies this
      ensures Valid()
      ensures local == Loaded(session)
      ensures cursor == old(cursor)
    {
      if session.None? {
        local := MakeEmptySession(BlankSession);
        return;
      }
      local := NormalizeSession(session.value);
    }

    /** `setArrow(score, hit)`: writes the score into the cursor's slot, stores the hit,
        recomputes that volley's total from its arrows and advances the cursor. */
    method SetArrow(score: real, hit: Option<HitInput>)
      requires Valid()
      modifies this
      ensures Valid()
      ensures cursor == Advance(old(cursor))
      ensures local.(volleys := old(local).volleys) == old(local)
      ensures |local.volleys.value| == |old(local).volleys.value|
      ensures forall i :: 0 <= i < VolleysPerSession && i != old(cursor).volley ==>
                local.volleys.value[i] == old(local).volleys.value[i]
      ensures var i, k := old(cursor).volley, old(cursor).arrow;
              var was, now := old(local).volleys.value[i], local.volleys.value[i];
              && now.arrows.value == was.arrows.value[k := Number(score)]
              && now.hits.value == was.hits.value[k := StoredHit(hit)]
              && now.total == Fin(SumScores(now.arrows.value))
              && now.extra == was.extra
      ensures TotalsConsistent(old(local)) ==> TotalsConsistent(local)
      ensures var was := old(local).volleys.value[old(cursor).volley];
              SessionTotal(local) == SessionTotal(old(local)) - TotalOrZero(was.total)
                                     + SumScores(was.arrows.value[old(cursor).arrow := Number(score)])
    {
      var vIdx := cursor.volley;
      var aIdx := cursor.arrow;
      var next := local;
      var volley := next.volleys.value[vIdx];

      var arrows := volley.arrows.value[aIdx := Number(score)];
      var hits := volley.hits.value;
      if hit.Some? && hit.value.xNorm.Some? && hit.value.yNorm.Some? {
        hits := hits[aIdx := Some(Hit(hit.value.xNorm, hit.value.yNorm, None, None, hit.value.isX))];
      } else if hit.Some? && hit.value.isX {
        hits := hits[aIdx := Some(Hit(None, None, None, None, true))];
      } else {
        hits := hits[aIdx := None];
      }
      volley := volley.(arrows := Some(arrows), hits := Some(hits), total := Fin(SumScores(arrows)));
      next := next.(volleys := Some(next.volleys.value[vIdx := volley]));

      VolleyReplaced(local, vIdx, volley);

      cursor := Advance(cursor);
      local := next;
    }

    /** `onHit({score, xNorm, yNorm, isX})` from a tap on the target. */
    method OnHit(score: real, xNorm: Option<real>, yNorm: Option<real>, isX: bool)
      requires Valid()
      modifies this
      ensures Valid()
      ensures cursor == Advance(old(cursor))
      ensures var i, k := old(cursor).volley, old(cursor).arrow;
              && local.volleys.value[i].arrows.value == old(local).volleys.value[i].arrows.value[k := Number(score)]
              && local.volleys.value[i].hits.value[k] == StoredHit(Some(HitInput(xNorm, yNorm, isX)))
      ensures forall i :: 0 <= i < VolleysPerSession && i != old(cursor).volley ==>
                local.volleys.value[i] == old(local).volleys.value[i]
    {
      SetArrow(score, Some(HitInput(xNorm, yNorm, isX)));
    }

    /** `quick(score, isX)` from the button grid: no coordinates; the X button stores a
        coordinate-less X hit and the other buttons clear the slot's hit. */
    method Quick(score: real, isX: bool)
      requires Valid()
      modifies this
      ensures Valid()
      ensures cursor == Advance(old(cursor))
      ensures var i, k := old(cursor).volley, old(cursor).arrow;
              && local.volleys.value[i].arrows.value == old(local).volleys.value[i].arrows.value[k := Number(score)]
              && local.volleys.value[i].hits.value[k] == (if isX then Some(Hit(None, None, None, None, true)) else None)
      ensures forall i :: 0 <= i < VolleysPerSession && i != old(cursor).volley ==>
                local.volleys.value[i] == old(local).volleys.value[i]
    {
      SetArrow(score, QuickHit(isX));
    }

    /** A click on a scorecard row: that volley, at its first empty slot (or the first slot
        when it is full). */
    method SelectVolley(idx: nat)
      requires Valid() && idx < VolleysPerSession
      modifies this`cursor
      ensures Valid()
      ensures cursor.volley == idx
      ensures var arrows := local.volleys.value[idx].arrows.value;
              && (IsNullish(arrows[cursor.arrow]) || (cursor.arrow == 0 && NoEmptySlot(arrows)))
              && forall k :: 0 <= k < cursor.arrow ==> !IsNullish(arrows[k])
    {
      var f := FirstEmptySlot(local.volleys.value[idx].arrows.value);
      cursor := Cursor(idx, Clamp(if f != -1 then f else 0, 0, 2));
    }

    /** A click on a slot of the current volley: the cursor moves to that slot. */
    method SelectArrow(i: nat)
      requires Valid() && i < ArrowsPerVolley
      modifies this`cursor
      ensures Valid()
      ensures cursor == Cursor(old(cursor).volley, i)
    {
      cursor := Cursor(cursor.volley, i);
    }

    /** The end of an edit (the form's `onCreate` in edit mode): the scorecard is rebuilt empty
        around the record the save handed back, or around the local record when it handed back
        nothing. The cursor is left where it is. */
    method FinishEdit(saved: Option<Session>)
      requires Valid()
      modifies this`local
      ensures Valid()
      ensures local == MakeEmptySession(if saved.Some? then saved.value else old(local))
      ensures local.(volleys := (if saved.Some? then saved.value else old(local)).volleys)
              == (if saved.Some? then saved.value else old(local))
      ensures SessionTotal(local) == 0.0 && !IsSessionComplete(local)
    {
      local := MakeEmptySession(if saved.Some? then saved.value else local);
      EmptySessionTotal(if saved.Some? then saved.value else old(local));
      EmptySessionIncomplete(if saved.Some? then saved.value else old(local));
    }
  }
}
