/** The interactive target face: the colour bands, the ring table, the X test on a tap, the hit
    a tap emits (coordinates normalised to the 500×500 drawing), the hits drawn back on the
    face, and the three faces of trispot mode. Where a touch lands in drawing coordinates
    and which ring receives it are inputs. */
module SvgTarget {
  import opened Wrappers
  import opened Reals
  import opened Roots
  import opened SessionModel
  import Seqs
  import Scoring

  /* ---------------- colours and rings ---------------- */

  /** `scoreToColor`. */
  function ScoreToColor(score: real): (r: string)
    ensures r == "#FFD200" <==> 9.0 <= score
    ensures r == "#D00000" <==> 7.0 <= score < 9.0
    ensures r == "#1E5AA8" <==> 5.0 <= score < 7.0
    ensures r == "#111111" <==> 3.0 <= score < 5.0
    ensures r == "#FFFFFF" <==> score < 3.0
  {
    if score >= 9.0 then "#FFD200"
    else if score >= 7.0 then "#D00000"
    else if score >= 5.0 then "#1E5AA8"
    else if score >= 3.0 then "#111111"
    else "#FFFFFF"
  }

  /** The face is painted in the colours of the scoring buttons. */
  lemma ColorsMatchButtons(score: real)
    ensures ScoreToColor(score) == Scoring.ScoreStyle(score).bg
  {
  }

  const OuterR: real := 250.0
  const Band: real := 25.0
  const InnerTenR: real := 12.5

  datatype Ring = Ring(score: nat, radius: real, color: string)

  /** `Array.from({ length: 10 }, ...)` before the filter: ring `i` scores `1 + i`. */
  function AllRings(): (r: seq<Ring>)
    ensures |r| == 10
    ensures forall i :: 0 <= i < 10 ==> r[i] == Ring(1 + i, OuterR - i as real * Band, ScoreToColor((1 + i) as real))
  {
    seq(10, i requires 0 <= i < 10 => Ring(1 + i, OuterR - i as real * Band, ScoreToColor((1 + i) as real)))
  }

  predicate Kept(minScore: int, ring: Ring) { ring.score >= minScore }

  function KeepFrom(minScore: int): Ring -> bool
  {
    ring => Kept(minScore, ring)
  }

  /** `rings`: the entries scoring at least `minScore`. */
  function Rings(minScore: int): (r: seq<Ring>)
    ensures |r| <= 10
  {
    Seqs.Filter(AllRings(), KeepFrom(minScore))
  }

  function FirstKept(minScore: int): (k: nat)
    ensures k <= 10
  {
    if minScore <= 1 then 0 else if minScore > 10 then 10 else minScore - 1
  }

  /** The kept rings are the table from the first score at least `minScore` onwards. */
  lemma RingsSuffix(minScore: int)
    ensures Rings(minScore) == AllRings()[FirstKept(minScore)..]
  {
    KeptSuffix(AllRings(), minScore);
  }

  /** In a table scored 1, 2, 3, ... the scores below `minScore` all come first, so filtering
      keeps a suffix. */
  lemma KeptSuffix(all: seq<Ring>, minScore: int)
    requires |all| == 10
    requires forall i :: 0 <= i < 10 ==> all[i].score == 1 + i
    ensures Seqs.Filter(all, KeepFrom(minScore)) == all[FirstKept(minScore)..]
  {
    var k := FirstKept(minScore);
    assert forall i :: 0 <= i < k ==> all[i].score < minScore;
    assert forall i :: k <= i < |all| ==> all[i].score >= minScore;
    SplitAtFirstKept(all, k, minScore);
  }

  /** When the scores below `minScore` are exactly the first `k`, filtering drops those. */
  lemma SplitAtFirstKept(all: seq<Ring>, k: nat, minScore: int)
    requires k <= |all|
    requires forall i :: 0 <= i < k ==> all[i].score < minScore
    requires forall i :: k <= i < |all| ==> all[i].score >= minScore
    ensures Seqs.Filter(all, KeepFrom(minScore)) == all[k..]
  {
    var p := KeepFrom(minScore);
    assert forall i :: 0 <= i < k ==> !p(all[i]);
    assert forall i :: k <= i < |all| ==> p(all[i]);
    Seqs.FilterDropsPrefix(all, k, p);
  }

  /** Ten rings on a single face, the five from 6 to 10 on a trispot face; on every face the
      radius drops by one band per point, so it strictly decreases as the score increases. */
  lemma RingTable(minScore: int)
    ensures |Rings(1)| == 10 && |Rings(6)| == 5
    ensures forall i :: 0 <= i < 5 ==> Rings(6)[i].score == 6 + i
    ensures forall i :: 0 <= i < |Rings(minScore)| ==>
              Rings(minScore)[i].radius == OuterR - (Rings(minScore)[i].score - 1) as real * Band
    ensures forall i, j :: 0 <= i < j < |Rings(minScore)| ==>
              Rings(minScore)[i].score < Rings(minScore)[j].score && Rings(minScore)[i].radius > Rings(minScore)[j].radius
  {
    RingsSuffix(1);
    RingsSuffix(6);
    RingsSuffix(minScore);
  }

  /* ---------------- a tap ---------------- */

  /** A point in the drawing's own coordinates (0 to 500 across). */
  datatype SvgPoint = SvgPoint(x: real, y: real)

  /** The distance of a point from the centre, as a root. */
  function CentreDistance(p: SvgPoint): (r: Root)
    ensures r.square == Sq(p.x - OuterR) + Sq(p.y - OuterR)
  {
    Root(Sq(p.x - OuterR) + Sq(p.y - OuterR))
  }

  /** `dist <= INNER_10_R`. */
  predicate IsX(p: SvgPoint)
  {
    AtMost(CentreDistance(p), Root(InnerTenR * InnerTenR))
  }

  /** The X test decided on squares: within 12.5 of the centre, 156.25 squared. */
  lemma IsXIffSquares(p: SvgPoint)
    ensures IsX(p) <==> Sq(p.x - OuterR) + Sq(p.y - OuterR) <= 156.25
    ensures IsX(SvgPoint(OuterR, OuterR))
    ensures !IsX(SvgPoint(OuterR + 13.0, OuterR))
  {
  }

  /** The X zone lies inside the 10 ring. */
  lemma XInsideTen(p: SvgPoint)
    requires IsX(p)
    ensures Below(CentreDistance(p), AllRings()[9].radius)
  {
  }

  /** The object handed to `onHit`. */
  datatype HitEvent = HitEvent(score: nat, xNorm: real, yNorm: real, isX: bool)

  /** The hit for a tap at `p` on the ring scoring `score`. */
  function HitFor(score: nat, p: SvgPoint): (r: HitEvent)
    ensures r.score == score && (r.isX <==> IsX(p))
    ensures r.xNorm * (OuterR * 2.0) == p.x && r.yNorm * (OuterR * 2.0) == p.y
  {
    HitEvent(score, p.x / (OuterR * 2.0), p.y / (OuterR * 2.0), IsX(p))
  }

  /* ---------------- drawing the hits ---------------- */

  /** `h && Number.isFinite(h.x) && Number.isFinite(h.y)`. */
  predicate Drawable(h: Option<Hit>)
  {
    h.Some? && h.value.x.Some? && h.value.y.Some?
  }

  function DrawableHit(): Option<Hit> -> bool
  {
    h => Drawable(h)
  }

  /** Where a drawable hit is drawn: `h.x * 500`, `h.y * 500`. */
  function DrawPoint(h: Option<Hit>): (r: SvgPoint)
    requires Drawable(h)
    ensures r.x == h.value.x.value * 500.0 && r.y == h.value.y.value * 500.0
  {
    SvgPoint(h.value.x.value * 500.0, h.value.y.value * 500.0)
  }

  /** The points drawn for a hit list: the drawable hits, in order. */
  function DrawnHits(hits: seq<Option<Hit>>): (r: seq<SvgPoint>)
    ensures |r| <= |hits|
    ensures |r| == |Seqs.Filter(hits, DrawableHit())|
    ensures forall k :: 0 <= k < |r| ==>
              Drawable(Seqs.Filter(hits, DrawableHit())[k]) && r[k] == DrawPoint(Seqs.Filter(hits, DrawableHit())[k])
  {
    var shown := Seqs.Filter(hits, DrawableHit());
    assert forall k :: 0 <= k < |shown| ==> Drawable(shown[k]) by {
      forall k | 0 <= k < |shown|
        ensures Drawable(shown[k])
      {
        Seqs.FilterMembership(hits, DrawableHit(), shown[k]);
      }
    }
    seq(|shown|, k requires 0 <= k < |shown| => DrawPoint(shown[k]))
  }

  /** The hit a tap emits, once the scoring screen has stored it, is drawn exactly where the
      tap landed. */
  lemma TapDrawnWhereTapped(score: nat, p: SvgPoint)
    ensures var e := HitFor(score, p);
            DrawnHits([Scoring.StoredHit(Some(Scoring.HitInput(Some(e.xNorm), Some(e.yNorm), e.isX)))]) == [p]
  {
    var e := HitFor(score, p);
    var h := Scoring.StoredHit(Some(Scoring.HitInput(Some(e.xNorm), Some(e.yNorm), e.isX)));
    assert h == Some(Hit(Some(e.xNorm), Some(e.yNorm), None, None, e.isX));
    assert DrawPoint(h) == p;
    DrawnSingle(h);
  }

  /** A single drawable hit is drawn once, at its point. */
  lemma DrawnSingle(h: Option<Hit>)
    requires Drawable(h)
    ensures DrawnHits([h]) == [DrawPoint(h)]
  {
    assert [h][..0] == [];
    assert Seqs.Filter([h], DrawableHit()) == [h];
  }

  /** The X button's coordinate-less hit and an empty slot are never drawn. */
  lemma UndrawableSkipped(hits: seq<Option<Hit>>)
    ensures DrawnHits(hits + [Scoring.StoredHit(Scoring.QuickHit(true)), None]) == DrawnHits(hits)
  {
    var tail := [Scoring.StoredHit(Scoring.QuickHit(true)), None];
    Seqs.FilterConcat(hits, tail, DrawableHit());
    assert tail[..1][..0] == [];
    assert tail[..1] == [tail[0]];
    assert Seqs.Filter(tail, DrawableHit()) == [];
  }

  /* ---------------- one face ---------------- */

  /** One face (`SingleTarget`): its fixed props, the lens (the position shown magnified after a
      tap) and the hits emitted so far through `onHit`. */
  class TargetFace {
    const minScore: int
    const readOnly: bool
    /** Whether an `onHit` handler was passed. */
    const armed: bool
    var lens: Option<SvgPoint>
    var emitted: seq<HitEvent>

    constructor(minScore: int, readOnly: bool, armed: bool)
      ensures this.minScore == minScore && this.readOnly == readOnly && this.armed == armed
      ensures lens.None? && emitted == []
    {
      this.minScore := minScore;
      this.readOnly := readOnly;
      this.armed := armed;
      lens := None;
      emitted := [];
    }

    /** `handlePointerDown(evt, score)`: nothing when read-only, unarmed, or when the touch has
        no drawing position; otherwise the lens moves to the tap and one hit is emitted. */
    method PointerDown(score: nat, p: Option<SvgPoint>)
      modifies this
      ensures readOnly || !armed || p.None? ==> lens == old(lens) && emitted == old(emitted)
      ensures !readOnly && armed && p.Some? ==> lens == p && emitted == old(emitted) + [HitFor(score, p.value)]
    {
      if readOnly {
        return;
      }
      if !armed {
        return;
      }
      if p.None? {
        return;
      }
      lens := p;
      emitted := emitted + [HitFor(score, p.value)];
    }

    /** `handlePointerMove`: the lens follows the touch while it is shown. */
    method PointerMove(p: Option<SvgPoint>)
      modifies this
      ensures old(lens).Some? && p.Some? ==> lens == p
      ensures old(lens).None? || p.None? ==> lens == old(lens)
      ensures emitted == old(emitted)
    {
      if lens.None? {
        return;
      }
      if p.None? {
        return;
      }
      lens := p;
    }

    /** The timer that hides the lens after a tap. */
    method HideLens()
      modifies this
      ensures lens.None? && emitted == old(emitted)
    {
      lens := None;
    }
  }

  /* ---------------- single and trispot mode ---------------- */

  /** The props of one face: its minimum ring score and the hits it draws. */
  datatype FaceProps = FaceProps(minScore: int, hits: seq<Option<Hit>>)

  /** `hits[i] ? [hits[i]] : []`. */
  function FaceHits(hits: seq<Option<Hit>>, i: nat): (r: seq<Option<Hit>>)
    ensures |r| <= 1
    ensures r == [] <==> i >= |hits| || hits[i].None?
    ensures r != [] ==> r == [hits[i]]
  {
    if i < |hits| && hits[i].Some? then [hits[i]] else []
  }

  /** `SvgTargetInteractive`: one full face, or three faces of rings 6 to 10 each showing only its
      own arrow's hit. */
  function Faces(mode: string, hits: seq<Option<Hit>>): (r: seq<FaceProps>)
    ensures mode != "trispot" ==> r == [FaceProps(1, hits)]
    ensures mode == "trispot" ==> |r| == 3
    ensures mode == "trispot" ==> forall i :: 0 <= i < 3 ==> r[i].minScore == 6 && r[i].hits == FaceHits(hits, i)
  {
    if mode != "trispot" then [FaceProps(1, hits)]
    else seq(3, i requires 0 <= i < 3 => FaceProps(6, FaceHits(hits, i)))
  }

  /** A trispot face draws at most its own arrow's hit, and draws it when it has coordinates. */
  lemma TrispotFaceDrawsOwnHit(hits: seq<Option<Hit>>, i: nat)
    requires i < 3
    ensures |DrawnHits(Faces("trispot", hits)[i].hits)| <= 1
    ensures i < |hits| && Drawable(hits[i]) ==> DrawnHits(Faces("trispot", hits)[i].hits) == [DrawPoint(hits[i])]
  {
    if i < |hits| && Drawable(hits[i]) {
      assert [hits[i]][..0] == [];
      assert Seqs.Filter([hits[i]], DrawableHit()) == [hits[i]];
    }
  }
}
