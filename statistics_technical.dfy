/** The technical-analysis panel: which hits it draws, whether it shows the three trispot boxes,
    the insufficient-data card or the single-target view, and the rule tables behind the
    single-target view's texts (centre alignment, drift direction, dispersion label). */
module StatisticsTechnical {
  import opened Wrappers
  import opened Reals
  import opened Roots
  import SessionModel
  import Seqs
  import Dispersion
  import Interpretation

  /* ---------------- inputs as the panel receives them ---------------- */

  /** The fields the panel reads from `technical`; `None` stands for a missing or non-finite
      value. */
  datatype TechnicalFields = TechnicalFields(meanX: Option<real>, meanY: Option<real>, dispersionRadius: Option<Root>)

  /** The fields `SpotBox` reads from one face's summary. */
  datatype SpotRecord = SpotRecord(dispersionRadius: Option<Root>, spreadX: Option<Root>, spreadY: Option<Root>)

  datatype SpotsInput = SpotsInput(high: Option<SpotRecord>, middle: Option<SpotRecord>, low: Option<SpotRecord>)

  /** A summary produced by `computeTechnicalSummary`, as the panel reads it. */
  function FieldsOf(t: Dispersion.TechnicalSummary): (r: TechnicalFields)
    ensures r.meanX == Some(t.meanX) && r.meanY == Some(t.meanY) && r.dispersionRadius == Some(t.dispersionRadius)
  {
    TechnicalFields(Some(t.meanX), Some(t.meanY), Some(t.dispersionRadius))
  }

  function SpotRecordOf(t: Option<Dispersion.TechnicalSummary>): (r: Option<SpotRecord>)
    ensures r.Some? <==> t.Some?
  {
    if t.None? then None else Some(SpotRecord(Some(t.value.dispersionRadius), Some(t.value.spreadX), Some(t.value.spreadY)))
  }

  function SpotsOf(b: Option<Interpretation.SummaryBySpot>): (r: Option<SpotsInput>)
    ensures r.Some? <==> b.Some?
  {
    if b.None? then None else Some(SpotsInput(SpotRecordOf(b.value.high), SpotRecordOf(b.value.middle), SpotRecordOf(b.value.low)))
  }

  /* ---------------- validHits and isTrispot ---------------- */

  /** `h && Number.isFinite(h.x) && Number.isFinite(h.y)`. */
  predicate Usable(h: Option<SessionModel.Hit>)
  {
    h.Some? && h.value.x.Some? && h.value.y.Some?
  }

  /** `validHits`: the usable hits in order; a non-array gives `[]`. */
  function ValidHits(hits: Option<seq<Option<SessionModel.Hit>>>): (r: seq<Option<SessionModel.Hit>>)
    ensures hits.None? ==> r == []
    ensures hits.Some? ==> |r| <= |hits.value|
  {
    if hits.None? then [] else Seqs.Filter(hits.value, Usable)
  }

  /** A hit is kept exactly when it is present in the input and usable; the kept hits keep
      their order. */
  lemma ValidHitsExact(hits: seq<Option<SessionModel.Hit>>, h: Option<SessionModel.Hit>)
    ensures h in ValidHits(Some(hits)) <==> h in hits && Usable(h)
    ensures Seqs.IsSubsequence(ValidHits(Some(hits)), hits)
  {
    Seqs.FilterMembership(hits, Usable, h);
    Seqs.FilterIsSubsequence(hits, Usable);
  }

  /** The hits of the statistics pipeline, with both coordinates always present, are all kept. */
  function AsHit(p: Dispersion.Point): Option<SessionModel.Hit>
  {
    Some(SessionModel.Hit(Some(p.x), Some(p.y), None, None, false))
  }

  lemma PipelineHitsAllValid(ps: seq<Dispersion.Point>)
    ensures var hs := seq(|ps|, i requires 0 <= i < |ps| => AsHit(ps[i]));
            ValidHits(Some(hs)) == hs
  {
    var hs := seq(|ps|, i requires 0 <= i < |ps| => AsHit(ps[i]));
    Seqs.FilterAll(hs, Usable);
  }

  /** `!!technicalBySpot && (high || middle || low)`. */
  predicate IsTrispot(b: Option<SpotsInput>)
  {
    b.Some? && (b.value.high.Some? || b.value.middle.Some? || b.value.low.Some?)
  }

  /** The panel switches to the trispot layout exactly when the screen gives the trispot advice
      priority. */
  lemma TrispotAgreesWithScreen(b: Option<Interpretation.SummaryBySpot>)
    ensures IsTrispot(SpotsOf(b)) <==>
            b.Some? && (b.value.high.Some? || b.value.middle.Some? || b.value.low.Some?)
  {
  }

  /* ---------------- safe values ---------------- */

  /** `Number.isFinite(m) ? m : 0`. */
  function SafeMean(m: Option<real>): (r: real)
    ensures m.Some? ==> r == m.value
    ensures m.None? ==> r == 0.0
  {
    m.GetOr(0.0)
  }

  /* ---------------- centre alignment and direction ---------------- */

  /** `CENTER_THRESHOLD`. */
  const CenterThreshold: real := 0.7

  /** `Math.sqrt(mx * mx + my * my)`. */
  function CenterDistance(mx: real, my: real): (r: Root)
    ensures r.square == Sq(mx) + Sq(my)
  {
    Root(Sq(mx) + Sq(my))
  }

  /** `isCenterAligned`: the centre lies strictly inside the circle of radius 0.7. */
  predicate CenterAligned(mx: real, my: real)
  {
    Below(CenterDistance(mx, my), CenterThreshold)
  }

  lemma CenterAlignedIffSquares(mx: real, my: real)
    ensures CenterAligned(mx, my) <==> mx * mx + my * my < 0.49
  {
  }

  /** The four headings both direction texts are chosen from. */
  datatype Heading = Up | Down | Right | Left

  /** The shared ternary chain: vertical when `|my| > |mx|`, by the sign of `my`; otherwise
      horizontal, right only when `mx > 0`. */
  function HeadingOf(mx: real, my: real): (r: Heading)
    ensures (r == Up || r == Down) <==> Interpretation.Abs(my) > Interpretation.Abs(mx)
    ensures r == Up <==> Interpretation.Abs(my) > Interpretation.Abs(mx) && my > 0.0
    ensures r == Right <==> Interpretation.Abs(my) <= Interpretation.Abs(mx) && mx > 0.0
  {
    if Interpretation.Abs(my) > Interpretation.Abs(mx) then (if my > 0.0 then Up else Down)
    else if mx > 0.0 then Right else Left
  }

  /** Ties go horizontal; a tie at the origin reads as "left". */
  lemma HeadingTies(m: real)
    ensures HeadingOf(m, m) == HeadingOf(m, -m)
    ensures HeadingOf(m, m) == (if m > 0.0 then Right else Left)
    ensures HeadingOf(0.0, 0.0) == Left
  {
  }

  /** Mirroring the centre left-right swaps right and left and keeps vertical headings, except
      on the vertical axis itself where both sides read "left". */
  lemma HeadingMirror(mx: real, my: real)
    requires mx != 0.0
    ensures HeadingOf(-mx, my) == match HeadingOf(mx, my) { case Right => Left case Left => Right case h => h }
  {
  }

  const DriftUp: string := "Deriva media verso l\U{2019}alto"
  const DriftDown: string := "Deriva media verso il basso"
  const DriftRight: string := "Deriva media a destra"
  const DriftLeft: string := "Deriva media a sinistra"
  const TendencyUp: string := "Tendenza verso l\U{2019}alto"
  const TendencyDown: string := "Tendenza verso il basso"
  const TendencyRight: string := "Tendenza a destra"
  const TendencyLeft: string := "Tendenza a sinistra"

  function DriftText(h: Heading): string
  {
    match h
    case Up => DriftUp
    case Down => DriftDown
    case Right => DriftRight
    case Left => DriftLeft
  }

  function TendencyText(h: Heading): string
  {
    match h
    case Up => TendencyUp
    case Down => TendencyDown
    case Right => TendencyRight
    case Left => TendencyLeft
  }

  /** `centerDirection`: null exactly when the centre is aligned. */
  function CenterDirection(mx: real, my: real): (r: Option<string>)
    ensures r.None? <==> CenterAligned(mx, my)
    ensures r.Some? ==> r.value == DriftText(HeadingOf(mx, my))
  {
    if CenterAligned(mx, my) then None else Some(DriftText(HeadingOf(mx, my)))
  }

  /** `direction`. */
  function Direction(mx: real, my: real): (r: string)
    ensures r == TendencyText(HeadingOf(mx, my))
  {
    TendencyText(HeadingOf(mx, my))
  }

  /** The two texts name the same heading: four distinct phrases each, in the same order. */
  lemma DirectionTextsAgree(mx: real, my: real, other: Heading)
    ensures DriftText(other) == DriftText(HeadingOf(mx, my)) <==> other == HeadingOf(mx, my)
    ensures TendencyText(other) == Direction(mx, my) <==> other == HeadingOf(mx, my)
  {
    assert DriftUp[19] != DriftDown[19];
    assert DriftRight[15] != DriftLeft[15];
    assert TendencyUp[15] != TendencyDown[15];
    assert TendencyRight[11] != TendencyLeft[11];
  }

  /** A centre the interpretation module calls centred (both means within 0.05) is always
      aligned here; the converse fails. */
  lemma CenteredImpliesAligned(mx: real, my: real)
    requires Interpretation.Abs(mx) < Interpretation.DefaultCenterThreshold
    requires Interpretation.Abs(my) < Interpretation.DefaultCenterThreshold
    ensures CenterAligned(mx, my)
  {
    var ax, ay := Interpretation.Abs(mx), Interpretation.Abs(my);
    SquareMonotone(ax, 0.05);
    SquareMonotone(ay, 0.05);
    assert ax * ax == mx * mx;
    assert ay * ay == my * my;
  }

  lemma AlignedButNotCentered()
    ensures CenterAligned(0.1, 0.0)
    ensures !(Interpretation.Abs(0.1) < Interpretation.DefaultCenterThreshold)
  {
  }

  /* ---------------- dispersion label ---------------- */

  const NotComputable: string := "Dispersione non calcolabile"
  const ExcellentGrouping: string := "Ottima compattezza"
  const GoodGrouping: string := "Buona compattezza"
  const WideGrouping: string := "Dispersione elevata"

  const ExcellentBelowMm: real := 25.0
  const GoodBelowMm: real := 45.0

  /** `dispersionLabel`. */
  function DispersionLabel(d: Option<Root>): (r: string)
    ensures r == NotComputable <==> d.None?
    ensures r == ExcellentGrouping <==> d.Some? && Below(d.value, ExcellentBelowMm)
    ensures r == GoodGrouping <==> d.Some? && !Below(d.value, ExcellentBelowMm) && Below(d.value, GoodBelowMm)
    ensures r == WideGrouping <==> d.Some? && !Below(d.value, GoodBelowMm)
  {
    if d.None? then NotComputable
    else if Below(d.value, ExcellentBelowMm) then ExcellentGrouping
    else if Below(d.value, GoodBelowMm) then GoodGrouping
    else WideGrouping
  }

  /** Position of a label from best to worst. */
  function LabelRank(text: string): nat
  {
    if text == ExcellentGrouping then 0 else if text == GoodGrouping then 1 else 2
  }

  /** A tighter group never gets a worse label. */
  lemma DispersionLabelMonotone(a: Root, b: Root)
    requires AtMost(a, b)
    ensures LabelRank(DispersionLabel(Some(a))) <= LabelRank(DispersionLabel(Some(b)))
  {
  }

  /* ---------------- SpotBox ---------------- */

  /** The contents of one trispot box. */
  datatype SpotBox = NoSpotData | SpotData(dispersionRadius: Root, spreadY: Root, spreadX: Root)

  /** `hasData`: the record is present and all three values are finite. */
  predicate HasData(data: Option<SpotRecord>)
  {
    data.Some? && data.value.dispersionRadius.Some? && data.value.spreadX.Some? && data.value.spreadY.Some?
  }

  function SpotBoxOf(data: Option<SpotRecord>): (r: SpotBox)
    ensures r.SpotData? <==> HasData(data)
    ensures r.SpotData? ==> Some(r.dispersionRadius) == data.value.dispersionRadius
                            && Some(r.spreadX) == data.value.spreadX && Some(r.spreadY) == data.value.spreadY
  {
    if HasData(data) then SpotData(data.value.dispersionRadius.value, data.value.spreadY.value, data.value.spreadX.value)
    else NoSpotData
  }

  /** For the screen's own per-face summaries a box has data exactly when its face has at least
      two usable hits. */
  lemma SpotBoxFromHits(hits: seq<Dispersion.Point>)
    ensures SpotBoxOf(SpotRecordOf(Dispersion.ComputeTechnicalSummary(hits))).SpotData? <==> |hits| >= 2
  {
  }

  /* ---------------- the panel ---------------- */

  /** The centre-mean box: "Allineato" or the two means. */
  datatype CenterBox = Aligned | Offset(x: real, y: real)

  const AlignedNote: string := "Nessuna deriva significativa rispetto al centro"

  /** What the panel renders, with formatting left out. */
  datatype Panel =
    | TrispotPanel(high: SpotBox, middle: SpotBox, low: SpotBox, advice: Option<string>)
    | InsufficientData
    | SinglePanel(dispersion: Option<Root>, dispersionNote: string, center: CenterBox,
                  centerNote: string, advice: Option<string>, drawn: seq<Option<SessionModel.Hit>>)

  /** `{interpretation && ...}`: the advice is shown only for a non-empty text. */
  function ShownAdvice(interpretation: Option<string>): (r: Option<string>)
    ensures r.Some? <==> interpretation.Some? && interpretation.value != []
    ensures r.Some? ==> r == interpretation
  {
    if interpretation.Some? && interpretation.value != [] then interpretation else None
  }

  /** `StatisticsTechnical`. */
  function Render(technical: Option<TechnicalFields>, bySpot: Option<SpotsInput>,
                  hits: Option<seq<Option<SessionModel.Hit>>>, interpretation: Option<string>): (r: Panel)
    ensures r.TrispotPanel? <==> IsTrispot(bySpot)
    ensures r.InsufficientData? <==> !IsTrispot(bySpot) && (technical.None? || ValidHits(hits) == [])
    ensures r.TrispotPanel? ==> r.high == SpotBoxOf(bySpot.value.high) && r.middle == SpotBoxOf(bySpot.value.middle)
                                && r.low == SpotBoxOf(bySpot.value.low)
    ensures r.TrispotPanel? || r.SinglePanel? ==> r.advice == ShownAdvice(interpretation)
    ensures r.SinglePanel? ==>
              var mx, my := SafeMean(technical.value.meanX), SafeMean(technical.value.meanY);
              && r.dispersion == technical.value.dispersionRadius
              && r.dispersionNote == DispersionLabel(technical.value.dispersionRadius)
              && (r.center == Aligned <==> CenterAligned(mx, my))
              && (r.center.Offset? ==> r.center == Offset(mx, my))
              && (CenterAligned(mx, my) ==> r.centerNote == AlignedNote)
              && (!CenterAligned(mx, my) ==> Some(r.centerNote) == CenterDirection(mx, my))
              && r.drawn == ValidHits(hits) && r.drawn != []
  {
    var valid := ValidHits(hits);
    if IsTrispot(bySpot) then
      TrispotPanel(SpotBoxOf(bySpot.value.high), SpotBoxOf(bySpot.value.middle), SpotBoxOf(bySpot.value.low),
                   ShownAdvice(interpretation))
    else if technical.None? || |valid| == 0 then InsufficientData
    else
      var mx, my := SafeMean(technical.value.meanX), SafeMean(technical.value.meanY);
      var aligned := CenterAligned(mx, my);
      SinglePanel(
        technical.value.dispersionRadius,
        DispersionLabel(technical.value.dispersionRadius),
        if aligned then Aligned else Offset(mx, my),
        if aligned then AlignedNote else CenterDirection(mx, my).value,
        ShownAdvice(interpretation),
        valid)
  }

  /** With a summary from `computeTechnicalSummary` the safe values are the summary's own: the
      means are used as they are and the dispersion label is always one of the three grades. */
  lemma RenderOfSummary(t: Dispersion.TechnicalSummary, hits: seq<Dispersion.Point>, interpretation: Option<string>)
    requires |hits| > 0
    ensures var hs := seq(|hits|, i requires 0 <= i < |hits| => AsHit(hits[i]));
            var r := Render(Some(FieldsOf(t)), None, Some(hs), interpretation);
            && r.SinglePanel?
            && (r.center == Aligned <==> CenterAligned(t.meanX, t.meanY))
            && r.dispersionNote != NotComputable
  {
    PipelineHitsAllValid(hits);
  }
}
