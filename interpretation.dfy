/** The verdict rules of the technical analysis: ordered threshold rules that turn a grouping
    summary, the three trispot summaries or the centroid into one advice string. */
module Interpretation {
  import opened Wrappers
  import opened Roots
  import opened Dispersion

  /* ---------------- interpretGrouping ---------------- */

  const CompactAdvice: string := "Rosata molto compatta, ottima stabilit\U{00E0}."
  const VerticalAdvice: string := "Dispersione verticale: controlla trazione e allungo."
  const HorizontalAdvice: string := "Dispersione orizzontale: verifica grip e center shot."
  const RegularAdvice: string := "Rosata ampia ma regolare: lavora sulla continuit\U{00E0} del rilascio."

  const CompactBelowMm: real := 25.0
  const SpreadRatio: real := 1.3

  /** The fields `interpretGrouping` reads. A field is `None` when the object passed in lacks it
      (JavaScript reads it as `undefined`, and every comparison with `undefined` is false). The
      values the application passes are square roots, so each is a `Root`. */
  datatype GroupingInput = GroupingInput(dispersion: Option<Root>, spreadX: Option<Root>, spreadY: Option<Root>)

  /** `dispersion < 25`. */
  predicate CompactRule(g: GroupingInput)
  {
    g.dispersion.Some? && Below(g.dispersion.value, CompactBelowMm)
  }

  /** `spreadY > spreadX * 1.3`. */
  predicate VerticalRule(g: GroupingInput)
  {
    g.spreadX.Some? && g.spreadY.Some? && ExceedsScaled(g.spreadY.value, g.spreadX.value, SpreadRatio)
  }

  /** `spreadX > spreadY * 1.3`. */
  predicate HorizontalRule(g: GroupingInput)
  {
    g.spreadX.Some? && g.spreadY.Some? && ExceedsScaled(g.spreadX.value, g.spreadY.value, SpreadRatio)
  }

  /** For non-negative spreads the two directional rules never hold together. */
  lemma DirectionalRulesExclusive(g: GroupingInput)
    ensures !(VerticalRule(g) && HorizontalRule(g))
  {
  }

  /** `interpretGrouping(...)`. Because the two directional rules exclude each other, each
      verdict is characterised by its own rule alone, after the compactness rule. */
  function InterpretGrouping(g: GroupingInput): (r: string)
    ensures r == CompactAdvice <==> CompactRule(g)
    ensures r == VerticalAdvice <==> !CompactRule(g) && VerticalRule(g)
    ensures r == HorizontalAdvice <==> !CompactRule(g) && HorizontalRule(g)
    ensures r == RegularAdvice <==> !CompactRule(g) && !VerticalRule(g) && !HorizontalRule(g)
  {
    DirectionalRulesExclusive(g);
    if CompactRule(g) then CompactAdvice
    else if VerticalRule(g) then VerticalAdvice
    else if HorizontalRule(g) then HorizontalAdvice
    else RegularAdvice
  }

  /** The rules on roots decide the same comparisons as the source makes on the numbers
      `Math.sqrt` returns. */
  lemma GroupingRulesSound(g: GroupingInput, d: real, sx: real, sy: real)
    requires g.dispersion.Some? && g.spreadX.Some? && g.spreadY.Some?
    requires IsRootOf(d, g.dispersion.value) && IsRootOf(sx, g.spreadX.value) && IsRootOf(sy, g.spreadY.value)
    ensures CompactRule(g) <==> d < CompactBelowMm
    ensures VerticalRule(g) <==> sy > sx * SpreadRatio
    ensures HorizontalRule(g) <==> sx > sy * SpreadRatio
  {
    BelowSound(g.dispersion.value, d, CompactBelowMm);
    ExceedsScaledSound(g.spreadY.value, g.spreadX.value, SpreadRatio, sy, sx);
    ExceedsScaledSound(g.spreadX.value, g.spreadY.value, SpreadRatio, sx, sy);
  }

  /** Swapping the axes swaps the vertical and the horizontal verdicts. */
  lemma GroupingAxisSwap(g: GroupingInput)
    ensures var r, s := InterpretGrouping(g), InterpretGrouping(g.(spreadX := g.spreadY, spreadY := g.spreadX));
            && (r == VerticalAdvice <==> s == HorizontalAdvice)
            && (r == HorizontalAdvice <==> s == VerticalAdvice)
            && (r == CompactAdvice <==> s == CompactAdvice)
  {
  }

  /** What the statistics screen passes: the technical summary itself, which has no
      `dispersion` field (its radius is called `dispersionRadius`). */
  function GroupingAsWired(t: TechnicalSummary): (g: GroupingInput)
    ensures g.dispersion.None?
    ensures g.spreadX == Some(t.spreadX) && g.spreadY == Some(t.spreadY)
  {
    GroupingInput(None, Some(t.spreadX), Some(t.spreadY))
  }

  /** As wired, the compactness rule can never fire: the verdict depends on the spreads only. */
  lemma GroupingAsWiredNeverCompact(t: TechnicalSummary)
    ensures InterpretGrouping(GroupingAsWired(t)) != CompactAdvice
    ensures InterpretGrouping(GroupingAsWired(t)) == InterpretGrouping(GroupingAsWired(t.(dispersionRadius := Root(0.0))))
  {
  }

  /** The intended reading: the radial dispersion feeds the compactness rule. */
  function GroupingOf(t: TechnicalSummary): (g: GroupingInput)
    ensures g.dispersion == Some(t.dispersionRadius)
    ensures g.spreadX == Some(t.spreadX) && g.spreadY == Some(t.spreadY)
  {
    GroupingInput(Some(t.dispersionRadius), Some(t.spreadX), Some(t.spreadY))
  }

  /** A group whose hits all coincide has radius 0: the intended wiring calls it compact,
      the wiring as written calls it wide. */
  lemma GroupingFinding(hits: seq<Point>)
    requires |hits| >= 2
    requires forall i :: 0 <= i < |hits| ==> hits[i] == hits[0]
    ensures var t := ComputeTechnicalSummary(hits).value;
            && InterpretGrouping(GroupingOf(t)) == CompactAdvice
            && InterpretGrouping(GroupingAsWired(t)) == RegularAdvice
  {
    var t := ComputeTechnicalSummary(hits).value;
    SpreadZero(hits);
    DispersionFromSpreads(hits);
    assert t.spreadX.square == 0.0 && t.spreadY.square == 0.0;
    assert t.dispersionRadius.square == 0.0;
  }

  /* ---------------- interpretTrispot ---------------- */

  const UniformAdvice: string := "Rosata uniforme sui tre spot: buona gestione dell\U{2019}angolo di tiro."
  const LowAdvice: string := "Lo spot basso \U{00E8} meno compatto: possibile stanchezza o perdita di controllo nell\U{2019}angolo discendente."
  const HighAdvice: string := "Lo spot alto mostra maggiore dispersione: verifica riferimento visivo e allineamento iniziale."
  const MiddleAdvice: string := "Lo spot centrale \U{00E8} meno stabile: possibile incoerenza nella fase di rilascio."

  const MinSpotArrows: int := 6
  const UniformGapMm: real := 10.0

  datatype SpotKey = High | Middle | Low

  /** The fields `interpretTrispot` reads from one spot summary: `count` and `dispersion`,
      `None` when absent. */
  datatype SpotFields = SpotFields(count: Option<int>, dispersion: Option<Root>)

  /** `technicalBySpot`: one summary per spot, `None` when that summary is null. */
  datatype BySpot = BySpot(high: Option<SpotFields>, middle: Option<SpotFields>, low: Option<SpotFields>)

  /** A qualifying spot as the sort sees it. */
  datatype Ranked = Ranked(key: SpotKey, dispersion: Root)

  /** `s && s.count >= 6 && Number.isFinite(s.dispersion)`; `{ key, ...null }` has neither field. */
  predicate Qualifies(f: Option<SpotFields>)
  {
    f.Some? && f.value.count.Some? && f.value.count.value >= MinSpotArrows && f.value.dispersion.Some?
  }

  function Candidate(key: SpotKey, f: Option<SpotFields>): (r: seq<Ranked>)
    ensures |r| == (if Qualifies(f) then 1 else 0)
  {
    if Qualifies(f) then [Ranked(key, f.value.dispersion.value)] else []
  }

  /** The qualifying spots, in the order high, middle, low. */
  function Qualifying(b: BySpot): (r: seq<Ranked>)
    ensures |r| == (if Qualifies(b.high) then 1 else 0) + (if Qualifies(b.middle) then 1 else 0) + (if Qualifies(b.low) then 1 else 0)
  {
    Candidate(High, b.high) + Candidate(Middle, b.middle) + Candidate(Low, b.low)
  }

  predicate SortedByDispersion(s: seq<Ranked>)
  {
    forall i, j :: 0 <= i < j < |s| ==> s[i].dispersion.square <= s[j].dispersion.square
  }

  /** Insertion of `x` behind every element whose dispersion does not exceed its own: the
      comparator `a.dispersion - b.dispersion` of a stable sort. */
  function Insert(x: Ranked, s: seq<Ranked>): (r: seq<Ranked>)
    ensures |r| == |s| + 1
    decreases |s|
  {
    if s == [] || s[|s| - 1].dispersion.square <= x.dispersion.square then s + [x]
    else Insert(x, s[..|s| - 1]) + [s[|s| - 1]]
  }

  lemma {:induction false} InsertPermutes(x: Ranked, s: seq<Ranked>)
    ensures multiset(Insert(x, s)) == multiset(s) + multiset{x}
    decreases |s|
  {
    if !(s == [] || s[|s| - 1].dispersion.square <= x.dispersion.square) {
      var init := s[..|s| - 1];
      assert s == init + [s[|s| - 1]];
      InsertPermutes(x, init);
    }
  }

  lemma {:induction false} InsertSorted(x: Ranked, s: seq<Ranked>)
    requires SortedByDispersion(s)
    ensures SortedByDispersion(Insert(x, s))
    decreases |s|
  {
    if !(s == [] || s[|s| - 1].dispersion.square <= x.dispersion.square) {
      var init := s[..|s| - 1];
      var last := s[|s| - 1];
      InsertSorted(x, init);
      InsertBelow(x, init, last);
    }
  }

  /** Inserting keeps every element at most a bound that the inserted one and all the others respect. */
  lemma {:induction false} InsertBelow(x: Ranked, s: seq<Ranked>, bound: Ranked)
    requires x.dispersion.square <= bound.dispersion.square
    requires forall k :: 0 <= k < |s| ==> s[k].dispersion.square <= bound.dispersion.square
    ensures forall k :: 0 <= k < |s| + 1 ==> Insert(x, s)[k].dispersion.square <= bound.dispersion.square
    decreases |s|
  {
    if !(s == [] || s[|s| - 1].dispersion.square <= x.dispersion.square) {
      InsertBelow(x, s[..|s| - 1], bound);
    }
  }

  /** The position the last element of `s` takes after `Insert`. */
  lemma InsertLast(x: Ranked, s: seq<Ranked>)
    ensures var r := Insert(x, s);
            r[|r| - 1] == if s == [] || s[|s| - 1].dispersion.square <= x.dispersion.square then x else s[|s| - 1]
  {
  }

  /** `spots.sort((a, b) => a.dispersion - b.dispersion)`, as the result of a stable sort. */
  function SortByDispersion(xs: seq<Ranked>): (r: seq<Ranked>)
    ensures |r| == |xs|
    decreases |xs|
  {
    if xs == [] then [] else Insert(xs[|xs| - 1], SortByDispersion(xs[..|xs| - 1]))
  }

  lemma {:induction false} SortPermutes(xs: seq<Ranked>)
    ensures multiset(SortByDispersion(xs)) == multiset(xs)
    decreases |xs|
  {
    if xs != [] {
      var init := xs[..|xs| - 1];
      assert xs == init + [xs[|xs| - 1]];
      SortPermutes(init);
      InsertPermutes(xs[|xs| - 1], SortByDispersion(init));
    }
  }

  lemma {:induction false} SortSorted(xs: seq<Ranked>)
    ensures SortedByDispersion(SortByDispersion(xs))
    decreases |xs|
  {
    if xs != [] {
      SortSorted(xs[..|xs| - 1]);
      InsertSorted(xs[|xs| - 1], SortByDispersion(xs[..|xs| - 1]));
    }
  }

  /** The index of the spot with the largest dispersion, the later one on a tie. */
  function LastMaximalIndex(xs: seq<Ranked>): (k: nat)
    requires xs != []
    ensures k < |xs|
    ensures forall i :: 0 <= i < |xs| ==> xs[i].dispersion.square <= xs[k].dispersion.square
    ensures forall j :: k < j < |xs| ==> xs[j].dispersion.square < xs[k].dispersion.square
    decreases |xs|
  {
    if |xs| == 1 then 0
    else
      var m := LastMaximalIndex(xs[..|xs| - 1]);
      if xs[m].dispersion.square <= xs[|xs| - 1].dispersion.square then |xs| - 1 else m
  }

  /** The stable sort ends with the last maximal spot. */
  lemma {:induction false} SortLast(xs: seq<Ranked>)
    requires xs != []
    ensures var s := SortByDispersion(xs);
            s[|s| - 1] == xs[LastMaximalIndex(xs)]
    decreases |xs|
  {
    var init := xs[..|xs| - 1];
    var x := xs[|xs| - 1];
    InsertLast(x, SortByDispersion(init));
    if init != [] {
      SortLast(init);
    }
  }

  /** The sort starts with a spot of least dispersion. */
  lemma SortFirst(xs: seq<Ranked>)
    requires xs != []
    ensures var s := SortByDispersion(xs);
            forall i :: 0 <= i < |xs| ==> s[0].dispersion.square <= xs[i].dispersion.square
  {
    var s := SortByDispersion(xs);
    SortSorted(xs);
    SortPermutes(xs);
    forall i | 0 <= i < |xs|
      ensures s[0].dispersion.square <= xs[i].dispersion.square
    {
      assert xs[i] in multiset(s);
      var j :| 0 <= j < |s| && s[j] == xs[i];
    }
  }

  /** The advice naming each spot: a different text for each. */
  function SpotAdvice(k: SpotKey): (r: string)
    ensures r == HighAdvice <==> k == High
    ensures r == MiddleAdvice <==> k == Middle
    ensures r == LowAdvice <==> k == Low
  {
    assert HighAdvice != MiddleAdvice && MiddleAdvice != LowAdvice && LowAdvice != HighAdvice by {
      assert |HighAdvice| != |MiddleAdvice| && |MiddleAdvice| != |LowAdvice| && |LowAdvice| != |HighAdvice|;
    }
    match k
    case Low => LowAdvice
    case High => HighAdvice
    case Middle => MiddleAdvice
  }

  /** `interpretTrispot(technicalBySpot)`, as a value. */
  function TrispotAdvice(b: Option<BySpot>): (r: Option<string>)
    ensures r.None? <==> b.None? || |Qualifying(b.value)| < 2
  {
    if b.None? then None else SpotsVerdict(Qualifying(b.value))
  }

  /** The verdict on the qualifying spots: none below two, otherwise the two ends of the sorted
      copy compared. */
  function SpotsVerdict(qs: seq<Ranked>): (r: Option<string>)
    ensures r.None? <==> |qs| < 2
  {
    if |qs| < 2 then None else Some(Verdict(Worst(qs), BestDispersion(qs)))
  }

  /** The last spot of the sorted copy. */
  function Worst(qs: seq<Ranked>): Ranked
    requires qs != []
  {
    SortByDispersion(qs)[|qs| - 1]
  }

  /** The dispersion of the first spot of the sorted copy. */
  function BestDispersion(qs: seq<Ranked>): Root
    requires qs != []
  {
    SortByDispersion(qs)[0].dispersion
  }

  /** The comparison of the worst spot with the best dispersion. */
  function Verdict(worst: Ranked, best: Root): (r: string)
  {
    if GapBelow(worst.dispersion, best, UniformGapMm) then UniformAdvice else SpotAdvice(worst.key)
  }

  /** The verdict is uniform exactly when the gap is below 10, and names the worst spot otherwise. */
  lemma VerdictMeaning(worst: Ranked, best: Root)
    ensures Verdict(worst, best) == UniformAdvice <==> GapBelow(worst.dispersion, best, UniformGapMm)
    ensures Verdict(worst, best) != UniformAdvice ==> Verdict(worst, best) == SpotAdvice(worst.key)
  {
    SpotAdviceNotUniform(worst.key);
  }

  /** With two qualifying spots or more: the verdict is uniform exactly when the largest and the
      smallest qualifying dispersion differ by less than 10, and otherwise names the spot of
      largest dispersion (the later of high, middle, low on a tie). */
  lemma TrispotVerdict(b: BySpot, least: nat)
    requires var qs := Qualifying(b);
             |qs| >= 2 && least < |qs| &&
             forall i :: 0 <= i < |qs| ==> qs[least].dispersion.square <= qs[i].dispersion.square
    ensures var qs := Qualifying(b);
            var worst := qs[LastMaximalIndex(qs)];
            && (TrispotAdvice(Some(b)) == Some(UniformAdvice) <==> GapBelow(worst.dispersion, qs[least].dispersion, UniformGapMm))
            && (TrispotAdvice(Some(b)) != Some(UniformAdvice) ==> TrispotAdvice(Some(b)) == Some(SpotAdvice(worst.key)))
  {
    var qs := Qualifying(b);
    SortEnds(qs, least);
    VerdictMeaning(qs[LastMaximalIndex(qs)], qs[least].dispersion);
  }

  /** The advice naming a spot is never the uniform one: their lengths differ. */
  lemma SpotAdviceNotUniform(k: SpotKey)
    ensures SpotAdvice(k) != UniformAdvice
  {
    assert |SpotAdvice(k)| != |UniformAdvice|;
  }

  lemma SortEnds(qs: seq<Ranked>, least: nat)
    requires |qs| >= 2 && least < |qs|
    requires forall i :: 0 <= i < |qs| ==> qs[least].dispersion.square <= qs[i].dispersion.square
    ensures Worst(qs) == qs[LastMaximalIndex(qs)] && BestDispersion(qs) == qs[least].dispersion
  {
    var s := SortByDispersion(qs);
    SortLast(qs);
    SortFirst(qs);
    SortPermutes(qs);
    assert s[0] in multiset(qs);
    var j :| 0 <= j < |qs| && qs[j] == s[0];
    assert s[0].dispersion.square == qs[least].dispersion.square;
  }

  /** Sort in place: a stable insertion sort on the dispersion. */
  method SortSpots(a: array<Ranked>)
    modifies a
    ensures a[..] == SortByDispersion(old(a[..]))
  {
    ghost var input := a[..];
    var i := 0;
    while i < a.Length
      invariant 0 <= i <= a.Length
      invariant a[..i] == SortByDispersion(input[..i])
      invariant a[i..] == input[i..]
    {
      ghost var before := a[..];
      InsertInPlace(a, i);
      SortPrefixStep(input, i, before, a[..]);
      i := i + 1;
    }
    assert input[..a.Length] == input;
  }

  lemma SortPrefixStep(input: seq<Ranked>, i: nat, before: seq<Ranked>, after: seq<Ranked>)
    requires i < |input| == |before| == |after|
    requires before[..i] == SortByDispersion(input[..i]) && before[i..] == input[i..]
    requires after[..i + 1] == Insert(before[i], before[..i]) && after[i + 1..] == before[i + 1..]
    ensures after[..i + 1] == SortByDispersion(input[..i + 1])
    ensures after[i + 1..] == input[i + 1..]
  {
    assert before[i] == before[i..][0] == input[i];
    assert input[..i + 1][..i] == input[..i];
    assert before[i + 1..] == before[i..][1..];
    assert input[i + 1..] == input[i..][1..];
  }

  /** One pass of the insertion sort: `a[i]` moves left past every larger dispersion. */
  method InsertInPlace(a: array<Ranked>, i: nat)
    requires i < a.Length
    modifies a
    ensures a[..i + 1] == Insert(old(a[i]), old(a[..i]))
    ensures a[i + 1..] == old(a[i + 1..])
  {
    ghost var sorted := a[..i];
    ghost var rest := a[i + 1..];
    var x := a[i];
    var j := ShiftLarger(a, i, x);
    a[j] := x;
    InsertAt(x, sorted, j);
    assert a[..i + 1] == sorted[..j] + [x] + sorted[j..];
    forall k | i < k < a.Length
      ensures a[k] == rest[k - i - 1]
    {
      assert rest[k - i - 1] == old(a[k]);
    }
    assert a[i + 1..] == rest;
  }

  /** The shifting loop of one pass: every larger dispersion moves one place right, and the loop stops at
      the first element from the right that does not. */
  method ShiftLarger(a: array<Ranked>, i: nat, x: Ranked) returns (j: nat)
    requires i < a.Length
    modifies a
    ensures j <= i
    ensures forall k :: 0 <= k < j ==> a[k] == old(a[k])
    ensures forall k :: j < k <= i ==> a[k] == old(a[k - 1])
    ensures forall k :: i < k < a.Length ==> a[k] == old(a[k])
    ensures j == 0 || old(a[j - 1]).dispersion.square <= x.dispersion.square
    ensures forall k :: j <= k < i ==> old(a[k]).dispersion.square > x.dispersion.square
  {
    j := i;
    while j > 0 && a[j - 1].dispersion.square > x.dispersion.square
      invariant 0 <= j <= i
      invariant forall k :: 0 <= k < j ==> a[k] == old(a[k])
      invariant forall k :: j < k <= i ==> a[k] == old(a[k - 1])
      invariant forall k :: i < k < a.Length ==> a[k] == old(a[k])
      invariant forall k :: j <= k < i ==> old(a[k]).dispersion.square > x.dispersion.square
    {
      a[j] := a[j - 1];
      j := j - 1;
    }
  }

  /** Where the insertion lands: behind the last element not larger than `x`, with
      everything after it larger. */
  lemma {:induction false} InsertAt(x: Ranked, s: seq<Ranked>, j: nat)
    requires j <= |s|
    requires j == 0 || s[j - 1].dispersion.square <= x.dispersion.square
    requires forall k :: j <= k < |s| ==> s[k].dispersion.square > x.dispersion.square
    ensures Insert(x, s) == s[..j] + [x] + s[j..]
    decreases |s|
  {
    if j == |s| {
      assert s[..j] == s && s[j..] == [];
    } else {
      var init := s[..|s| - 1];
      InsertAt(x, init, j);
      assert init[..j] == s[..j];
      assert s[j..] == init[j..] + [s[|s| - 1]];
    }
  }

  /** `interpretTrispot(technicalBySpot)`: the spots are collected, sorted in place, and the
      first and the last compared. */
  method InterpretTrispot(b: Option<BySpot>) returns (r: Option<string>)
    ensures r == TrispotAdvice(b)
  {
    if b.None? {
      return None;
    }
    var spots := Qualifying(b.value);
    if |spots| < 2 {
      return None;
    }
    var a := new Ranked[|spots|](i requires 0 <= i < |spots| => spots[i]);
    assert a[..] == spots;
    SortSpots(a);
    var best := a[0];
    var worst := a[a.Length - 1];
    if GapBelow(worst.dispersion, best.dispersion, UniformGapMm) {
      r := Some(UniformAdvice);
    } else if worst.key == Low {
      r := Some(LowAdvice);
    } else if worst.key == High {
      r := Some(HighAdvice);
    } else {
      r := Some(MiddleAdvice);
    }
  }

  /** The three technical summaries of the trispot faces, `None` where a summary is null. */
  datatype SummaryBySpot = SummaryBySpot(high: Option<TechnicalSummary>, middle: Option<TechnicalSummary>, low: Option<TechnicalSummary>)

  /** What `interpretTrispot` reads from a technical summary as wired: it looks for `count` and
      `dispersion`, which the summary does not have. */
  function SpotFieldsAsWired(t: Option<TechnicalSummary>): Option<SpotFields>
  {
    if t.None? then None else Some(SpotFields(None, None))
  }

  function BySpotAsWired(s: SummaryBySpot): BySpot
  {
    BySpot(SpotFieldsAsWired(s.high), SpotFieldsAsWired(s.middle), SpotFieldsAsWired(s.low))
  }

  /** As wired, no spot ever qualifies and the trispot advice is always null. */
  lemma TrispotAsWiredNull(s: Option<SummaryBySpot>)
    ensures TrispotAdvice(if s.None? then None else Some(BySpotAsWired(s.value))).None?
  {
  }

  /** The intended reading: `arrowsCount` as the count, `dispersionRadius` as the dispersion. */
  function SpotFieldsOf(t: Option<TechnicalSummary>): (r: Option<SpotFields>)
    ensures r.None? <==> t.None?
    ensures r.Some? ==> r.value.count == Some(t.value.arrowsCount as int) && r.value.dispersion == Some(t.value.dispersionRadius)
  {
    if t.None? then None else Some(SpotFields(Some(t.value.arrowsCount as int), Some(t.value.dispersionRadius)))
  }

  function BySpotOf(s: SummaryBySpot): BySpot
  {
    BySpot(SpotFieldsOf(s.high), SpotFieldsOf(s.middle), SpotFieldsOf(s.low))
  }

  /** With the intended reading, two faces of six hits or more always produce advice. */
  lemma TrispotFinding(s: SummaryBySpot)
    requires s.high.Some? && s.high.value.arrowsCount >= 6
    requires s.low.Some? && s.low.value.arrowsCount >= 6
    ensures TrispotAdvice(Some(BySpotOf(s))).Some?
    ensures TrispotAdvice(Some(BySpotAsWired(s))).None?
  {
    assert Qualifies(BySpotOf(s).high) && Qualifies(BySpotOf(s).low);
  }

  /* ---------------- interpretCenterMean ---------------- */

  const DefaultCenterThreshold: real := 0.05
  const CenteredLabel: string := "Centro medio allineato"
  const CenteredDescription: string := "Nessuna deriva significativa rispetto al centro."
  const OffsetDescription: string := "Spostamento sistematico del gruppo rispetto al centro."

  /** The object `interpretCenterMean` returns; `value` is present for an offset only. */
  datatype CenterMean = CenterMean(kind: string, labelText: string, description: string, value: Option<Point>)

  function Abs(x: real): real { if x < 0.0 then -x else x }

  /** `meanX > T ? "destra" : meanX < -T ? "sinistra" : null`. */
  function HorizontalDrift(mx: real, t: real): Option<string>
  {
    if mx > t then Some("destra") else if mx < -t then Some("sinistra") else None
  }

  /** `meanY > T ? "alto" : meanY < -T ? "basso" : null`. */
  function VerticalDrift(my: real, t: real): Option<string>
  {
    if my > t then Some("alto") else if my < -t then Some("basso") else None
  }

  /** `horiz && vert ? `${vert}-${horiz}` : horiz || vert`. */
  function Direction(h: Option<string>, v: Option<string>): (r: Option<string>)
    ensures h.Some? && v.Some? ==> r == Some(v.value + "-" + h.value)
    ensures h.Some? && v.None? ==> r == h
    ensures h.None? ==> r == v
  {
    if h.Some? && v.Some? then Some(v.value + "-" + h.value) else if h.Some? then h else v
  }

  /** A template literal renders a null direction as "null". */
  function DirectionText(d: Option<string>): (r: string)
    ensures d.Some? ==> r == d.value
    ensures d.None? ==> r == "null"
  {
    if d.Some? then d.value else "null"
  }

  /** `interpretCenterMean(technical, { threshold })`. */
  function InterpretCenterMean(technical: Option<TechnicalSummary>, threshold: Option<real>): (r: Option<CenterMean>)
    ensures r.None? <==> technical.None?
    ensures r.Some? ==>
              var mx, my, t := technical.value.meanX, technical.value.meanY, threshold.GetOr(DefaultCenterThreshold);
              && (r.value.kind == "centered" <==> Abs(mx) < t && Abs(my) < t)
              && (r.value.kind == "centered" || r.value.kind == "offset")
              && (r.value.kind == "offset" ==> r.value.value == Some(Point(mx, my)))
              && (r.value.kind == "offset" ==> r.value.labelText == "Deriva media " + DirectionText(Direction(HorizontalDrift(mx, t), VerticalDrift(my, t))))
              && (r.value.kind == "offset" ==> r.value.description == OffsetDescription)
              && (r.value.kind == "centered" ==>
                    r.value.labelText == CenteredLabel && r.value.description == CenteredDescription && r.value.value.None?)
  {
    if technical.None? then None
    else
      var mx, my := technical.value.meanX, technical.value.meanY;
      var t := threshold.GetOr(DefaultCenterThreshold);
      if Abs(mx) < t && Abs(my) < t then
        Some(CenterMean("centered", CenteredLabel, CenteredDescription, None))
      else
        var direction := Direction(HorizontalDrift(mx, t), VerticalDrift(my, t));
        Some(CenterMean("offset", "Deriva media " + DirectionText(direction), OffsetDescription, Some(Point(mx, my))))
  }

  /** The direction names each axis on which the centroid lies strictly beyond the threshold:
      both as "vert-horiz", one alone by itself, none as null. */
  lemma DirectionCases(mx: real, my: real, t: real)
    requires t >= 0.0
    ensures var d := Direction(HorizontalDrift(mx, t), VerticalDrift(my, t));
            && (d.None? <==> Abs(mx) <= t && Abs(my) <= t)
            && (Abs(mx) > t && Abs(my) > t ==> d == Some(VerticalDrift(my, t).value + "-" + HorizontalDrift(mx, t).value))
            && (Abs(mx) > t && Abs(my) <= t ==> d == HorizontalDrift(mx, t))
            && (Abs(mx) <= t && Abs(my) > t ==> d == VerticalDrift(my, t))
  {
  }

  function Summary(mx: real, my: real): TechnicalSummary
  {
    TechnicalSummary(2, mx, my, Root(0.0), Root(0.0), Root(0.0))
  }

  /** A centroid exactly on the threshold is not centred, yet has no direction: the label reads
      "Deriva media null". */
  lemma CenterMeanBoundary()
    ensures InterpretCenterMean(Some(Summary(0.05, 0.0)), None).value.labelText == "Deriva media null"
  {
  }

  /** Drift with the boundary included: `meanX >= T` counts as right. */
  function HorizontalDriftInclusive(mx: real, t: real): Option<string>
  {
    if mx >= t then Some("destra") else if mx <= -t then Some("sinistra") else None
  }

  function VerticalDriftInclusive(my: real, t: real): Option<string>
  {
    if my >= t then Some("alto") else if my <= -t then Some("basso") else None
  }

  /** `interpretCenterMean` with the drift tests made the exact complement of the centred test. */
  function InterpretCenterMeanCorrected(technical: Option<TechnicalSummary>, threshold: Option<real>): (r: Option<CenterMean>)
    ensures r.None? <==> technical.None?
    ensures r.Some? ==>
              var mx, my, t := technical.value.meanX, technical.value.meanY, threshold.GetOr(DefaultCenterThreshold);
              && (r.value.kind == "centered" <==> Abs(mx) < t && Abs(my) < t)
              && (r.value.kind == "offset" ==> r.value.value == Some(Point(mx, my)))
  {
    if technical.None? then None
    else
      var mx, my := technical.value.meanX, technical.value.meanY;
      var t := threshold.GetOr(DefaultCenterThreshold);
      if Abs(mx) < t && Abs(my) < t then
        Some(CenterMean("centered", CenteredLabel, CenteredDescription, None))
      else
        var direction := Direction(HorizontalDriftInclusive(mx, t), VerticalDriftInclusive(my, t));
        Some(CenterMean("offset", "Deriva media " + DirectionText(direction), OffsetDescription, Some(Point(mx, my))))
  }

  /** Every offset verdict of the corrected rule names a direction. */
  lemma CenterMeanCorrectedHasDirection(technical: TechnicalSummary, threshold: Option<real>)
    ensures var t := threshold.GetOr(DefaultCenterThreshold);
            var r := InterpretCenterMeanCorrected(Some(technical), threshold).value;
            r.kind == "offset" ==>
              Direction(HorizontalDriftInclusive(technical.meanX, t), VerticalDriftInclusive(technical.meanY, t)).Some?
  {
  }
}
