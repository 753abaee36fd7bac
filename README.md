# Archery scorecard and statistics, modelled in Dafny

The application is an Italian archery score tracker for the browser. An archer creates
a session (date, kind "Allenamento"/"Competizione", target type, indoor/outdoor, distance). The
session is then scored on a fixed scorecard of 20 volleys ("volée") of 3 arrows. A score is
entered with a button or by tapping the target face, which also records where the arrow
landed.

Saved sessions appear in a filterable list. Any selection of them can be analysed on a
statistics screen:
- a performance summary: averages, X and ten counts, standard deviation, first-half versus
  second-half trend;
- a technical analysis of the hits: centroid, spreads, radial dispersion, centre drift, and a
  per-spot comparison on trispot faces;
- a competition-versus-training comparison;
- textual advice.

A session list can be exported as a spreadsheet or as a PDF trend chart.

The model covers the data logic of those parts. It does not cover rendering, the server or the
browser APIs.

## Modules

| file | module | what it holds |
|---|---|---|
| `wrappers.dfy`, `seqs.dfy`, `reals.dfy`, `roots.dfy`, `text.dfy` | `Wrappers`, `Seqs`, `Reals`, `Roots`, `Text` | `Option`, filtering and counting on sequences, sums and averages of reals, square roots kept as their squares, digit strings, case folding, and the fallback for an absent or empty text |
| `session.dfy` | `SessionModel` | the session, volley, arrow and hit records, with JavaScript's null/undefined/NaN distinctions made explicit |
| `scoring.dfy` | `Scoring` | the scoring screen: normalisation on load, completeness, totals, the cursor, and the `Scorer` class whose methods update the scorecard in place |
| `aggregates.dfy`, `dispersion.dfy`, `comparisons.dfy`, `interpretation.dfy` | `Aggregates`, `Dispersion`, `Comparisons`, `Interpretation` | the statistics library |
| `statistics_screen.dfy`, `statistics_summary.dfy`, `statistics_technical.dfy` | `StatisticsScreen`, `StatisticsSummary`, `StatisticsTechnical` | the statistics screen's pipeline and its two panels |
| `session_list.dfy`, `session_form.dfy`, `svg_target.dfy`, `app.dfy` | `SessionList`, `SessionForm`, `SvgTarget`, `App` | the list filter and row totals, the form, the target face (class `TargetFace`), and the application shell (class `Shell`) |
| `export_metrics.dfy`, `export_excel.dfy`, `export_chart_pdf.dfy` | `ExportMetrics`, `ExportExcel`, `ExportChartPdf` | the metric helpers both exports use, the workbook's four sheets, and the chart's sorted series (sorted in place on an array) |

### Representation

- A number read through `Number.isFinite` is `Fin(v)` for a finite value and `NonFinite`
  otherwise.
- An arrow slot is `Number(v)`, the legacy text `LegacyX`, `Null` or `Undefined`. The
  statistics count `LegacyX` as 10, as the scorecard does; the source's summing of it as text
  is modelled beside that reading (see Findings).
- An absent field is `None`.
- Reals stand for JavaScript doubles.
- `Math.sqrt(q)` is kept as the root of `q`. Comparisons of roots are decided on their
  squares; `Roots.BelowSound` and the other `...Sound` lemmas connect the two readings.
- Dates are the instants they denote: `None` when `new Date(...)` gives an invalid date.

### Where the description and the code differ

The model follows the code in each case.

- **Wrap-around at the last slot.** Writing the last slot (volley 20, arrow 3) does not hold the
  cursor in place. It moves the cursor to arrow 1 of volley 20 (`Scoring.Advance`,
  `Scoring.AdvanceFromStart`).
- **Two different "centred" tests.**
  - `interpretCenterMean` tests each axis against 0.05.
  - The technical panel tests the radial distance against 0.7.
  - The tests disagree: `StatisticsTechnical.CenteredImpliesAligned` and
    `StatisticsTechnical.AlignedButNotCentered` show how.
- **Grouping compactness.** The compactness rule reads a field the technical summary does not
  have, so it never fires. See Findings.
- **Standard deviation of a single value.**
  - The exports define it as 0.
  - The statistics library defines it as absent.
  - `ExportMetrics.StdDevAgainstStatistics` states both.
- **Editing the details clears the scores.** After the session form is submitted, the
  scorecard is rebuilt as an empty session on the saved record (`Scoring.Scorer.FinishEdit`,
  src/components/ScoringScreen.jsx:143). The record keeps its identifier, so the auto-save of
  src/components/ScoringScreen.jsx:121-129 then sends that empty card to the server 500 ms
  later; the auto-save timer itself is not modelled, and nothing here was executed.
- **Consistency grade without a deviation.** With no standard deviation (fewer than two
  arrows), `null < 2` holds, so the grade is "Ottima"
  (`StatisticsSummary.SingleArrowIsExcellent`).

## Model

| member | source | states |
|---|---|---|
| `SessionModel.SumScoresOfThree` | src/components/ScoringScreen.jsx:252-254 | a three-slot volley's score is the sum of its slots, "X" counting 10 and empty slots 0 |
| `SessionModel.SumFiniteOfThree` | src/components/ScoringScreen.jsx:5-7 | `sum` of three slots adds only the finite entries, so the legacy "X" adds 0 |
| `Scoring.Clamp` | src/components/ScoringScreen.jsx:9-11 | the result lies in `[a, b]`, equals `n` inside the range, and is the nearer bound outside it |
| `Scoring.ScoreStyle` | src/components/ScoringScreen.jsx:13-19 | the five colour bands partition the scores at 9, 7, 5 and 3; the text is black on yellow and white, white otherwise |
| `Scoring.EmptyVolleys` | src/components/ScoringScreen.jsx:21-30 | exactly 20 volleys, all empty |
| `Scoring.MakeEmptySession` | src/components/ScoringScreen.jsx:21-30 | the result has the 20×3 shape with every volley empty, and every other field of the base is kept |
| `Scoring.StoredVolley` | src/components/ScoringScreen.jsx:55 | the stored volley at the index when there is one, the empty object otherwise |
| `Scoring.NormalizeHit` | src/components/ScoringScreen.jsx:60-76 | a falsy slot stays null; otherwise legacy `x`/`y` take precedence over `xNorm`/`yNorm`, the normalised pair is dropped, and `isX` is kept |
| `Scoring.NormalizeVolley` | src/components/ScoringScreen.jsx:51-85 | three arrow slots (`?? null`, never undefined), three normalised hit slots, and the stored total when finite, rebuilt from the raw arrows otherwise |
| `Scoring.NormalizeSession` | src/components/ScoringScreen.jsx:45-93 | the result has the 20×3 shape, every other field is kept, and volley `i` is the normalisation of the stored volley `i` |
| `Scoring.Loaded` | src/components/ScoringScreen.jsx:45-93 | the loaded scorecard always has the 20×3 shape, with or without a session |
| `Scoring.NormalizeHitIdempotent` | src/components/ScoringScreen.jsx:60-76 | normalising a normalised hit changes nothing |
| `Scoring.NormalizeVolleyIdempotent` | src/components/ScoringScreen.jsx:51-85 | normalising a normalised volley changes nothing |
| `Scoring.NormalizeIdempotent` | src/components/ScoringScreen.jsx:45-93 | reopening a normalised session changes nothing |
| `Scoring.NormalizeTrustsStoredTotal` | src/components/ScoringScreen.jsx:82 | a stored total that contradicts the arrows (three 10s, total 5) is kept as it is |
| `Scoring.NormalizeRebuildsTotalFromRawArrows` | src/components/ScoringScreen.jsx:82 | a missing total is rebuilt from the whole raw array: a fourth arrow counts and the legacy "X" adds 0 |
| `Scoring.NoEmptySlot` | src/components/ScoringScreen.jsx:108-113 | true exactly when no slot is null or undefined |
| `Scoring.AllVolleysFilled` | src/components/ScoringScreen.jsx:108-113 | true exactly when every volley has an arrow array with every slot filled |
| `Scoring.IsSessionComplete` | src/components/ScoringScreen.jsx:108-113 | true exactly when there are 20 volleys, each with every arrow slot filled |
| `Scoring.EmptySessionIncomplete` | src/components/ScoringScreen.jsx:21-30 | a fresh scorecard is never complete |
| `Scoring.VolleyHits` | src/components/ScoringScreen.jsx:102-105 | the truthy entries of the hit array, and only those, as many as there are truthy slots; none when `hits` is not an array |
| `Scoring.AllHits` | src/components/ScoringScreen.jsx:102-105 | a hit is in the result exactly when it is a truthy hit of some volley |
| `Scoring.AllHitsConcat` | src/components/ScoringScreen.jsx:102-105 | `flatMap`: the hits of two runs of volleys are the first run's followed by the second's |
| `Scoring.AllHitsCount` | src/components/ScoringScreen.jsx:162 | `allHits.length`, the "Totale frecce" shown, is the number of truthy hit slots over the volleys |
| `Scoring.VolleyTotals` | src/components/ScoringScreen.jsx:96-99 | one entry per volley: its total, or 0 when the total is falsy |
| `Scoring.EmptySessionTotal` | src/components/ScoringScreen.jsx:96-99 | a fresh scorecard totals 0 |
| `Scoring.VolleyReplaced` | src/components/ScoringScreen.jsx:252-254 | replacing a volley by one whose total is its score keeps every total consistent, and moves the session total by the difference |
| `Scoring.SumScoresUpdate` | src/components/ScoringScreen.jsx:228-254 | overwriting one slot changes the score by that slot's new value minus its old value |
| `Scoring.Advance` | src/components/ScoringScreen.jsx:257-263 | the cursor stays in range: it moves to the next arrow, then to the next volley, and from the last slot to the first slot of the last volley |
| `Scoring.AdvanceTimes` | src/components/ScoringScreen.jsx:257-263 | any number of writes keeps the cursor in range |
| `Scoring.AdvanceFromStart` | src/components/ScoringScreen.jsx:257-263 | from the first slot, `n` writes reach arrow `n % 3` of volley `n / 3`, or of volley 20 once past it |
| `Scoring.FirstEmptySlot` | src/components/ScoringScreen.jsx:492-502 | the index of the first null slot, or -1 exactly when none is empty |
| `Scoring.StoredHit` | src/components/ScoringScreen.jsx:231-249 | with both coordinates, the tap position; without them, an X-only marker when `isX`, else null |
| `Scoring.QuickHit` | src/components/ScoringScreen.jsx:272-274 | the X button stores a coordinate-less X marker; the other buttons store no hit |
| `Scoring.Scorer.constructor` | src/components/ScoringScreen.jsx:34-35 | the initial scorecard is the empty session built on the prop, with the cursor on the first slot |
| `Scoring.Scorer.Load` | src/components/ScoringScreen.jsx:45-93 | the scorecard becomes the loaded session and the cursor does not move |
| `Scoring.Scorer.SetArrow` | src/components/ScoringScreen.jsx:215-266 | only the cursor's slot changes (arrow, hit, total), the total becomes the volley's new score, consistent totals stay consistent, and the cursor advances |
| `Scoring.Scorer.OnHit` | src/components/ScoringScreen.jsx:268-270 | a tap writes its score and position into the cursor's slot and advances |
| `Scoring.Scorer.Quick` | src/components/ScoringScreen.jsx:272-274 | a button writes its score into the cursor's slot, with the X marker for the X button, and advances |
| `Scoring.Scorer.SelectVolley` | src/components/ScoringScreen.jsx:492-502 | the cursor moves to the clicked volley at its first empty slot, or to its first slot when it is full |
| `Scoring.Scorer.SelectArrow` | src/components/ScoringScreen.jsx:467 | the cursor moves to the clicked slot of the current volley |
| `Scoring.Scorer.FinishEdit` | src/components/ScoringScreen.jsx:138-146 | after an edit the scorecard is the empty session built on the saved record (or on the local one); it totals 0 and is incomplete |
| `Aggregates.Mean` | src/utils/statistics/aggregates.js:6-9 | null exactly for an empty list; otherwise the value whose multiple by the length is the sum |
| `Aggregates.MeanBetweenExtremes` | src/utils/statistics/aggregates.js:6-9 | the mean lies between the smallest and the largest value |
| `Aggregates.StandardDeviation` | src/utils/statistics/aggregates.js:12-19 | null exactly below two values; otherwise the root of the population variance |
| `Aggregates.StandardDeviationZero` | src/utils/statistics/aggregates.js:12-19 | the deviation is zero exactly for a constant list |
| `Aggregates.StandardDeviationShift` | src/utils/statistics/aggregates.js:12-19 | adding the same amount to every value leaves the deviation unchanged |
| `Aggregates.Percentage` | src/utils/statistics/aggregates.js:22-26 | null exactly for no items; otherwise a value in [0, 100] equal to the share of items that satisfy the predicate |
| `Aggregates.CompleteVolleys` | src/utils/statistics/aggregates.js:42 | the number of whole volleys of three, positive exactly from three arrows |
| `Aggregates.Scores` | src/utils/statistics/aggregates.js:32-87 | the scores of the arrows, position by position |
| `Aggregates.PerVolley` | src/utils/statistics/aggregates.js:48-51 | null exactly without a complete volley; otherwise the total shared out over the volleys |
| `Aggregates.ComputeSessionSummary` | src/utils/statistics/aggregates.js:32-87 | null exactly for no arrows; otherwise the arrow count, the whole volleys, the per-volley average of the total (null below three arrows), `Mean` of the scores, `StandardDeviation` of the scores (null below two arrows), the X and ten counts and each count as a share of the arrows |
| `Aggregates.SummaryCounts` | src/utils/statistics/aggregates.js:55-56 | the X and ten counts are the arrows so marked, never more than the arrow count, with percentages in [0, 100] |
| `Aggregates.SummaryHalves` | src/utils/statistics/aggregates.js:53-54 | each half's average is null exactly when no arrow falls in that half, and is otherwise the mean of that half's scores |
| `Aggregates.HalvesPartition` | src/utils/statistics/aggregates.js:53-54 | every arrow falls in exactly one half |
| `Aggregates.XAndTenIndependent` | src/utils/statistics/aggregates.js:55-56 | an X-flagged 9 counts as an X but not as a ten; an unflagged 10 counts as a ten only |
| `Aggregates.WorkedExample` | src/utils/statistics/aggregates.js:32-87 | an illustration (the all-inputs contract is `ComputeSessionSummary`'s): for 10 (X), 9 and 8: one volley, average 27 per volley, mean 9, one X, one ten |
| `Dispersion.MeanPoint` | src/utils/statistics/dispersion.js:6-22 | null exactly without hits; otherwise the centroid, axis by axis |
| `Dispersion.RadialDistances` | src/utils/statistics/dispersion.js:40-44 | one distance per hit: the distance from the centre, in millimetres |
| `Dispersion.SumOfSquaredRoots` | src/utils/statistics/dispersion.js:46-47 | the sum of the squared distances is never negative |
| `Dispersion.RadialDispersion` | src/utils/statistics/dispersion.js:32-50 | null exactly below two hits; otherwise the root of the mean squared distance from the centroid |
| `Dispersion.ComputeTechnicalSummary` | src/utils/statistics/dispersion.js:56-78 | null exactly below two hits; otherwise count, centroid, radial dispersion and the two spreads around the centroid |
| `Dispersion.SpreadZero` | src/utils/statistics/dispersion.js:56-78 | a spread is zero exactly when every hit has the same coordinate on that axis |
| `Dispersion.OffsetsSumZero` | src/utils/statistics/dispersion.js:6-22 | the offsets from the centroid add up to zero on each axis |
| `Dispersion.DispersionFromSpreads` | src/utils/statistics/dispersion.js:32-78 | the squared radial dispersion is the sum of the two squared spreads, scaled to millimetres |
| `Dispersion.Shift` | src/utils/statistics/dispersion.js:56-78 | each hit moved by the same offset |
| `Dispersion.SpreadsAreVariances` | src/utils/statistics/dispersion.js:56-78 | each squared spread is the population variance of that coordinate |
| `Dispersion.TranslationInvariance` | src/utils/statistics/dispersion.js:56-78 | moving the whole group moves the centroid by the offset and changes neither spread nor dispersion |
| `Comparisons.Retained` | src/utils/statistics/comparisons.js:19-24 | a session is retained exactly when it is in the list under equivalent conditions (distance digits, target up to spacing and case, a known kind) |
| `Comparisons.FiniteTotals` | src/utils/statistics/comparisons.js:26-34 | no more entries than volleys |
| `Comparisons.AveragePerVolley` | src/utils/statistics/comparisons.js:26-34 | null exactly without a finite volley total; otherwise the mean of the finite totals |
| `Comparisons.NonFiniteTotalIgnored` | src/utils/statistics/comparisons.js:26-34 | a volley with a non-finite total, inserted at any position, does not change the average |
| `Comparisons.GroupAveragesMembers` | src/utils/statistics/comparisons.js:38-45 | a group holds exactly the averages of the retained sessions of its kind that have an average |
| `Comparisons.AllFiniteTotals` | src/utils/statistics/comparisons.js:26-34 | when every total is finite, all of them are averaged in order |
| `Comparisons.GroupAverages` | src/utils/statistics/comparisons.js:36-45 | no more averages than retained sessions |
| `Comparisons.GroupsCoverAveraged` | src/utils/statistics/comparisons.js:36-45 | together, the two groups receive exactly one average per retained session that has one |
| `Comparisons.SplitByKind` | src/utils/statistics/comparisons.js:36-45 | the loop pushes into each group its kind's averages, in session order |
| `Comparisons.Compare` | src/utils/statistics/comparisons.js:13-68 | defaults of 18 m and "40cm"; counts and averages per group; each average null exactly for an empty group; the delta is competition minus training when both exist |
| `Comparisons.CountsBounded` | src/utils/statistics/comparisons.js:36-45 | the two groups together are never longer than the retained list |
| `Comparisons.GroupsBounded` | src/utils/statistics/comparisons.js:36-45 | the two groups together are never longer than the retained list, proved by walking the list |
| `Comparisons.CompareCompetitionVsTraining` | src/utils/statistics/comparisons.js:13-68 | the loop-built comparison equals the comparison as a value |
| `Comparisons.CompareUnfolds` | src/utils/statistics/comparisons.js:47-68 | the returned object is assembled from the two groups' means and counts |
| `Comparisons.DistanceSpellings` | src/utils/statistics/comparisons.js:20 | "18 m", "18m" and 18 all read as distance 18 |
| `Comparisons.DistanceWithoutDigits` | src/utils/statistics/comparisons.js:20 | a distance without digits, or null, reads as 0 |
| `Comparisons.TargetSpellings` | src/utils/statistics/comparisons.js:21-22 | "40 CM" and "40cm" name the same target |
| `Comparisons.SessionOfAverage` | src/utils/statistics/comparisons.js:26-34 | a one-volley session averages its total |
| `Comparisons.SessionOfRetained` | src/utils/statistics/comparisons.js:19-24 | such a session of a known kind at 18 m on a "40cm" face is retained under the defaults |
| `Comparisons.DeltaExample` | src/utils/statistics/comparisons.js:55-68 | an illustration (the all-inputs statements are `GroupsCoverAveraged` and `CompareUnfolds`): training 25 and competition 27 give one session per group and a delta of +2 |
| `Comparisons.ExamplePair` | src/utils/statistics/comparisons.js:36-45 | an illustration (for all inputs, `SplitByKind`): each session of the example lands in its own group |
| `Comparisons.ExampleRetained` | src/utils/statistics/comparisons.js:19-24 | an illustration (for all inputs, `Retained` and `RetainedAll`): both sessions of the example are retained |
| `Comparisons.RetainedAll` | src/utils/statistics/comparisons.js:19-24 | a list of equivalent sessions is retained whole, in order |
| `Comparisons.ExampleGroup` | src/utils/statistics/comparisons.js:36-45 | of two sessions of different kinds, each group holds the average of its own |
| `Interpretation.DirectionalRulesExclusive` | src/utils/statistics/interpretation.js:10-14 | for non-negative spreads the vertical and horizontal rules never hold together |
| `Interpretation.InterpretGrouping` | src/utils/statistics/interpretation.js:1-17 | each of the four verdicts is given exactly when its rule is the first to hold |
| `Interpretation.GroupingRulesSound` | src/utils/statistics/interpretation.js:8-14 | the rules decided on squares agree with the comparisons on the roots (below 25 mm, ratio 1.3) |
| `Interpretation.GroupingAxisSwap` | src/utils/statistics/interpretation.js:10-14 | swapping the axes swaps the vertical and horizontal verdicts and fixes the others |
| `Interpretation.GroupingAsWiredNeverCompact` | src/components/statistics/StatisticsScreen.jsx:270 | as wired, the verdict is never "molto compatta" and does not depend on the dispersion |
| `Interpretation.GroupingAsWired` | src/components/statistics/StatisticsScreen.jsx:270 | the rule receives no dispersion and the two spreads |
| `Interpretation.GroupingOf` | src/utils/statistics/interpretation.js:1-8 | the intended reading feeds the radial dispersion and both spreads to the rules |
| `Interpretation.GroupingFinding` | src/utils/statistics/interpretation.js:1-8 | coincident hits are called compact under the intended reading, but not as wired |
| `Interpretation.Qualifying` | src/utils/statistics/interpretation.js:22-27 | one entry per qualifying spot, and no others |
| `Interpretation.SortByDispersion` | src/utils/statistics/interpretation.js:31 | the sorted copy has the same length |
| `Interpretation.SortPermutes` | src/utils/statistics/interpretation.js:31 | the sorted copy is a permutation of the spots |
| `Interpretation.SortSorted` | src/utils/statistics/interpretation.js:31 | the sorted copy is in ascending dispersion |
| `Interpretation.LastMaximalIndex` | src/utils/statistics/interpretation.js:31-34 | the position of the largest dispersion, the later one on a tie |
| `Interpretation.SortLast` | src/utils/statistics/interpretation.js:31-34 | the stable sort ends with the last spot of largest dispersion |
| `Interpretation.SortFirst` | src/utils/statistics/interpretation.js:31-34 | the sort starts with a spot of least dispersion |
| `Interpretation.TrispotAdvice` | src/utils/statistics/interpretation.js:19-55 | null exactly with no summaries or fewer than two qualifying spots |
| `Interpretation.SpotsVerdict` | src/utils/statistics/interpretation.js:29-54 | null exactly below two qualifying spots |
| `Interpretation.VerdictMeaning` | src/utils/statistics/interpretation.js:36-54 | specifies `Interpretation.Verdict`: the verdict is uniform exactly when the gap is below 10 mm, and otherwise names the worst spot |
| `Interpretation.TrispotVerdict` | src/utils/statistics/interpretation.js:29-54 | from two qualifying spots: uniform exactly when the largest and least dispersions are within 10 mm, else the advice for the last spot of largest dispersion |
| `Interpretation.SpotAdviceNotUniform` | src/utils/statistics/interpretation.js:36-54 | no spot's advice is the uniform text |
| `Interpretation.SpotAdvice` | src/utils/statistics/interpretation.js:46-54 | each spot has its own advice, and no two spots share one |
| `Interpretation.SortSpots` | src/utils/statistics/interpretation.js:31 | the in-place sort leaves the array as the stable sort of its contents |
| `Interpretation.InsertInPlace` | src/utils/statistics/interpretation.js:31 | one pass inserts the element into the sorted prefix and leaves the rest alone |
| `Interpretation.ShiftLarger` | src/utils/statistics/interpretation.js:31 | the larger dispersions move one place right and the loop stops behind the first one not larger |
| `Interpretation.InterpretTrispot` | src/utils/statistics/interpretation.js:19-55 | collecting, sorting in place and comparing the ends gives the advice as a value |
| `Interpretation.TrispotAsWiredNull` | src/components/statistics/StatisticsScreen.jsx:254-257 | as wired, no spot qualifies and the advice is always null |
| `Interpretation.SpotFieldsOf` | src/utils/statistics/interpretation.js:22-27 | the intended reading takes the count from `arrowsCount` and the dispersion from `dispersionRadius` |
| `Interpretation.TrispotFinding` | src/utils/statistics/interpretation.js:22-27 | two faces of six hits or more give advice under the intended reading, but none as wired |
| `Interpretation.Direction` | src/utils/statistics/interpretation.js:96-98 | both drifts give "vertical-horizontal"; otherwise whichever drift exists |
| `Interpretation.DirectionText` | src/utils/statistics/interpretation.js:102 | a direction renders as itself, and a null one as "null" |
| `Interpretation.InterpretCenterMean` | src/utils/statistics/interpretation.js:61-106 | null exactly without a summary; centred exactly when both means are strictly within the threshold (0.05 by default); labelled "Centro medio allineato" with its fixed description and no value; otherwise an offset labelled "Deriva media" and the drift direction, with the offset description and the two means |
| `Interpretation.DirectionCases` | src/utils/statistics/interpretation.js:86-98 | the direction names each axis on which the centroid lies strictly beyond the threshold, and is null when neither does |
| `Interpretation.CenterMeanBoundary` | src/utils/statistics/interpretation.js:74-102 | a centroid exactly on the threshold is an offset with the label "Deriva media null" |
| `Interpretation.InterpretCenterMeanCorrected` | src/utils/statistics/interpretation.js:61-106 | as the original, but with the drift tests the exact complement of the centred test |
| `Interpretation.CenterMeanCorrectedHasDirection` | src/utils/statistics/interpretation.js:74-102 | every offset of the corrected rule names a direction |
| `StatisticsScreen.NormalizeVolley` | src/components/statistics/StatisticsScreen.jsx:63-78 | three arrow and hit slots, the total or 0, and no other fields |
| `StatisticsScreen.NormalizeSession` | src/components/statistics/StatisticsScreen.jsx:63-78 | every field kept, and each stored volley normalised, as many as stored |
| `StatisticsScreen.NormalizeSessions` | src/components/statistics/StatisticsScreen.jsx:63-78 | each session normalised, in order |
| `StatisticsScreen.NormalizeVolleyIdempotent` | src/components/statistics/StatisticsScreen.jsx:63-78 | normalising a normalised volley changes nothing |
| `StatisticsScreen.NormalizeIdempotent` | src/components/statistics/StatisticsScreen.jsx:63-78 | normalising twice changes nothing more |
| `StatisticsScreen.NormalizationsDiffer` | src/components/statistics/StatisticsScreen.jsx:63-78 | this normalisation keeps the stored number of volleys and drops extra fields, where the scoring screen always yields 20 |
| `StatisticsScreen.ValueOf` | src/components/statistics/StatisticsScreen.jsx:83-102 | a slot contributes a score exactly when it is not null or undefined; the score is the slot's number, and the legacy "X" counts 10 (the reading the source intends; see Findings) |
| `StatisticsScreen.ScoredValues` | src/components/statistics/StatisticsScreen.jsx:83-102 | no more scores than slots |
| `StatisticsScreen.ScoredValuesConcat` | src/components/statistics/StatisticsScreen.jsx:83-102 | the filter distributes over concatenation |
| `StatisticsScreen.SessionAverage` | src/components/statistics/StatisticsScreen.jsx:83-102 | null exactly below three scores; otherwise the sum of the scores, "X" as 10, shared out over the whole volleys |
| `StatisticsScreen.SessionAverages` | src/components/statistics/StatisticsScreen.jsx:83-102 | at most one value per session |
| `StatisticsScreen.AveragePerSession` | src/components/statistics/StatisticsScreen.jsx:83-102 | over the sessions it is given (the screen passes the normalised selection): null exactly when no session has a value; otherwise the unweighted mean of the values |
| `StatisticsScreen.IncompleteSessionSkipped` | src/components/statistics/StatisticsScreen.jsx:83-102 | a session without a complete volley changes neither the result nor the number averaged over |
| `StatisticsScreen.AveragePerSessionOfTwo` | src/components/statistics/StatisticsScreen.jsx:83-102 | two sessions count equally, however many volleys each has |
| `StatisticsScreen.PairMean` | src/utils/statistics/aggregates.js:6-9 | for any two values, the mean is their half-sum (the two-session step of `AveragePerSessionOfTwo`) |
| `StatisticsScreen.SessionSumIsVolleyScores` | src/components/statistics/StatisticsScreen.jsx:88-91 | the sum a session's value divides is the sum of its volleys' scores as the scorecard counts them ("X" as 10, empty slots 0) |
| `StatisticsScreen.ScoredValuesSumScores` | src/components/statistics/StatisticsScreen.jsx:88-91 | the non-null scores of a volley add up to its scorecard score |
| `StatisticsScreen.DigitText` | src/components/statistics/StatisticsScreen.jsx:91 | the text a number adds to a joined sum is a run of digits exactly for a whole number from 0 up to below 10^21, and reads back as that number |
| `StatisticsScreen.NonNull` | src/components/statistics/StatisticsScreen.jsx:88 | only entries that are not null or undefined, as many as the scores the model reads |
| `StatisticsScreen.MeanAsWritten` | src/utils/statistics/aggregates.js:6-9 | `mean` over scores that may hold "X": null exactly for no values |
| `StatisticsScreen.SessionAverageAsWritten` | src/components/statistics/StatisticsScreen.jsx:86-95 | the source's per-session value, with `+` joining texts after an "X": null exactly when the model's value is null |
| `StatisticsScreen.ReduceWithoutX` | src/components/statistics/StatisticsScreen.jsx:91 | the reduction's steps (`AddEntry`, `Reduce`): without an "X" it is the numeric sum of the scores |
| `StatisticsScreen.AsWrittenAgreesWithoutX` | src/components/statistics/StatisticsScreen.jsx:86-95 | for every session without an "X", the source's per-session value is the model's |
| `StatisticsScreen.LegacyXFirstReadsAsHex` | src/components/statistics/StatisticsScreen.jsx:86-95 | scored "X", 9, 10, the source joins "0X910" and reads it as hexadecimal 2320 (and `mean` as 2320 / 3), where the volley scores 29 |
| `StatisticsScreen.LegacyXLaterReadsAsNaN` | src/components/statistics/StatisticsScreen.jsx:86-95 | scored 10, "X", 9, the source joins "10X9" and reads NaN |
| `StatisticsScreen.SlotArrow` | src/components/statistics/StatisticsScreen.jsx:107-122 | a scored arrow exactly for a slot that is not null or undefined, carrying its score (the legacy "X" as 10, see Findings), whether its hit is marked X, and its volley |
| `StatisticsScreen.VolleyScoredArrows` | src/components/statistics/StatisticsScreen.jsx:107-122 | at most three scored arrows per volley |
| `StatisticsScreen.SessionScoredArrows` | src/components/statistics/StatisticsScreen.jsx:107-122 | at most three per volley, each tagged with the index of a volley of the session |
| `StatisticsScreen.Arrows` | src/components/statistics/StatisticsScreen.jsx:107-122 | over the sessions it is given (the screen passes the normalised selection): every arrow's volley index is the index of a volley of a session in the selection; it counts within its own session |
| `StatisticsScreen.VolleyScoresAgree` | src/components/statistics/StatisticsScreen.jsx:83-122 | a normalised volley's scored arrows carry exactly its non-null scores |
| `StatisticsScreen.ArrowsAgreeWithAverages` | src/components/statistics/StatisticsScreen.jsx:83-122 | the summary reads the same scores that the per-session average reads |
| `StatisticsScreen.HitPoints` | src/components/statistics/StatisticsScreen.jsx:127-155 | no more points than hit slots |
| `StatisticsScreen.HitPoint` | src/components/statistics/StatisticsScreen.jsx:129-152 | a point exactly for a hit with a whole `xNorm`/`yNorm` pair or a whole `x`/`y` pair; the `xNorm`/`yNorm` pair when it is whole, else the `x`/`y` pair |
| `StatisticsScreen.HitsConcat` | src/components/statistics/StatisticsScreen.jsx:127-155 | `hits` (`StatisticsScreen.Hits`, over the normalised selection the screen passes) is a flat map: each part of the selection contributes its own hits, in order |
| `StatisticsScreen.HitPrecedenceReversed` | src/components/statistics/StatisticsScreen.jsx:127-155 | with both pairs stored, the statistics read the normalised pair where the scoring screen keeps the legacy one |
| `StatisticsScreen.Coordinate` | src/components/statistics/StatisticsScreen.jsx:160-194 | the normalised coordinate when finite, else the legacy one, else none |
| `StatisticsScreen.SpotPoint` | src/components/statistics/StatisticsScreen.jsx:160-194 | a point exactly when both coordinates resolve |
| `StatisticsScreen.SpotPointAgreesWithHitPoint` | src/components/statistics/StatisticsScreen.jsx:127-194 | a hit that stores whole pairs is read the same way by both pipelines |
| `StatisticsScreen.MixedHitReadTwoWays` | src/components/statistics/StatisticsScreen.jsx:127-194 | a hit with `xNorm` but without `yNorm` is read at two different points by the two pipelines |
| `StatisticsScreen.SlotContribution` | src/components/statistics/StatisticsScreen.jsx:160-194 | at most one point per volley and face |
| `StatisticsScreen.SlotPoints` | src/components/statistics/StatisticsScreen.jsx:160-194 | at most one point per volley |
| `StatisticsScreen.SlotPointsStep` | src/components/statistics/StatisticsScreen.jsx:160-194 | each further volley appends its own contribution |
| `StatisticsScreen.SpotPointsStep` | src/components/statistics/StatisticsScreen.jsx:160-194 | each further session appends its own volleys' points |
| `StatisticsScreen.AddVolleyHits` | src/components/statistics/StatisticsScreen.jsx:160-194 | the inner loop appends each slot's point to its own face |
| `StatisticsScreen.AddSessionHits` | src/components/statistics/StatisticsScreen.jsx:160-194 | the middle loop appends the session's points face by face, in volley order |
| `StatisticsScreen.HitsBySpot` | src/components/statistics/StatisticsScreen.jsx:160-194 | the three lists the loops build are the resolvable hits of slots 0, 1 and 2, in order |
| `StatisticsScreen.SlotDecidesFace` | src/components/statistics/StatisticsScreen.jsx:160-194 | a hit lands on the face of its slot only |
| `StatisticsScreen.TechnicalBySpot` | src/components/statistics/StatisticsScreen.jsx:209-211 | present exactly when a trispot session is selected, and then one technical summary per face |
| `StatisticsScreen.TrispotTestIsExact` | src/components/statistics/StatisticsScreen.jsx:209-211 | `isTrispotSelected` (`StatisticsScreen.IsTrispotSelected`) compares exactly: "trispot" does not count, "Trispot" does |
| `StatisticsScreen.InterpretationOf` | src/components/statistics/StatisticsScreen.jsx:259-271 | the trispot advice when any face has a summary, otherwise the grouping verdict, or none without a summary |
| `StatisticsScreen.InterpretationAsWiredSilentOnTrispot` | src/components/statistics/StatisticsScreen.jsx:259-271 | as written, once any face has a summary the screen gives no advice at all |
| `StatisticsScreen.InterpretationAsWired` | src/components/statistics/StatisticsScreen.jsx:259-271 | as written: the trispot advice on the summaries as handed over when any face has a summary; otherwise none without a summary, else the grouping verdict on the summary as handed over |
| `StatisticsScreen.GroupingOnlyWithoutSpots` | src/components/statistics/StatisticsScreen.jsx:259-271 | a "molto compatta" verdict means no face had a summary and the radius was below 25 mm |
| `StatisticsScreen.Distinct` | src/components/statistics/StatisticsScreen.jsx:28 | the same values as the input, each once |
| `StatisticsScreen.SingleOrMixed` | src/components/statistics/StatisticsScreen.jsx:29-30 | a single value exactly for one distinct value; otherwise "<caption> misto" |
| `StatisticsScreen.SingleIffUnanimous` | src/components/statistics/StatisticsScreen.jsx:28-30 | an attribute shows a single value exactly when all its present values are that value and at least one is present |
| `StatisticsScreen.AnalysisContextOf` | src/components/statistics/StatisticsScreen.jsx:25-44 | null exactly without sessions; otherwise the count and, for each of the four attributes, the single value or the mixed caption |
| `StatisticsScreen.NoKindIsMixed` | src/components/statistics/StatisticsScreen.jsx:25-44 | sessions without any kind show "Tipologia misto" |
| `StatisticsScreen.KindMixedCaption` | src/components/statistics/StatisticsScreen.jsx:29-30 | no values give the mixed caption |
| `StatisticsScreen.NoKindsPresent` | src/components/statistics/StatisticsScreen.jsx:25-44 | sessions without a kind contribute no kinds |
| `StatisticsSummary.Delta` | src/components/statistics/StatisticsSummary.jsx:26-29 | present exactly when both halves have an average, and then second minus first |
| `StatisticsSummary.DeltaSign` | src/components/statistics/StatisticsSummary.jsx:26-29 | the delta is non-negative exactly when the second half is at least as good |
| `StatisticsSummary.TrendColor` | src/components/statistics/StatisticsSummary.jsx:31-32 | grey exactly without a delta, green exactly for a non-negative one, red exactly for a negative one |
| `StatisticsSummary.TrendLabelOf` | src/components/statistics/StatisticsSummary.jsx:34-37 | a dash exactly without a delta; otherwise the delta, with `+` exactly when it is non-negative |
| `StatisticsSummary.TrendText` | src/components/statistics/StatisticsSummary.jsx:46-51 | empty exactly without a delta; "Buon finale" exactly for a non-negative one; the decline text exactly for a negative one |
| `StatisticsSummary.TrendPartsAgree` | src/components/statistics/StatisticsSummary.jsx:26-51 | colour, label and text follow the same three-way split |
| `StatisticsSummary.Consistency` | src/components/statistics/StatisticsSummary.jsx:39-44 | "Ottima" exactly below 2 or without a deviation, "Buona" exactly from 2 to below 3, "Da migliorare" from 3 |
| `StatisticsSummary.ConsistencyMonotone` | src/components/statistics/StatisticsSummary.jsx:39-44 | a smaller deviation never gets a worse grade |
| `StatisticsSummary.SingleArrowIsExcellent` | src/components/statistics/StatisticsSummary.jsx:39-44 | one arrow has no deviation and is graded "Ottima" |
| `StatisticsSummary.Render` | src/components/statistics/StatisticsSummary.jsx:3-147 | no card exactly without a summary; the card shows the summary's mean score, X and ten counts and their percentages; the grade from the deviation; the trend section exactly when both halves exist, with matching colour, label and text |
| `StatisticsSummary.RenderOfArrows` | src/components/statistics/StatisticsSummary.jsx:3-147 | over the screen's arrows: no card without arrows, and a trend section exactly when both halves have arrows |
| `StatisticsSummary.NoTrendWithoutSecondHalf` | src/components/statistics/StatisticsSummary.jsx:119 | arrows all in the first ten volleys show no trend |
| `StatisticsTechnical.FieldsOf` | src/components/statistics/StatisticsTechnical.jsx:66 | the panel reads the summary's own centroid and radius |
| `StatisticsTechnical.SpotRecordOf` | src/components/statistics/StatisticsTechnical.jsx:211-216 | a record exactly for a summary |
| `StatisticsTechnical.SpotsOf` | src/components/statistics/StatisticsTechnical.jsx:16-18 | the spot records exactly when the screen has them |
| `StatisticsTechnical.ValidHits` | src/components/statistics/StatisticsTechnical.jsx:11-13 | a non-array gives none; otherwise no more than the input |
| `StatisticsTechnical.ValidHitsExact` | src/components/statistics/StatisticsTechnical.jsx:11-13 | a hit is kept exactly when it is present and has both coordinates, and the kept hits keep their order |
| `StatisticsTechnical.PipelineHitsAllValid` | src/components/statistics/StatisticsTechnical.jsx:11-13 | the statistics pipeline's hits are all kept |
| `StatisticsTechnical.TrispotAgreesWithScreen` | src/components/statistics/StatisticsTechnical.jsx:16-18 | the trispot layout shows exactly when some face has a summary |
| `StatisticsTechnical.SafeMean` | src/components/statistics/StatisticsTechnical.jsx:69-70 | a finite mean, or 0 |
| `StatisticsTechnical.CenterDistance` | src/components/statistics/StatisticsTechnical.jsx:83-85 | the distance of the centroid from the centre |
| `StatisticsTechnical.CenterAlignedIffSquares` | src/components/statistics/StatisticsTechnical.jsx:80-88 | aligned exactly when the squared distance is below 0.49 |
| `StatisticsTechnical.HeadingOf` | src/components/statistics/StatisticsTechnical.jsx:91-110 | vertical exactly when the vertical mean is larger in magnitude, by its sign; otherwise horizontal, by the sign of mx |
| `StatisticsTechnical.HeadingTies` | src/components/statistics/StatisticsTechnical.jsx:91-110 | ties go horizontal, and a tie at the origin reads "left" |
| `StatisticsTechnical.HeadingMirror` | src/components/statistics/StatisticsTechnical.jsx:91-110 | mirroring left-right swaps right and left and keeps vertical headings |
| `StatisticsTechnical.CenterDirection` | src/components/statistics/StatisticsTechnical.jsx:91-99 | null exactly when aligned; otherwise the drift text of the heading |
| `StatisticsTechnical.Direction` | src/components/statistics/StatisticsTechnical.jsx:103-110 | the tendency text of the heading |
| `StatisticsTechnical.DirectionTextsAgree` | src/components/statistics/StatisticsTechnical.jsx:91-110 | both texts name the heading, and no other heading gives the same text |
| `StatisticsTechnical.CenteredImpliesAligned` | src/components/statistics/StatisticsTechnical.jsx:80-88 | a centroid centred per axis at 0.05 is always aligned at radius 0.7 |
| `StatisticsTechnical.AlignedButNotCentered` | src/components/statistics/StatisticsTechnical.jsx:80-88 | (0.1, 0) is aligned for the panel but not centred for the interpretation |
| `StatisticsTechnical.DispersionLabel` | src/components/statistics/StatisticsTechnical.jsx:113-120 | not computable exactly without a radius; otherwise the bands below 25 mm, below 45 mm, and from 45 mm |
| `StatisticsTechnical.DispersionLabelMonotone` | src/components/statistics/StatisticsTechnical.jsx:113-120 | a tighter group never gets a worse label |
| `StatisticsTechnical.SpotBoxOf` | src/components/statistics/StatisticsTechnical.jsx:211-242 | the box shows data exactly when the record has three finite values, and then shows those values |
| `StatisticsTechnical.SpotBoxFromHits` | src/components/statistics/StatisticsTechnical.jsx:211-216 | for the screen's own summaries, a box has data exactly when its face has at least two hits |
| `StatisticsTechnical.ShownAdvice` | src/components/statistics/StatisticsTechnical.jsx:158-160 | the advice is shown exactly when it is a non-empty text |
| `StatisticsTechnical.Render` | src/components/statistics/StatisticsTechnical.jsx:8-185 | the trispot layout exactly for spot records; "insufficient data" exactly without a summary or without usable hits; otherwise the single panel, with the safe values and its labels |
| `StatisticsTechnical.RenderOfSummary` | src/components/statistics/StatisticsTechnical.jsx:57-120 | with a real summary and hits, the panel shows the summary's own centroid and radius |
| `SessionList.FilterSessions` | src/components/SessionList.jsx:43-82 | exactly the sessions that pass the filters, no more than the list |
| `SessionList.PassesEachFilter` | src/components/SessionList.jsx:43-82 | the `filteredSessions` predicate (`SessionList.Passes`) is the conjunction of the period, distance, kind, environment and target filters, each judged on its own |
| `SessionList.FilterSessionsKeepsOrder` | src/components/SessionList.jsx:43-82 | the filtered list is a subsequence of the list |
| `SessionList.DefaultKeepsAll` | src/components/SessionList.jsx:6-13 | the default filters keep every session, in order |
| `SessionList.UnparseableDateNeverExcluded` | src/components/SessionList.jsx:45-50 | a session whose date does not parse is judged as if no period were set |
| `SessionList.DistanceFilterIsTextual` | src/components/SessionList.jsx:53-58 | the filter "18" keeps the number 18 but not the text "18 m" |
| `SessionList.NarrowingShrinks` | src/components/SessionList.jsx:43-82 | setting a filter keeps a sub-list of the wider result |
| `SessionList.ListSumConcat` | src/components/SessionList.jsx:23-25 | the sum distributes over concatenation |
| `SessionList.NonFiniteIgnored` | src/components/SessionList.jsx:23-25 | a non-finite entry changes nothing, wherever it stands |
| `SessionList.TotalEntry` | src/components/SessionList.jsx:165 | a finite entry, 0 for a falsy total |
| `SessionList.Totals` | src/components/SessionList.jsx:165 | one entry per volley, in order |
| `SessionList.RowOf` | src/components/SessionList.jsx:165-174 | the volley count, the total, and an average that is a dash exactly without volleys |
| `SessionList.HalvesAddUp` | src/components/SessionList.jsx:165-169 | with at most 20 volleys the halves add up to the total |
| `SessionList.HalvesStopAtTwenty` | src/components/SessionList.jsx:165-169 | volleys past the twentieth count in the total but in neither half |
| `SessionList.DeleteCall` | src/components/SessionList.jsx:31-37 | the id is handed on exactly when the user confirms |
| `SessionForm.DefaultsAreOffered` | src/components/SessionForm.jsx:3-17 | every default is one of the offered choices |
| `SessionForm.InitialState` | src/components/SessionForm.jsx:9-17 | each field is the stored value when truthy and the default otherwise; the date is the stored day, or today |
| `SessionForm.NumberOf` | src/components/SessionForm.jsx:37 | a number stays; a text trimmed of white space reads as its digits' value (a blank text 0), and any other text as NaN; null reads 0, undefined NaN |
| `SessionForm.PaddedDistances` | src/components/SessionForm.jsx:37 | " 18" and "18\n" read as 18 and a blank text as 0 |
| `SessionForm.OfferedDistancesRoundTrip` | src/components/SessionForm.jsx:37 | every offered distance survives the select's text and `Number` |
| `SessionForm.Submit` | src/components/SessionForm.jsx:19-50 | six fields overwritten, every other field of the stored session kept, and a new session given 20 fresh volleys |
| `SessionForm.FreshVolleysLoadAsEmptyCard` | src/components/SessionForm.jsx:41-47 | the fresh volleys load on the scoring screen as an empty scorecard |
| `SessionForm.EditKeepsScores` | src/components/SessionForm.jsx:30-38 | editing keeps the volleys, the id and the total |
| `SvgTarget.ScoreToColor` | src/components/SvgTargetInteractive.jsx:6-12 | the five colour bands at 9, 7, 5 and 3 |
| `SvgTarget.ColorsMatchButtons` | src/components/SvgTargetInteractive.jsx:6-12 | the face uses the scoring buttons' colours |
| `SvgTarget.AllRings` | src/components/SvgTargetInteractive.jsx:25-32 | ten rings: ring `i` scores `1 + i`, with radius `250 - 25 i` and its score's colour |
| `SvgTarget.Rings` | src/components/SvgTargetInteractive.jsx:25-32 | at most ten rings |
| `SvgTarget.RingsSuffix` | src/components/SvgTargetInteractive.jsx:25-32 | the kept rings are the table from the first score at least `minScore` |
| `SvgTarget.KeptSuffix` | src/components/SvgTargetInteractive.jsx:25-32 | in a table scored 1 to 10, filtering drops exactly the scores below `minScore` |
| `SvgTarget.RingTable` | src/components/SvgTargetInteractive.jsx:21-32 | ten rings on a single face and 6 to 10 on a trispot face; scores rise and radii shrink |
| `SvgTarget.CentreDistance` | src/components/SvgTargetInteractive.jsx:58-60 | the distance of the tap from the centre |
| `SvgTarget.IsXIffSquares` | src/components/SvgTargetInteractive.jsx:58-61 | an X exactly within 12.5 of the centre |
| `SvgTarget.XInsideTen` | src/components/SvgTargetInteractive.jsx:21-61 | the X zone lies inside the 10 ring |
| `SvgTarget.HitFor` | src/components/SvgTargetInteractive.jsx:65-70 | the ring's score, the X test, and the coordinates divided by the face size |
| `SvgTarget.DrawPoint` | src/components/SvgTargetInteractive.jsx:122-123 | the stored coordinates times 500 |
| `SvgTarget.DrawnHits` | src/components/SvgTargetInteractive.jsx:117-123 | one point per drawable hit, in order: the k-th point is the k-th drawable hit scaled by 500 on each axis |
| `SvgTarget.TapDrawnWhereTapped` | src/components/SvgTargetInteractive.jsx:65-123 | a tap, once stored by the scoring screen, is drawn where it was tapped |
| `SvgTarget.DrawnSingle` | src/components/SvgTargetInteractive.jsx:117-142 | one drawable hit is drawn once, at its point |
| `SvgTarget.UndrawableSkipped` | src/components/SvgTargetInteractive.jsx:118 | the X button's marker and empty slots are never drawn |
| `SvgTarget.TargetFace.constructor` | src/components/SvgTargetInteractive.jsx:17-19 | the face's fixed props, no lens, nothing emitted |
| `SvgTarget.TargetFace.PointerDown` | src/components/SvgTargetInteractive.jsx:48-73 | nothing when read-only, unarmed or off the face; otherwise the lens at the tap and one hit emitted |
| `SvgTarget.TargetFace.PointerMove` | src/components/SvgTargetInteractive.jsx:75-80 | the lens follows the touch only while it is shown |
| `SvgTarget.TargetFace.HideLens` | src/components/SvgTargetInteractive.jsx:72 | the timer hides the lens and emits nothing |
| `SvgTarget.FaceHits` | src/components/SvgTargetInteractive.jsx:210 | the face's own hit when truthy, else nothing |
| `SvgTarget.Faces` | src/components/SvgTargetInteractive.jsx:173-219 | one full face with every hit, or three faces of rings 6 to 10 each with its own slot's hit |
| `SvgTarget.TrispotFaceDrawsOwnHit` | src/components/SvgTargetInteractive.jsx:194-217 | a trispot face draws at most its own arrow's hit, and draws it when it has coordinates |
| `App.GuardedView` | src/App.jsx:101-117 | unknown views, a scorecard without a session and statistics without a selection all become the list; everything else is kept |
| `App.GuardSettles` | src/App.jsx:101-117 | the guard changes exactly the unsettled states, and leaves a settled one |
| `App.SelectionLabel` | src/App.jsx:80-86 | none for an empty selection; "1 sessione" or "n sessioni" otherwise |
| `App.SelectionLabelNamesCount` | src/App.jsx:80-86 | the label's digits read back as the size of the selection |
| `App.Shell.constructor` | src/App.jsx:9-15 | the list view, no sessions, no session open, no error, no selection |
| `App.Shell.Guard` | src/App.jsx:101-117 | the view is the guarded view of the old state, an unknown view also closes the session, and nothing else changes |
| `App.Shell.OpenStatisticsFromList` | src/App.jsx:80-86 | the selection and its label are stored, back leads to the list, and the statistics show |
| `App.Shell.OpenStatisticsFromScore` | src/App.jsx:88-94 | nothing without a session; otherwise that session alone, with back leading to the scorecard |
| `App.Shell.GoHome` | src/App.jsx:96-99 | the list shows and the session is closed |
| `App.Shell.BackFromStatistics` | src/App.jsx:180 | the view becomes the stored back view |
| `App.Shell.ShowView` | src/App.jsx:131-183 | the "new" button and the back buttons show their view and change nothing else |
| `App.Shell.Refresh` | src/App.jsx:18-26 | the list is replaced and the error cleared, or the list is kept and the error shown |
| `App.Shell.CreateSession` | src/App.jsx:30-40 | on success the new session opens for scoring and the list reloads; on failure only the error changes |
| `App.Shell.OpenSession` | src/App.jsx:42-51 | the fetched session opens for scoring, or the error shows |
| `App.Shell.SaveSession` | src/App.jsx:53-68 | as creating, and the outcome, failure included, is handed back to the caller |
| `App.Shell.DeleteSession` | src/App.jsx:70-78 | the list reloads or the error shows; the view does not change |
| `App.StatisticsRoundTrip` | src/App.jsx:88-183 | opening the statistics from the scorecard and going back returns to the same session's scorecard |
| `ExportMetrics.Finite` | src/utils/exportExcel.js:50-53 | no more numbers than entries |
| `ExportMetrics.FiniteMembership` | src/utils/exportExcel.js:50-53 | the finite numbers are exactly the values of the finite entries |
| `ExportMetrics.Average` | src/utils/exportExcel.js:50-53 | the mean of the finite entries, and 0 when there are none |
| `ExportMetrics.AverageIgnoresNonFinite` | src/utils/exportExcel.js:50-53 | a non-finite entry changes nothing, wherever it stands |
| `ExportMetrics.AverageWithinScores` | src/utils/exportExcel.js:50-53 | scores between 0 and 10 average between 0 and 10 |
| `ExportMetrics.StdDev` | src/utils/exportExcel.js:55-62 | the population deviation of the finite entries, and 0 when there are none |
| `ExportMetrics.StdDevZero` | src/utils/exportExcel.js:55-62 | zero exactly when the finite entries are all equal |
| `ExportMetrics.StdDevAgainstStatistics` | src/utils/exportExcel.js:55-62 | one entry gives 0 where the statistics have no deviation; from two, both agree |
| `ExportMetrics.MappedArrow` | src/utils/exportExcel.js:76-79 | finite exactly unless the slot is null or undefined, with "X" as 10 |
| `ExportMetrics.MappedArrows` | src/utils/exportExcel.js:76-79 | one entry per arrow slot, mapped |
| `ExportMetrics.VolleyArrowsConcat` | src/utils/exportExcel.js:76-79 | the flat list of mapped arrows (`ExportMetrics.VolleyArrows`) splits along any split of the volleys |
| `ExportMetrics.ArrowCountOfShaped` | src/utils/exportExcel.js:76-79 | empty slots count as arrows: three per volley |
| `ExportMetrics.RawTotals` | src/utils/exportExcel.js:83-99 | one raw total per volley |
| `ExportMetrics.TotalScoreAgreesWithList` | src/utils/exportExcel.js:81 | the export's total is the total the session list shows |
| `ExportMetrics.TotalScoreConcat` | src/utils/exportExcel.js:81 | the total (`ExportMetrics.TotalScore`) adds up over any split of the volleys |
| `ExportMetrics.MetricsOf` | src/utils/exportExcel.js:76-99 | the arrow count, the total, the two averages and the deviation over those volleys |
| `ExportMetrics.NullSlotsCountedNotAveraged` | src/utils/exportExcel.js:76-99 | a 9 and two empty slots count three arrows but average 9 |
| `ExportMetrics.LegacyXAveragesAsTen` | src/utils/exportExcel.js:76-79 | a legacy "X" averages as 10 |
| `ExportMetrics.DateRange` | src/utils/exportExcel.js:85 | "from → to", each chosen (present, non-empty) date printed as itself and each missing or empty one as "—" |
| `ExportExcel.FilterCell` | src/utils/exportExcel.js:87-89 | "All" for the value "all", otherwise the value itself |
| `ExportExcel.DistanceCell` | src/utils/exportExcel.js:86 | "All", or the value followed by " m" |
| `ExportExcel.DistanceCellAllOnlyForAll` | src/utils/exportExcel.js:86 | the cell reads "All" exactly when no distance was chosen |
| `ExportExcel.SummaryOf` | src/utils/exportExcel.js:83-99 | the session and volley counts; the filters, among them the date range, the environment and the session type; and the metrics over every volley |
| `ExportExcel.SessionRowOf` | src/utils/exportExcel.js:109-146 | the session's name and its own metrics |
| `ExportExcel.SessionRows` | src/utils/exportExcel.js:109-146 | one row per session, in order |
| `ExportExcel.BuildSessionsSheet` | src/utils/exportExcel.js:109-146 | the loop builds one row per session, in order |
| `ExportExcel.SummaryAddsUpSessions` | src/utils/exportExcel.js:83-146 | the Summary's total and arrow count are the sums of the Sessions sheet's columns |
| `ExportExcel.ColumnsAddUp` | src/utils/exportExcel.js:83-146 | the totals and arrow counts over all volleys are the column sums |
| `ExportExcel.ArrowCell` | src/utils/exportExcel.js:195-199 | the arrow's value exactly when it exists and is finite, a dash otherwise |
| `ExportExcel.VolleyArrowAverage` | src/utils/exportExcel.js:195-199 | a dash exactly without a finite arrow; otherwise the total shared out over the finite arrows |
| `ExportExcel.VolleyRowOf` | src/utils/exportExcel.js:173-202 | numbered from 1, the total or 0, and the three arrow cells |
| `ExportExcel.SessionVolleyRows` | src/utils/exportExcel.js:173-202 | one row per volley, numbered in order |
| `ExportExcel.VolleyRowsCount` | src/utils/exportExcel.js:173-202 | one row per volley across all sessions |
| `ExportExcel.SessionVolleyRowsTotal` | src/utils/exportExcel.js:173-202 | a session's row totals add up to its total score |
| `ExportExcel.VolleyDetailsAddUp` | src/utils/exportExcel.js:83-202 | the Volley Details totals add up to the Summary's total score |
| `ExportExcel.BuildVolleySheet` | src/utils/exportExcel.js:173-202 | the nested loops build one row per volley, session after session |
| `ExportExcel.AddSessionRows` | src/utils/exportExcel.js:173-202 | the inner loop appends the session's rows |
| `ExportExcel.TrendRowMatchesSessionRow` | src/utils/exportExcel.js:225-241 | a trend row repeats the date and three metrics of its Sessions row |
| `ExportExcel.TrendRows` | src/utils/exportExcel.js:225-241 | one trend row per session, in order |
| `ExportExcel.BuildTrendSheet` | src/utils/exportExcel.js:225-241 | the loop builds one trend row per session, in order |
| `ExportExcel.ExportSessions` | src/utils/exportExcel.js:68-250 | nothing for an empty list; otherwise the four sheets, with one row per session in Sessions and Trend and one per volley in Volley Details |
| `ExportChartPdf.SortByDate` | src/utils/exportChartPdf.js:40-42 | the sorted copy has the same length |
| `ExportChartPdf.SortPermutes` | src/utils/exportChartPdf.js:40-42 | the copy is a permutation of the sessions |
| `ExportChartPdf.SortSorted` | src/utils/exportChartPdf.js:40-42 | with readable dates the copy is oldest first |
| `ExportChartPdf.SortSessions` | src/utils/exportChartPdf.js:40-42 | the in-place sort leaves the array as `ExportChartPdf.SortByDate` of its contents, the stable sort by date |
| `ExportChartPdf.InsertInPlace` | src/utils/exportChartPdf.js:40-42 | one pass inserts the element into the sorted prefix and leaves the rest alone |
| `ExportChartPdf.ShiftLater` | src/utils/exportChartPdf.js:40-42 | later sessions move one place right and the loop stops behind the first one not later |
| `ExportChartPdf.InsertAt` | src/utils/exportChartPdf.js:40-42 | the insertion lands behind the last session not later than it |
| `ExportChartPdf.BuildSeries` | src/utils/exportChartPdf.js:44-59 | four series as long as the list, each point that session's trend row |
| `ExportChartPdf.PointIsTrendRow` | src/utils/exportChartPdf.js:44-59 | each chart point is the spreadsheet's trend row for the same session |
| `ExportChartPdf.AllDistancePrintsLikeNone` | src/utils/exportChartPdf.js:147-151 | the filter value "all" prints like no filter, unlike the spreadsheet's "All" |
| `ExportChartPdf.FilterLine` | src/utils/exportChartPdf.js:147-151 | the date range, then distance and target, each independently: a chosen distance prints as itself followed by " m" and an absent or empty one as "all m"; a chosen target prints as itself and an absent or empty one as "all" |
| `ExportChartPdf.ExportChart` | src/utils/exportChartPdf.js:36-157 | nothing for an empty list; otherwise the series over the sorted copy and the filter line, the input array untouched |
| `ExportChartPdf.ChartOrder` | src/utils/exportChartPdf.js:40-42 | the copy holds the same sessions, oldest first when every date reads |
| `Text.KeepDigits` | src/utils/statistics/comparisons.js:20 | exactly the digits of the input, in order: the filter of the input by `IsDigit` |
| `Text.NatToString` | src/utils/statistics/comparisons.js:20 | a non-empty string of digits |
| `Text.DigitsValueOfNatToString` | src/utils/statistics/comparisons.js:20 | reading the rendering back gives the number |
| `Text.StripSpaces` | src/utils/statistics/comparisons.js:21-22 | no white space remains, and every other character of the input is kept, in order |
| `Text.TrimBounds` | src/components/SessionForm.jsx:37 | the cut points of `trim`: only white space lies before the first and after the second, and the kept text starts and ends with other characters |
| `Text.Trim` | src/components/SessionForm.jsx:37 | the input between the cut points, starting and ending with a character that is not white space |
| `Text.TrimOfTrimmed` | src/components/SessionForm.jsx:37 | a text without surrounding white space is its own trim |
| `Text.TrimKeepsText` | src/components/SessionForm.jsx:37 | every character that is not white space lies within the kept text |
| `Text.OrElse` | src/components/SessionForm.jsx:14-16 | the text when it is non-empty, the fallback when it is absent or empty (also the export's dash and the chart's "all") |
| `Text.Lower` | src/utils/statistics/comparisons.js:21-22 | the same length, each ASCII letter lower-cased and every other character kept |

## Left out

- The server calls in `src/lib/api.js` are not part of this model. Each handler of `App.Shell`
  receives the outcome of its call as a parameter. This leaves out the doubled "/api" prefix of
  `deleteSession`'s address (src/lib/api.js:1, 31-32).
- `SessionFilters.jsx` is not part of this model beyond the filter record it edits: it is form
  markup (src/components/SessionFilters.jsx:20-22).
- Rendering is left out: JSX, CSS, the loading guard, `console.log` calls and the "no data"
  placeholders (src/components/statistics/StatisticsScreen.jsx:47-57, 196-207, 276-289). Only
  the values the panels show are modelled.
- Timers are left out. The lens timer is a separate method, `SvgTarget.TargetFace.HideLens`.
  The auto-save effect (src/components/ScoringScreen.jsx:121-129) is not modelled: it only
  calls the server.
- The spreadsheet library, the template download and its ZIP signature check, the workbook
  writer and the `Blob` are left out, as are the sheets' cell formats
  (src/utils/exportExcel.js:6-44, 250-268). `ExportExcel.ExportSessions` returns the four
  sheets' contents.
- The chart library, the canvas, `requestAnimationFrame` and the PDF writer are left out
  (src/utils/exportChartPdf.js:64-157). `ExportChartPdf.ExportChart` returns the series and
  the filter line.
- Converting the touch position through the SVG transform is left out
  (src/components/SvgTargetInteractive.jsx:34-46). The handlers receive the position in the
  drawing's coordinates, or none when the conversion fails.
- Floating point is left out: every number is an exact real. Rounding for display (`toFixed`,
  `Math.round(x * 100) / 100`) is left out, and `Math.sqrt` is kept exact as a root.
- Date parsing and locale formatting are left out. A date is the instant it denotes, and the
  form's `toLocaleDateString` text is a parameter of `SessionForm.Submit`.
- The legacy "X" score is read as 10 throughout the statistics, as the scorecard and the
  exports count it. The source keeps it as the text "X": from that arrow on, `+` joins texts
  (src/components/statistics/StatisticsScreen.jsx:91, src/utils/statistics/aggregates.js:8, 45),
  and the text is then read back as a number. The per-session value as written is modelled
  beside the corrected one (see Findings).
- StatisticsScreen.ValueOf: scores the legacy "X" as 10, where the source passes the text "X" on
  to the sum.
- StatisticsScreen.SlotArrow: carries the score 10 for a legacy "X", where the source carries
  the text "X".
- StatisticsScreen.SessionAverage: the sum reads "X" as 10. As written, the sum turns into text
  at the first "X" (`StatisticsScreen.SessionAverageAsWritten`), and agrees with the model only
  for sessions without one (`StatisticsScreen.AsWrittenAgreesWithoutX`).
- StatisticsScreen.AveragePerSession: averages the corrected per-session values. The source's
  average of the as-written values is not modelled; a NaN or misread value among them spoils
  the whole average.
- Aggregates.ComputeSessionSummary: reads "X" as 10 in the total, the mean, the deviation and
  the ten count. As written, `"X" === 10` is false, so such an arrow is not a ten, and the
  total and the mean join texts as in the previous lines (`StatisticsScreen.MeanAsWritten`).
- SessionForm.NumberOf: a stored text distance is read after trimming as whole digits only.
  JavaScript's `Number` also reads a fraction ("18.0"), an exponent ("1e1"), a sign and the
  "0x", "0o" and "0b" prefixes, and "Infinity"; the model reads those texts as NaN, since a
  distance is a whole number (`DNum(n: nat)`). The form's own options never produce them.
- ExportExcel.VolleyArrowAverage: a stored total that is null or numeric text is read as
  `NonFinite`, so the model gives NaN where `v.total / valid.length`
  (src/utils/exportExcel.js:199) divides null as 0 and "27" as 27. The app itself only
  writes numeric totals.
- Text.Lower: lowers only the letters 'A' to 'Z'. JavaScript's `toLowerCase` also folds every
  other Unicode letter; the model keeps them unchanged.
- ExportChartPdf.SortSessions: the order is `SortByDate`, a stable insertion sort, for every
  input. When a date cannot be read, the source's comparator returns NaN and the order is up
  to the engine's sort (src/utils/exportChartPdf.js:42). `ExportChartPdf.ChartOrder` states
  what holds for any sort: the same sessions, and ascending dates when all are readable.
- ExportChartPdf.ExportChart: its series follow `SortByDate` also when a date cannot be read,
  a case in which the source's order is up to the engine, as in the previous line.
- `Scoring.Scorer.SetArrow`: the defensive reset of a missing volley, arrow array or hit array
  (src/components/ScoringScreen.jsx:219-225) is not modelled. The method requires the 20×3
  shape, which every load and every constructor establish, so those branches never run.
- `Scoring.Scorer.FinishEdit`: the awaited save is a parameter; only its effect on the
  scorecard is modelled.
- `Interpretation.InterpretCenterMean` is modelled, but its result
  (src/components/statistics/StatisticsScreen.jsx:239-241) is computed and never shown.
- `StatisticsScreen.HitPoints`: its contract bounds only the length. The resolution of each hit
  is stated by `StatisticsScreen.HitPrecedenceReversed` and
  `StatisticsScreen.SpotPointAgreesWithHitPoint`.
- `ExportExcel.TrendRowOf` has no contract of its own. `ExportExcel.TrendRowMatchesSessionRow`
  states what it holds.

## Findings

| source | as written | input that shows it | evidently intended | confidence | as-written member | corrected member |
|---|---|---|---|---|---|---|
| src/utils/statistics/interpretation.js:1-8 with src/components/statistics/StatisticsScreen.jsx:270 | the grouping rule reads `dispersion`, but the summary it is given only has `dispersionRadius`, so `undefined < 25` is false and the compact verdict never fires | two or more coincident hits (radius 0): "Rosata ampia ma regolare" instead of "Rosata molto compatta" | the radial dispersion feeds the compactness rule (`Interpretation.GroupingOf`) | high, not executed | `Interpretation.GroupingAsWiredNeverCompact` | `Interpretation.GroupingFinding` |
| src/utils/statistics/interpretation.js:22-27 with src/components/statistics/StatisticsScreen.jsx:244-257 | the spot filter reads `count` and `dispersion`, but the per-face summaries carry `arrowsCount` and `dispersionRadius`, so no spot qualifies and the trispot advice is always null | a trispot selection whose high and low faces have six hits or more each | the summaries' own fields are read (`Interpretation.SpotFieldsOf`), and two qualifying faces produce advice | high, not executed | `Interpretation.TrispotAsWiredNull` | `Interpretation.TrispotFinding` |
| src/components/statistics/StatisticsScreen.jsx:259-271 | because of the previous row, once any face has a summary the screen gives no advice at all, not even the grouping verdict | any trispot selection with a face of two hits or more | the trispot advice is shown when the faces qualify | high, not executed | `StatisticsScreen.InterpretationAsWiredSilentOnTrispot` | `StatisticsScreen.InterpretationOf` |
| src/components/statistics/StatisticsScreen.jsx:86-95 | the legacy score "X" is summed as text: `0 + "X"` is "0X", and later numbers are appended, so "0X910" is read as hexadecimal 2320, while "10X9" reads NaN; the summary's `mean` does the same | one volley scored "X", 9, 10: a per-session value of 2320 instead of 29 | "X" counts 10 as in the scorecard and the exports (`SessionModel.SumScores`) | medium, not executed | `StatisticsScreen.LegacyXFirstReadsAsHex` | `StatisticsScreen.SessionSumIsVolleyScores` |
| src/utils/statistics/interpretation.js:74-102 | the centred test is an absolute mean below `T` while the drift tests are `mean > T` and `mean < -T`, so a mean exactly at the threshold is neither centred nor drifting, and the label interpolates a null direction | meanX = 0.05, meanY = 0: the label "Deriva media null" | the drift tests are the complement of the centred test (`Interpretation.InterpretCenterMeanCorrected`), so every offset names a direction | medium, not executed | `Interpretation.CenterMeanBoundary` | `Interpretation.CenterMeanCorrectedHasDirection` |
