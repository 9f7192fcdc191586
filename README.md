# Coffee Concierge vibe scoring, modelled in Dafny

Coffee Concierge rates coffee shops on seven "vibes": Work-Friendly, Aesthetic,
Grab-and-Go, Date-Night, Dietary-Friendly, Study-Spot and Family-Friendly. A
shop record is a dictionary of ratings, flags, counts and opening hours. Each
vibe scorer normalizes the attributes it needs to strengths in [0, 1]. It
substitutes a default for missing values and blends the strengths with fixed
weights (`combine`). The blend is scaled by its coverage and rounded to one
decimal on a 0..100 scale. The scorer also gives a confidence label (High,
Medium, Low) and up to three "driver" phrases. `compute_all_vibes` runs all
seven scorers, `best_vibes` ranks them, and `narrative_one_liner` writes one
sentence about the winner.

The About Ratings page publishes the weight rubric of each vibe
(`VIBE_WEIGHTS`). It recomputes every attribute's strength for display
(`attr_strengths`) and turns weights and strengths into contribution rows. It
also shows how a change to the shop moves each attribute's contribution.

The modules:

- `values.dfy` (`Values`): a shop record is a map from keys to Python values:
  None, NaN, numbers, booleans, lists and dicts. `Or` models Python's `x or d`,
  `Nz` models `_nz`, and `Truthy` models Python truthiness.
- `normalizers.dfy` (`Normalizers`): `clamp` and the `norm_*` functions.
- `hours.dfy` (`Hours`): `norm_hours_late` and `norm_hours_early`. Each is a
  loop method proved equal to a recursive specification function over the
  days of the week.
- `combine.dfy` (`Combining`): `combine`, with blend and coverage laws.
- `vibes.dfy` (`Vibes`): `VibeResult`, `_conf`, one-decimal rounding and the
  seven scorers. Each scorer is a method that builds its driver list by
  appends. The method is proved equal to a specification function, and the
  lemmas are about that function.
- `orchestration.dfy` (`Orchestration`): `compute_all_vibes`, `best_vibes`
  (a stable descending sort, then a slice) and `narrative_one_liner`.
- `about_ratings.dfy` (`AboutRatings`): `VIBE_WEIGHTS`, `clamp01`,
  `norm_nearby`, `attr_strengths`, `contribution_df` and the what-if deltas.

Consequences of the code worth knowing:

- A shop with only a Wi-Fi rating has coverage 1.0. Every scorer
  substitutes defaults with `or`, so almost every part is present.
- A shop with no gluten-free food, no dairy-free milks and no nut-free
  choices scores 12.0. The labelling and cleanliness defaults still
  count.
- Every vibe's confidence is High. Coverage never drops below 0.88.
- A day whose opening and closing times are equal, and before 7:30, adds
  early hours but no span. `ZeroLengthDayCountsEarly` shows a week scored
  fully "early" from such a day.
- An overnight day (closing before opening) adds no late hours at all.

## Model

| member | source | states |
|---|---|---|
| Normalizers.Clamp | scoring.py:11 | the result lies in [0, 1]; values already in [0, 1] are unchanged; values below 0 give 0 and values above 1 give 1 |
| Normalizers.NormZeroFive | scoring.py:12-14 | None exactly for None/NaN; otherwise a strength in [0, 1], and on 0..5 it is exactly the rating over 5 |
| Normalizers.BoolNorm | scoring.py:15-17 | None exactly for None/NaN; otherwise 0 or 1, and a boolean maps to 1 when true and 0 when false |
| Normalizers.NormSeating | scoring.py:18 | None exactly for None/NaN; 0..40 seats give seats/40, and 40 or more give 1 |
| Normalizers.NormPriceIndex | scoring.py:19 | None exactly for None/NaN; a price index p in 1..4 gives (4 − p)/3, 1 or less gives 1, 4 or more gives 0 |
| Normalizers.NormNoiseInverse | scoring.py:40 | the quietness strength and the noise strength add up to 1 |
| Normalizers.NormMidNoiseBonus | scoring.py:41 | None exactly for None/NaN; a rating x in 0..5 gives 1 − abs(x − 2.5)/2.5, and the bonus is 1 exactly when the noise strength is 0.5 |
| Normalizers.NormDfMilks | scoring.py:42 | None exactly for None/NaN; 0..3 dairy-free milks give count/3, and 3 or more give 1 |
| Normalizers.NormZeroFiveMonotone | scoring.py:12-14 | a higher rating never gives a lower strength |
| Normalizers.NormSeatingMonotone | scoring.py:18 | more seats never give a lower strength |
| Normalizers.NormDfMilksMonotone | scoring.py:42 | more dairy-free milks never give a lower strength |
| Normalizers.NormPriceIndexAntitone | scoring.py:19 | a higher price index never gives a higher strength |
| Normalizers.MidNoiseBonusFallsOff | scoring.py:41 | the bonus rises up to a rating of 2.5 and falls after it |
| Combining.Combine | scoring.py:43-47 | blend and coverage are both in [0, 1]; (0, 0) when no weight is positive or no part is present |
| Combining.CombineDegenerate | scoring.py:45 | an empty list, or a single part of zero weight, gives (0, 0) |
| Combining.CoverageIsPresentShare | scoring.py:46 | with some part present, the coverage is exactly the present share of the weight and is positive |
| Combining.BlendBetweenPresentStrengths | scoring.py:44-47 | the blend lies between the smallest and the largest present strength |
| Combining.NonPositiveWeightIgnored | scoring.py:44 | inserting a part whose weight is 0 or less changes neither blend nor coverage |
| Combining.FullCoverage | scoring.py:46 | when every positively weighted part is present, the coverage is 1 |
| Combining.DropNeverIncreasesCoverage | scoring.py:44-46 | losing a present value never raises the coverage |
| Combining.PresentPartsAppend | scoring.py:44 | the present parts of a concatenation are the concatenation of the present parts |
| Combining.TotalWeightAppend | scoring.py:44 | the total positive weight is additive over concatenation |
| Combining.PresentWeightBounded | scoring.py:44-46 | the present weight never exceeds the total weight, so the coverage is at most 1 |
| Combining.MassAtLeast | scoring.py:46 | a lower bound on every present strength bounds the weighted mass from below |
| Combining.MassAtMost | scoring.py:46 | an upper bound on every present strength bounds the weighted mass from above |
| Combining.WeightsAsSums | scoring.py:44-46 | total and present weight are the sums of the positive declared weights and of the positive usable weights |
| Hours.NormHoursLate | scoring.py:20-29 | the loop computes the late share of the week; None exactly when there is no dict, an empty dict, or no measurable open span; otherwise a value in [0, 1] |
| Hours.NormHoursEarly | scoring.py:30-39 | the loop computes the early share of the week, with the same None cases and range |
| Hours.DaySpanWithinADay | scoring.py:27 | a day's span is between 0 and 24 hours and wraps past midnight when closing precedes opening |
| Hours.LateWithinSpan | scoring.py:27-28 | the late hours never exceed the open hours |
| Hours.EarlyWithinSpan | scoring.py:37-38 | for times within 0..24 and no day that opens and closes at the same time, the early hours never exceed the open hours |
| Hours.LateShareIsFraction | scoring.py:29 | the late share is exactly late hours over open hours |
| Hours.EarlyShareIsFraction | scoring.py:39 | under the same conditions, the early share is exactly early hours over open hours |
| Hours.OvernightDaysAddNoLateHours | scoring.py:28 | days that close before they open contribute no late hours |
| Hours.TotalsAppend | scoring.py:23-28 | span, late and early totals are additive over the days |
| Hours.SkippedEntryIgnored | scoring.py:24-26 | an entry that is not a two-element list with both ends set changes neither share |
| Hours.ZeroLengthDayCountsEarly | scoring.py:37-38 | a day opening and closing at 5:00 adds 2.5 early hours and no span, so a week can score fully early |
| Vibes.Conf | scoring.py:51 | High exactly at coverage 0.8 or more, Medium exactly on [0.5, 0.8), Low exactly below 0.5 |
| Vibes.ConfMonotone | scoring.py:51 | more coverage never gives a lower label |
| Vibes.Round1 | scoring.py:67 | the rounded value has one decimal and is within 0.05 of its input; one-decimal inputs are unchanged; [0, 100] stays in [0, 100] |
| Vibes.Round1Idempotent | scoring.py:67 | rounding twice is rounding once |
| Vibes.Round1Monotone | scoring.py:67 | rounding keeps order |
| Vibes.ScoreInRange | scoring.py:61-67 | every score is a one-decimal value in [0, 100], within 0.05 of 100 × blend × (0.9 + 0.1 × coverage); the label is the coverage band |
| Vibes.FinishInRange | scoring.py:61-67 | for any blend and coverage in [0, 1], the finished score is a one-decimal value in [0, 100] within 0.05 of 100 × blend × (0.9 + 0.1 × coverage), and keeps the coverage and its band |
| Vibes.DriversArePriorityPrefix | scoring.py:62-67 | the drivers are at most three, the first of the fired phrases in priority order, all of them when three or fewer fire, and only phrases whose cue holds |
| Vibes.FiredMembers | scoring.py:62-66 | a phrase is fired exactly when one of its cues holds |
| Vibes.FiredIsSubsequence | scoring.py:62-66 | the fired phrases keep the priority order of the cue list |
| Vibes.WorkFriendly | scoring.py:52-67 | the method, appending drivers one cue at a time, returns the Work-Friendly result |
| Vibes.Aesthetic | scoring.py:68-80 | the method returns the Aesthetic result |
| Vibes.GrabAndGo | scoring.py:81-93 | the method returns the Grab-and-Go result |
| Vibes.DateNight | scoring.py:94-106 | the method returns the Date-Night result |
| Vibes.DietaryFriendly | scoring.py:107-118 | the method returns the Dietary-Friendly result |
| Vibes.StudySpot | scoring.py:119-131 | the method returns the Study-Spot result |
| Vibes.FamilyFriendly | scoring.py:132-144 | the method returns the Family-Friendly result |
| Vibes.WorkAlwaysFullyCovered | scoring.py:53-61 | every Work-Friendly part has a default, so coverage is 1 and the label High |
| Vibes.AestheticAlwaysFullyCovered | scoring.py:69-75 | Aesthetic coverage is always 1 and the label High |
| Vibes.GrabAlwaysFullyCovered | scoring.py:82-88 | Grab-and-Go coverage is always 1 and the label High |
| Vibes.DietaryAlwaysFullyCovered | scoring.py:108-113 | Dietary-Friendly coverage is always 1 and the label High |
| Vibes.StudyAlwaysFullyCovered | scoring.py:120-126 | Study-Spot coverage is always 1 and the label High |
| Vibes.DateCoverage | scoring.py:99-101 | Date-Night coverage is 1 with a walkability value and 0.88 without; the label is High either way |
| Vibes.DatePartsCoverage | scoring.py:99-101 | only the walkability part (weight 0.12) can be missing from Date-Night |
| Vibes.FamilyCoverage | scoring.py:138-139 | Family-Friendly coverage is 1 with a parks value and 0.93 without; the label is High either way |
| Vibes.FamilyPartsCoverage | scoring.py:138-139 | only the parks part (weight 0.07) can be missing from Family-Friendly |
| Vibes.WorkOpenLateCrowdedOut | scoring.py:62-67 | "open late" is a driver exactly when the late share reaches 0.5 and not all of Wi-Fi, outlets and quietness fire |
| Vibes.SpeedNeedsNoClamp | scoring.py:84-87 | mobile order and drive-through are 0 or 1, the penalty is in [0, 1] (0.2 when missing), and the speed is 0.4 + 0.3m + 0.3d − 0.2p in [0.2, 1] |
| Vibes.ZeroWifiReadsAsMissing | scoring.py:53 | a Wi-Fi rating of 0 scores the same as no rating, because `or` replaces it with 0.6 |
| Vibes.DietaryWithoutOptionsScoresTwelve | scoring.py:107-118 | a shop with no dietary options and nothing else known scores 12.0 with coverage 1, label High and no drivers |
| Orchestration.ProximityNorm | scoring.py:147-149 | None exactly when no count is given; otherwise a value in [0, 1] that is the count over 5, saturating at 5 |
| Orchestration.AllVibesNamed | scoring.py:150 | the results carry the seven vibe names, in order |
| Orchestration.ProximityReachesOnlyDateAndFamily | scoring.py:146-150 | the walkables count affects only Date-Night and the parks count only Family-Friendly |
| Orchestration.EveryVibeHighConfidence | scoring.py:146-150 | every result of a shop is labelled High |
| Orchestration.WalkCountCoversDateNight | scoring.py:148-150 | a given walkables count makes Date-Night fully covered; without one and without a record value it is 0.88 |
| Orchestration.SortDescSortedPermutation | scoring.py:151 | the sort gives a descending permutation of the results |
| Orchestration.InsertSortedPermutation | scoring.py:151 | inserting into a sorted list keeps it sorted and adds exactly that entry |
| Orchestration.SortedHeadIsFirstBest | scoring.py:151 | the stable sort puts first the earliest of the top-scoring entries |
| Orchestration.FirstBestIsMaximum | scoring.py:151 | the chosen winner is among the results and no result scores more |
| Orchestration.FirstBestIsFirstMaximum | scoring.py:151 | ties go to the entry that comes first |
| Orchestration.BestVibesSpec | scoring.py:151 | the top-k list is sorted descending, drawn from the results, of length min(k, n) for k ≥ 0, all the results when k = n, starts with the first top scorer, and nothing left out scores more than anything kept |
| Orchestration.BestVibesKeepsHighest | scoring.py:151 | every entry left out of the top-k list scores at most every entry kept |
| Orchestration.SortDescStable | scoring.py:151 | the sort is stable: for every score, the entries with that score come out in their input order |
| Orchestration.BestVibesKeepsTieOrder | scoring.py:151 | among entries of one score, the top-k list keeps the earliest ones of the results, in order |
| Orchestration.NatToStringReadsBack | scoring.py:156 | the printed walk minutes are decimal digits with no leading zero that read back as the number |
| Orchestration.JoinEndsWithLast | scoring.py:154-158 | a joined string ends with its last part |
| Orchestration.NarrativeOneLiner | scoring.py:152-158 | the method, appending sentences one by one, returns the specified narrative |
| Orchestration.NarrativeShape | scoring.py:152-158 | the narrative opens with the headline about the first top vibe and ends with its confidence sentence; the walk and late sentences appear exactly when wanted, the walk sentence second and `Open late <days>.` just before the confidence sentence |
| Orchestration.WalkSentenceNamesAtMostTwo | scoring.py:156 | the walk sentence names at most the first two places, and two when two or more are given |
| AboutRatings.RubricsAreDistributions | pages/3_About_Ratings.py:20-77 | the rubric has exactly the seven vibe names in engine order; every vibe's weights have distinct labels, are positive, are whole tenths of a percent, and sum to 1 |
| AboutRatings.WorkRubricIsDistribution | pages/3_About_Ratings.py:21-30 | the Work-Friendly weights are a distribution |
| AboutRatings.AestheticRubricIsDistribution | pages/3_About_Ratings.py:31-38 | the Aesthetic weights are a distribution |
| AboutRatings.GrabRubricIsDistribution | pages/3_About_Ratings.py:39-45 | the Grab-and-Go weights are a distribution |
| AboutRatings.DateRubricIsDistribution | pages/3_About_Ratings.py:46-53 | the Date-Night weights are a distribution |
| AboutRatings.DietaryRubricIsDistribution | pages/3_About_Ratings.py:54-60 | the Dietary-Friendly weights are a distribution |
| AboutRatings.StudyRubricIsDistribution | pages/3_About_Ratings.py:61-68 | the Study-Spot weights are a distribution |
| AboutRatings.FamilyRubricIsDistribution | pages/3_About_Ratings.py:69-76 | the Family-Friendly weights are a distribution |
| AboutRatings.LookupFound | pages/3_About_Ratings.py:383 | a rubric found by name is an entry of the rubric table |
| AboutRatings.NormNearby | pages/3_About_Ratings.py:97-101 | None exactly when there is no count or the cap is 0; otherwise in [0, 1] and 1 from the cap upward |
| AboutRatings.NormNearbyAgreesWithEngine | pages/3_About_Ratings.py:97-101 | with the default cap of 5 the page normalizes counts exactly as the engine does |
| AboutRatings.Shown | pages/3_About_Ratings.py:176 | every displayed strength is in [0, 1]; a missing one shows as 0; one already in range is shown unchanged |
| AboutRatings.AttrStrengths | pages/3_About_Ratings.py:103-176 | every displayed strength is in [0, 1] |
| AboutRatings.StrengthsFollowRubric | pages/3_About_Ratings.py:103-176 | a known vibe's strengths carry exactly its rubric labels in rubric order; an unknown vibe gives none |
| AboutRatings.WorkStrengthsMirrorScorer | pages/3_About_Ratings.py:106-115 | the page's Work-Friendly strengths equal the engine's parts, except open-late, which differs exactly for a dict of hours with no measurable span (0 instead of 0.4) |
| AboutRatings.AestheticStrengthsMirrorScorer | pages/3_About_Ratings.py:117-124 | the page's Aesthetic strengths equal the engine's parts |
| AboutRatings.GrabStrengthsMirrorScorer | pages/3_About_Ratings.py:126-136 | Grab-and-Go strengths equal the engine's parts except speed, which agrees exactly when the engine's peak penalty is 0.2, and opens-early, which differs exactly for a dict with no measurable span |
| AboutRatings.DateStrengthsMirrorScorer | pages/3_About_Ratings.py:138-148 | Date-Night dessert, aesthetic and cleanliness equal the engine's; walkability agrees when present and shows 0 when missing; ambience agrees when all three ingredients are non-zero; open-late differs exactly as for Work-Friendly |
| AboutRatings.DietaryStrengthsMirrorScorer | pages/3_About_Ratings.py:150-156 | with the dairy-free row corrected, the page's Dietary-Friendly strengths equal the engine's parts; the dairy-free row as written equals the engine's exactly when `df_milks` is not NaN |
| AboutRatings.StudyStrengthsMirrorScorer | pages/3_About_Ratings.py:158-165 | Study-Spot strengths equal the engine's parts except open-late, which differs exactly as for Work-Friendly |
| AboutRatings.FamilyStrengthsMirrorScorer | pages/3_About_Ratings.py:167-175 | Family-Friendly strengths equal the engine's parts; parks agree when present and show 0 when missing |
| AboutRatings.FixedBlend | pages/3_About_Ratings.py:139-141 | with all three ingredients present, the engine's ambience blend is the page's fixed 0.35/0.35/0.30 mix |
| AboutRatings.HoursShownValues | pages/3_About_Ratings.py:113 | in the open-late and opens-early rows (also lines 134, 145 and 164), hours that are not a dict show 0.4; a dict with no measurable span shows 0; otherwise the share is shown |
| AboutRatings.FixedPenaltySpeed | pages/3_About_Ratings.py:127-130 | the page's speed always uses the penalty 0.2: 0.36 + 0.3m + 0.3d, in [0.36, 0.96] |
| AboutRatings.AmbienceShownRange | pages/3_About_Ratings.py:139-141 | the page's ambience is in [0, 1] and is 0.5 when none of its ingredients is known |
| AboutRatings.AmbienceShownAgrees | pages/3_About_Ratings.py:139-141 | when lighting, seating comfort and the mid-noise bonus are all present and non-zero, the page's ambience equals the engine's |
| AboutRatings.LateShownAgrees | pages/3_About_Ratings.py:113 | the page's open-late value equals the engine's exactly when the hours are not a dict with no measurable week |
| AboutRatings.DairyShownAsWritten | pages/3_About_Ratings.py:153 | the dairy-free strength as written: in [0, 1], and a NaN count shows as 1 |
| AboutRatings.MissingMilksShownAsFull | pages/3_About_Ratings.py:153 | for a shop whose dairy-free count is NaN the page as written shows 1 while the engine uses 0; the corrected page agrees with the engine |
| AboutRatings.DairyShown | pages/3_About_Ratings.py:153 | the corrected dairy-free strength is the engine's `norm_df_milks(...) or 0.0` |
| AboutRatings.DairyAsWrittenDiffersOnlyOnNaN | pages/3_About_Ratings.py:153 | the as-written and corrected dairy-free strengths differ exactly on a NaN count, 1.0 against 0.0 |
| AboutRatings.RowContribution | pages/3_About_Ratings.py:181-184 | a row keeps the weight as a percentage, and its contribution is the weight times the rounded strength percentage, between 0 and the weight percentage |
| AboutRatings.ContributionRows | pages/3_About_Ratings.py:178-185 | every row of the table contributes its share, in rubric order |
| AboutRatings.ContributionTotal | pages/3_About_Ratings.py:178-185 | the contributions add up to between 0 and 100 × the sum of the weights |
| AboutRatings.PublishedContributionsAtMostHundred | pages/3_About_Ratings.py:178-185 | for any published rubric the contributions add up to between 0 and 100 |
| AboutRatings.LookupInTable | pages/3_About_Ratings.py:182 | a strength looked up with default 0 is in [0, 1] |
| AboutRatings.ImpactFollowsStrength | pages/3_About_Ratings.py:387-394 | each row's strength change is new minus base; its contribution change has the sign of the strength change, is 0 when nothing changed, and is within 0.05 of the weighted change on a percentage scale |
| AboutRatings.RoundedScaledChange | pages/3_About_Ratings.py:394 | rounding the weighted change to one decimal keeps its sign |

## Left out

- The Streamlit pages, charts, tables and widgets: these are presentation, not the scoring logic.
- Reading the shop CSV and parsing the hours JSON: records arrive already parsed.
- `haversine` and `count_nearby`: these are floating-point geometry. The proximity counts enter the model as parameters.
- `places.py` and the Places API: these are network I/O.
- Binary floating point: numbers are exact reals. `round(x, 1)` is modelled as round-half-even on the exact value, so results that depend on binary representation are not captured.
- Python exceptions from `float()` on lists, dicts or strings: each scorer's `…Inputs` predicate requires scalar inputs.
- Hours whose endpoints are NaN, strings or other non-numbers: `WellFormedHours` requires numeric endpoints. Endpoints that are None are modelled and skipped, as in the source.
- `Hours.EarlyWithinSpan`: this lemma and `Hours.EarlyShareIsFraction` assume times within 0..24 and no day that opens and closes at the same time. A zero-length day before 7:30 adds early hours beyond the span (see `Hours.ZeroLengthDayCountsEarly`).
- pandas DataFrames: the contribution and what-if tables are sequences of rows. The `sort_values` ordering of the what-if table (pages/3_About_Ratings.py:395) is not modelled.
- `AboutRatings.NormNearby`: only the `None` count and a zero cap are modelled as failures. Other values that make `float()` raise do not arise, because counts are numbers here.
- `AboutRatings.AttrStrengths`: the mirror lemmas relate it to the engine's parts. The score and drivers the page recomputes through the engine (`compute_all_vibes`) are the engine's own and are modelled in `Orchestration`.
- The page's `clamp01` on a NaN dairy-free count is modelled only in `AboutRatings.DairyShownAsWritten`. Every other input reaching `clamp01` is a number here.
- `AboutRatings.AttrStrengths`: its Dietary-Friendly "Dairy-free milks" row is the corrected value `AboutRatings.DairyShown`, so for a NaN `df_milks` it gives 0.0 where the page as written shows 1.0 (see Findings).
- `AboutRatings.DietaryStrengthsMirrorScorer`: full agreement with the engine is stated for the corrected dairy-free row; for the row as written it states agreement exactly when `df_milks` is not NaN.

## Findings

| source | as written | input that shows it | evidently intended | confidence | as-written member | corrected member |
|---|---|---|---|---|---|---|
| pages/3_About_Ratings.py:153 | a missing (NaN) dairy-free milk count goes to `clamp01(float(nan)/3)`; Python's `min`/`max` keep their first argument against NaN, so the page shows full strength 1.0 | a shop record whose `df_milks` cell is NaN | 0.0, as the engine's `norm_df_milks(...) or 0.0` gives; the helper's docstring says it mirrors the engine's transforms | medium, not executed | AboutRatings.MissingMilksShownAsFull | AboutRatings.DairyShown |
