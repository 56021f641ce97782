# CarbonLens core, modelled in Dafny

CarbonLens estimates a household's monthly carbon footprint and scores it. This
project models the deterministic core of the application:

- **Analyser page** (`Analyzer`, `analyze_footprint.dfy`):
  - the local footprint calculation: per-activity breakdown, category totals, banded sub-scores, the first-match profile adjustment, the final clamp and the six-point trend;
  - the custom-profile questionnaire (a five-step state machine) and `process_custom_profile`;
  - the four demo profiles and the score ranges the page displays for them;
  - the page's session state as a class: profile selection, the computation request and the stored result.
- **What-if simulator page** (`Simulation`, `simulation_scenarios.dfy`):
  - recovering activity numbers from a stored analyser result;
  - the per-category percentage reductions and the estimated score;
  - the three scenario presets and the "Apply" buttons that set the six sliders.
- **AI recommendations page** (`Recommendations`, `ai_recommendations.dfy`):
  - totals recomputed from a custom profile and the highest-impact category;
  - normalisation of the recommender's records into cards, with the two fallback cards;
  - de-duplication by normalised title, prioritisation of the highest category, and the badge style.
- **Backend recommender service** (`Recommender`, `recommender.py` → `recommender.dfy`):
  - totals extraction from a request and the highest category with its tie rule;
  - the three fallback tips and the normalisation of the language model's list;
  - when the fallback is used;
  - the chat message list and the reply when the model is unavailable.
- **Leaderboard routes** (`Leaderboard`, `leaderboard.dfy`):
  - tiers and experience points;
  - the all-time and monthly boards;
  - a user's rank.
- **Shared vocabulary** (`Common`, `common.dfy`):
  - `Option`/`Result`, a JSON value type and the emission factors;
  - the Python built-ins the core depends on: `dict.get`, `x or y`, `int()` truncation, `max` with a key keeping the first maximum, `str.strip`, `str.lower` on ASCII, substring `in`, and `str()` of integers.

Emissions are exact reals, and the model does not round (see "Left out" for where
the code's rounding would change a later result). Streamlit session
variables become fields of the classes `Analyzer.AnalyzerSession` and
`Simulation.SimulatorSession`. The backend, the language model and JSON extraction
become parameters or datatypes describing what they returned. Python's conversion of
strings to numbers (`float(s)`, `int(s)`) is a function parameter that returns
`None` where Python raises.

Behaviour of the code worth noting:

- An empty form in the analyser meets the second ("Student") adjustment, because electricity 0 ≤ 200 and car 0 ≤ 100, and it scores 90 (`Analyzer.EmptyFormFootprint`).
- The recommendations page converts food to a monthly figure when the value is non-zero and below 1000. The condition is `food_value and food_value < 1000`, so negative values are converted too.
- Selecting the "Student Hostel" demo profile meets the Eco bonus, so it scores 95. The page displays an expected range of 75-85 for it (`Analyzer.StudentHostelOutsideExpectedRange`).

## Model

| member | source | states |
|---|---|---|
| Common.GetOr | app/pages/1_Analyze_Footprint.py:285 | `d.get(k, default)`: the stored value when the key is present, the default otherwise |
| Common.NonZeroOr | backend/services/recommender.py:104 | `d.get(k) or fallback`: the stored value when present and non-zero, otherwise the fallback |
| Common.FieldOr | backend/services/recommender.py:195 | `item.get(k, default)` on a JSON object: the stored value when the key is present, the default exactly when it is absent |
| Common.Or | backend/services/recommender.py:197 | `a or b`: a when truthy, b otherwise |
| Common.Trunc | backend/api/routes_leaderboard.py:21 | `int()` of a real truncates toward zero: floor for non-negative values, ceiling for negative ones |
| Common.TruncMonotone | backend/api/routes_leaderboard.py:21 | `int()` never decreases as its argument grows |
| Common.FlooredImpact | backend/services/recommender.py:24 | `max(lo, int(x * rate))` is at least lo, and for a non-negative product is lo or at most the product |
| Common.FirstMaxIndex | backend/services/recommender.py:113-121 | `max` with a key picks an element no smaller than any other and strictly larger than every earlier one |
| Common.FirstMaxIndexUnique | backend/services/recommender.py:113-121 | those two properties determine the chosen index uniquely |
| Common.Strip | app/pages/2_AI_Recommendations.py:409 | `strip()` returns the slice of the string left after removing leading and trailing whitespace: every character outside the slice is whitespace and the slice neither starts nor ends with it |
| Common.StripIdempotent | app/pages/2_AI_Recommendations.py:409 | stripping twice is stripping once |
| Common.Lower | app/pages/2_AI_Recommendations.py:409 | `lower()` keeps the length and leaves no upper-case ASCII letter |
| Common.LowerIdempotent | app/pages/2_AI_Recommendations.py:409 | lowering twice is lowering once |
| Common.ContainsIffOccurs | app/pages/2_AI_Recommendations.py:416 | substring `in` holds exactly when the needle occurs at some position |
| Common.NatToString | backend/services/recommender.py:195 | `str(n)` of a natural is a non-empty string of decimal digits with no leading zero |
| Common.NatToStringRoundTrip | backend/services/recommender.py:195 | reading the digits of `str(n)` back gives n |
| Common.NatToStringInjective | backend/services/recommender.py:195 | different naturals print differently |
| Common.IntToString | backend/api/routes_leaderboard.py:61 | `str(i)` is the digits of the magnitude, preceded by "-" exactly for negatives |
| Common.IntToStringInjective | backend/api/routes_leaderboard.py:61 | different integers print differently |
| Analyzer.ComputeBreakdown | app/pages/1_Analyze_Footprint.py:279-290 | non-negative inputs give non-negative emissions; missing food counts as 3.5 kg/day, i.e. 105 kg/month |
| Analyzer.BreakdownLinear | app/pages/1_Analyze_Footprint.py:285-290 | scaling one activity by c scales exactly its own breakdown field by c and leaves the other five unchanged |
| Analyzer.ComputeTotals | app/pages/1_Analyze_Footprint.py:293-300 | total is exactly energy + travel + food + goods; energy = electricity + gas, travel = car + bus |
| Analyzer.BandPoints | app/pages/1_Analyze_Footprint.py:307-316 | a sub-score is one of 5, 10, 15, 20, 25, and 25 exactly at or below the first threshold |
| Analyzer.BandPointsMonotone | app/pages/1_Analyze_Footprint.py:305-353 | more emissions in a category never raise its sub-score |
| Analyzer.RawScore | app/pages/1_Analyze_Footprint.py:355-356 | the sum of sub-scores is a multiple of 5 in [20, 100], and 100 exactly when every category is in its best band |
| Analyzer.RawScoreIgnoresBus | app/pages/1_Analyze_Footprint.py:318-329 | bus emissions never affect the score |
| Analyzer.RawScoreMonotone | app/pages/1_Analyze_Footprint.py:305-356 | more energy, car, food or goods emissions never raise the raw score |
| Analyzer.SelectAdjustment | app/pages/1_Analyze_Footprint.py:358-375 | first match wins: Eco exactly for Eco profiles, Student only when not Eco, travel penalty only when neither |
| Analyzer.Adjust | app/pages/1_Analyze_Footprint.py:365-375 | Eco gives min(95, s + 15), Student min(90, s + 10), the penalty max(30, s − 10), no adjustment s: each result is bounded by both arguments and equal to one of them; multiples of 5 are kept |
| Analyzer.Clamp | app/pages/1_Analyze_Footprint.py:378 | the result lies in [lo, hi]: the input when it is in range, lo below it, hi above it |
| Analyzer.GreenScore | app/pages/1_Analyze_Footprint.py:355-378 | the final score is a multiple of 5 in [10, 95] |
| Analyzer.GreenScoreByAdjustment | app/pages/1_Analyze_Footprint.py:358-378 | the final score for each adjustment branch in terms of the raw score |
| Analyzer.BonusNeverLowersScore | app/pages/1_Analyze_Footprint.py:359-365 | with the Eco bonus or no adjustment, the score is at least min(95, raw) |
| Analyzer.StudentBonusCanLowerScore | app/pages/1_Analyze_Footprint.py:367-370 | a form with raw score 95 that meets the Student rule ends at 90: the capped "bonus" lowers it |
| Analyzer.Trend | app/pages/1_Analyze_Footprint.py:398-405 | six labelled points at the fixed multipliers; the third equals the total; rising through May for a non-negative total; June equals April |
| Analyzer.ImprovedLocalCompute | app/pages/1_Analyze_Footprint.py:276-408 | the result holds the form's breakdown, totals that are its exact sums, the form's green score (in [10, 95], a multiple of 5) and the six-point trend of its total; non-negative forms give a non-negative total |
| Analyzer.EmptyFormFootprint | app/pages/1_Analyze_Footprint.py:285-378 | the empty form totals 105 kg of food only, meets the Student rule and scores 90 |
| Analyzer.UrbanCommuterScore | app/pages/1_Analyze_Footprint.py:627-633 | Urban Commuter gets no adjustment and scores 60, inside 55-65 |
| Analyzer.FrequentFlyerScore | app/pages/1_Analyze_Footprint.py:643-649 | Frequent Flyer takes the travel penalty and scores 40, inside 35-45 |
| Analyzer.EcoWarriorScore | app/pages/1_Analyze_Footprint.py:651-657 | Eco Warrior takes the capped Eco bonus and scores 95, inside 85-95 |
| Analyzer.DemoScoresInRange | app/pages/1_Analyze_Footprint.py:626-659 | Urban Commuter scores 60, Frequent Flyer 40 and Eco Warrior 95, each inside its displayed range |
| Analyzer.StudentHostelOutsideExpectedRange | app/pages/1_Analyze_Footprint.py:807-812 | Student Hostel meets the Eco rule and scores 95, outside its displayed 75-85 |
| Analyzer.DietEmissions | app/pages/1_Analyze_Footprint.py:513-517 | every diet, known or not, maps to 1.5-4.5 kg/day |
| Analyzer.ProcessCustomProfile | app/pages/1_Analyze_Footprint.py:601-620 | every answered field is kept; unanswered electricity, gas, car, bus, food, goods, residents, flights and organic share become 300, 50, 0, 0, 3.5, 200, 2, 0 and 20, shopping frequency "Moderate"; the housing type is the answer when given and absent otherwise |
| Analyzer.ProfileAnswersRoundTrip | app/pages/1_Analyze_Footprint.py:601-620 | a processed profile read back as answers processes to itself |
| Analyzer.ProcessCustomProfileIdempotent | app/pages/1_Analyze_Footprint.py:601-620 | processing an already processed profile changes nothing |
| Analyzer.DefaultCustomProfileScore | app/pages/1_Analyze_Footprint.py:606-611 | `process_custom_profile` with no answers at all scores 75 (car and bus default to 0); the questionnaire itself never produces that input |
| Analyzer.UntouchedAnswersProcess | app/pages/1_Analyze_Footprint.py:452-537 | the answers an untouched questionnaire collects (each widget's starting value) process to electricity 300, gas 50, car 300, bus 50, food 3.5, goods 200, 2 residents, 2 flights, 20% organic, "Apartment/Condo" and "Minimalist" |
| Analyzer.UntouchedDietEmissions | app/pages/1_Analyze_Footprint.py:502-524 | the untouched diet, "Omnivore (balanced)", records 3.5 kg a day |
| Analyzer.UntouchedProfileScore | app/pages/1_Analyze_Footprint.py:276-378 | that profile scores 70: 15 + 20 + 15 + 20 points and no adjustment |
| Analyzer.UntouchedQuestionnaireScore | app/pages/1_Analyze_Footprint.py:452-620 | completing the questionnaire without touching a widget gives a score of 70 |
| Analyzer.ChooseResult | app/pages/1_Analyze_Footprint.py:944-957 | the backend's result is kept exactly when it exists and is not an Eco Warrior score under 50; otherwise the local computation; any profile other than Eco Warrior keeps an existing backend result |
| Analyzer.AnalyzerSession.constructor | app/pages/1_Analyze_Footprint.py:16-29 | every session key starts empty: no profile, no result, step 0, questionnaire hidden |
| Analyzer.AnalyzerSession.OpenQuestionnaire | app/pages/1_Analyze_Footprint.py:694-696 | the questionnaire is shown |
| Analyzer.AnalyzerSession.RecordAnswers | app/pages/1_Analyze_Footprint.py:455-462 | a step's answers are merged over the collected data |
| Analyzer.AnalyzerSession.Next | app/pages/1_Analyze_Footprint.py:587-590 | "Next" is offered exactly before the last step and advances by one; the step stays in 0..4 |
| Analyzer.AnalyzerSession.Previous | app/pages/1_Analyze_Footprint.py:581-584 | "Previous" is offered exactly after the first step and goes back by one |
| Analyzer.AnalyzerSession.Close | app/pages/1_Analyze_Footprint.py:575-578 | the questionnaire is hidden and rewound to step 0 |
| Analyzer.AnalyzerSession.Complete | app/pages/1_Analyze_Footprint.py:591-599 | offered exactly on the last step; stores the processed answers, selects "Custom", hides and rewinds |
| Analyzer.AnalyzerSession.SelectProfile | app/pages/1_Analyze_Footprint.py:685-691 | the demo profile and its data are selected, and the stored result and computation request are cleared |
| Analyzer.AnalyzerSession.RequestComputation | app/pages/1_Analyze_Footprint.py:775-777 | a computation is requested |
| Analyzer.AnalyzerSession.FormValues | app/pages/1_Analyze_Footprint.py:747-756 | the processed custom profile when "Custom" is selected and processed; otherwise the selected demo profile's values, or an empty form when none is selected |
| Analyzer.AnalyzerSession.RunComputation | app/pages/1_Analyze_Footprint.py:921-962 | only a requested run with the questionnaire hidden and a non-empty form acts: it stores ChooseResult's pick and clears the request; otherwise nothing changes |
| Simulation.Stored | app/pages/1_Analyze_Footprint.py:381-406 | the analyser's stored result carries no raw inputs, and its score |
| Simulation.ActivityInputs | app/pages/3_Simulation_Scenarios.py:175-185 | the six activity keys, taking each given value; a missing key gets 3.5 for food, the totals' goods for goods and 0 otherwise |
| Simulation.Invert | app/pages/3_Simulation_Scenarios.py:205-208 | the estimate times the factor gives back the emissions |
| Simulation.DeriveInputs | app/pages/3_Simulation_Scenarios.py:169-218 | raw inputs are used when present and non-empty; otherwise each estimate follows the `or` chain of breakdown keys and inverts its factor; food falls back to 3.5 |
| Simulation.DeriveInputsFactorFields | app/pages/3_Simulation_Scenarios.py:197-208 | for an analyser result, electricity, gas, car and bus estimates equal the form's numbers |
| Simulation.DeriveInputsFromForm | app/pages/3_Simulation_Scenarios.py:187-218 | for an analyser result with non-zero food, every estimate equals the form's number |
| Simulation.DeriveInputsRoundTrip | app/pages/3_Simulation_Scenarios.py:169-218 | deriving inputs from the analyser's own result recovers the form (non-zero food) |
| Simulation.InvertProduct | app/pages/3_Simulation_Scenarios.py:205-208 | dividing by the factor undoes multiplying by it |
| Simulation.ZeroFoodComesBackAsDefault | app/pages/3_Simulation_Scenarios.py:209 | a form with zero food comes back with 3.5 kg/day: the round trip is not exact there |
| Simulation.Before | app/pages/3_Simulation_Scenarios.py:238-249 | the "before" categories equal the analyser's totals for the same inputs |
| Simulation.Scale | app/pages/3_Simulation_Scenarios.py:252-255 | a factor in [0, 1] keeps a non-negative value between 0 and itself |
| Simulation.After | app/pages/3_Simulation_Scenarios.py:251-255 | all-zero percentages change nothing; valid percentages keep each category between 0 and its "before" value |
| Simulation.HalfCutAtMostHalf | app/pages/3_Simulation_Scenarios.py:252-254 | a renewables or waste slider removes at most half |
| Simulation.HalvingSlidersCutAtMostHalf | app/pages/3_Simulation_Scenarios.py:252-254 | energy and food keep at least half of what their main slider leaves |
| Simulation.BaselineScore | app/pages/3_Simulation_Scenarios.py:259-261 | a stored score is used as is; otherwise the heuristic 100 − total/6, clamped to [10, 95] |
| Simulation.Improvement | app/pages/3_Simulation_Scenarios.py:262 | 0 for a non-positive "before" total, in [0, 1] when the total did not grow |
| Simulation.Simulate | app/pages/3_Simulation_Scenarios.py:221-270 | before and after follow Before and After; the estimate lies in [0, 100] |
| Simulation.TotalAfter | app/pages/3_Simulation_Scenarios.py:256 | the total after is never negative and is the exact sum for non-negative categories |
| Simulation.NoChangeKeepsEverything | app/pages/3_Simulation_Scenarios.py:251-263 | with all sliders at 0, after equals before and the estimate is the clamped baseline |
| Simulation.EstimateAtLeastBaseline | app/pages/3_Simulation_Scenarios.py:258-263 | valid reductions never push the estimate below the clamped baseline nor more than 40 above it |
| Simulation.BaselineLookupAsWritten | app/pages/3_Simulation_Scenarios.py:259 | the lookup fails exactly when the session holds a stored None |
| Simulation.BaselineLookupFailsAfterProfileSelection | app/pages/1_Analyze_Footprint.py:687-690 | after a demo profile is selected, the lookup as written fails |
| Simulation.BaselineLookup | app/pages/3_Simulation_Scenarios.py:259-261 | agrees with the lookup as written wherever that succeeds, and gives no score for a stored None |
| Simulation.PageInputs | app/pages/3_Simulation_Scenarios.py:318-329 | the inputs behind the stored result, or the page's default household |
| Simulation.SimulatePage | app/pages/3_Simulation_Scenarios.py:312-329 | with the corrected lookup, the page estimates a score in [0, 100] whatever the session holds |
| Simulation.ScenariosValid | app/pages/3_Simulation_Scenarios.py:276-307 | every preset's percentages lie in [0, 100] |
| Simulation.SimulatorSession.constructor | app/pages/3_Simulation_Scenarios.py:332-337 | every slider starts at 0 |
| Simulation.SimulatorSession.ApplyScenario | app/pages/3_Simulation_Scenarios.py:389-396 | the six sliders take the preset's values and the preset is recorded as applied |
| Recommendations.CustomFoodKg | app/pages/2_AI_Recommendations.py:141-142 | a non-zero food value below 1000 is daily and multiplied by 30; any other value is kept |
| Recommendations.ComputeTotalsFromCustom | app/pages/2_AI_Recommendations.py:129-153 | the five totals from the analyser's factors, with total the exact sum |
| Recommendations.CustomTotalsAgreeWithAnalyzer | app/pages/2_AI_Recommendations.py:129-153 | for a food value in (0, 1000) these totals equal the analyser's |
| Recommendations.CustomTotalsMissingFood | app/pages/2_AI_Recommendations.py:141 | a missing food value counts 0 here but 105 kg in the analyser |
| Recommendations.PageTotals | app/pages/2_AI_Recommendations.py:264-273 | a "Custom" profile with a non-positive stored total uses the recomputed totals, otherwise the stored ones |
| Recommendations.BestPresent | app/pages/2_AI_Recommendations.py:276-277 | the first present category with the largest value among those present |
| Recommendations.HighestCategory | app/pages/2_AI_Recommendations.py:276-277 | None exactly when no category is present; otherwise a present category whose value none exceeds |
| Recommendations.HighestCategoryTieBreak | app/pages/2_AI_Recommendations.py:277 | among equal maxima the earliest of energy, travel, food, goods wins |
| Recommendations.ToFloat | app/pages/2_AI_Recommendations.py:357 | `float()` of a number is itself; of null, list or object it fails |
| Recommendations.PlanSteps | app/pages/2_AI_Recommendations.py:367-392 | every default plan has three steps |
| Recommendations.ChoosePlan | app/pages/2_AI_Recommendations.py:369-392 | the energy plan exactly when the lower-cased category or title mentions energy; travel when not energy and the category mentions travel or the title car; food next when the category mentions food; the generic plan otherwise |
| Recommendations.TitleOf | app/pages/2_AI_Recommendations.py:352 | the title is truthy: the first truthy of the record's title, text and area, else "Recommendation i+1" |
| Recommendations.CategoryOf | app/pages/2_AI_Recommendations.py:365 | the category is truthy: the record's category when truthy, else its area when truthy, else "General" |
| Recommendations.StepsOf | app/pages/2_AI_Recommendations.py:364-392 | a non-empty list of steps is kept; otherwise the chosen default plan; never empty |
| Recommendations.ImpactOf | app/pages/2_AI_Recommendations.py:355-359 | the first truthy of impact_kg_month, potential_savings and impact is converted and truncated, 0 when the conversion fails or no field is truthy; a truthy number is truncated |
| Recommendations.ConfidenceOf | app/pages/2_AI_Recommendations.py:360-363 | 0.75 when absent; a number is kept |
| Recommendations.NormalizeItem | app/pages/2_AI_Recommendations.py:348-401 | a card exactly when title and category are strings, with every field as the page computes it; title and category are non-empty and steps are never empty |
| Recommendations.NormalizeList | app/pages/2_AI_Recommendations.py:348-401 | no more cards than records, each with steps and a category |
| Recommendations.NormalizeListKeepsObjects | app/pages/2_AI_Recommendations.py:348-350 | exactly one card per object record |
| Recommendations.NormalizeListFailureSticks | app/pages/2_AI_Recommendations.py:348-401 | a record that fails fails the whole list |
| Recommendations.Normalize | app/pages/2_AI_Recommendations.py:342-401 | the loop computes NormalizeList |
| Recommendations.RawItems | app/pages/2_AI_Recommendations.py:341-348 | a list is iterated as is; a falsy answer or a string gives no records; a `tips` key and then a `recommendations` key are unwrapped; an object with neither gives no records; a truthy number or boolean, or a `tips` value that is null, a number or a boolean, raises |
| Recommendations.FallbackRecs | app/pages/2_AI_Recommendations.py:296-326 | two cards, Food then General, impacts max(10, ⌊food·0.12⌋) and max(8, ⌊energy·0.08⌋), confidences 0.75 and 0.80, three steps each |
| Recommendations.FallbackImpactsMonotone | app/pages/2_AI_Recommendations.py:303-316 | larger totals never lower the fallback impacts |
| Recommendations.RecList | app/pages/2_AI_Recommendations.py:339-404 | never empty; a failed request gives the fallback cards; otherwise it fails exactly when reading or normalising the records fails, and it is the normalised cards when there are any and the fallback cards when there are none |
| Recommendations.NoObjectsMeansFallback | app/pages/2_AI_Recommendations.py:402 | an answer without objects gives exactly the fallback cards |
| Recommendations.NoObjectsNormalizeEmpty | app/pages/2_AI_Recommendations.py:348-350 | records without objects normalise to no cards |
| Recommendations.Dedup | app/pages/2_AI_Recommendations.py:405-413 | no longer than its input, and every card kept comes from it |
| Recommendations.DedupeByTitle | app/pages/2_AI_Recommendations.py:405-413 | the loop with the seen-titles set computes Dedup by stripped, lower-cased title |
| Recommendations.DedupDistinctKeys | app/pages/2_AI_Recommendations.py:408-413 | no two kept cards share a normalised title |
| Recommendations.DedupKeepsEveryKey | app/pages/2_AI_Recommendations.py:408-413 | every normalised title of the input survives |
| Recommendations.DedupKeepsFirst | app/pages/2_AI_Recommendations.py:408-413 | the first card with a title is the one kept |
| Recommendations.DedupKeepsOrder | app/pages/2_AI_Recommendations.py:408-413 | the kept cards are a subsequence of the input |
| Recommendations.Matching | app/pages/2_AI_Recommendations.py:416 | exactly the cards whose lower-cased category contains the highest category |
| Recommendations.NotMatching | app/pages/2_AI_Recommendations.py:417 | exactly the cards that do not match |
| Recommendations.Prioritize | app/pages/2_AI_Recommendations.py:414-418 | without a highest category, the list is unchanged |
| Recommendations.NotInMatchingIsNotMatching | app/pages/2_AI_Recommendations.py:417 | "not in prioritized" selects the same cards as "does not match" |
| Recommendations.PartitionMultiset | app/pages/2_AI_Recommendations.py:415-418 | matching and non-matching cards together are the input, counted with multiplicity |
| Recommendations.PrioritizeIsStablePartition | app/pages/2_AI_Recommendations.py:415-418 | the result is the matching cards then the others, each in input order: a permutation |
| Recommendations.PrioritizedComeFirst | app/pages/2_AI_Recommendations.py:418 | no non-matching card precedes a matching one |
| Recommendations.PageRecommendations | app/pages/2_AI_Recommendations.py:328-419 | fails exactly when the card list does; otherwise never empty, a permutation of the de-duplicated cards, and exactly those cards prioritised by the totals' highest category |
| Recommendations.BadgeClass | app/pages/2_AI_Recommendations.py:426-434 | food before energy before travel/transport, otherwise general; an empty category counts as General |
| Recommendations.FoodBadge | app/pages/2_AI_Recommendations.py:428-429 | "Food" gets the food badge |
| Recommendations.GeneralBadge | app/pages/2_AI_Recommendations.py:426-434 | "General" gets the general badge |
| Recommendations.FallbackBadges | app/pages/2_AI_Recommendations.py:426-434 | the two fallback cards get the food and general badges |
| Recommender.TotalField | backend/services/recommender.py:104-108 | `p.get(k) or p.get(k + "_kg") or 0`: a non-zero k value, else the `_kg` value when present, else 0 |
| Recommender.ExtractTotals | backend/services/recommender.py:103-109 | each of the five totals is read that way |
| Recommender.ExtractTotalsRoundTrip | backend/services/recommender.py:103-109 | a request built from totals is read back as exactly those totals, zeros included |
| Recommender.ChatTotals | backend/services/recommender.py:216-222 | each chat total is `totals.get(k, 0)` |
| Recommender.Highest | backend/services/recommender.py:113-121 | a category whose total none exceeds and which is strictly above every earlier one |
| Recommender.HighestTies | backend/services/recommender.py:113-121 | energy wins every tie it is part of; goods wins exactly when strictly above the other three |
| Recommender.FallbackTips | backend/services/recommender.py:15-63 | three tips, Energy, Travel, Food, with impacts max(5, ⌊e·0.10⌋), max(3, ⌊t·0.15⌋), max(4, ⌊f·0.12⌋) and confidences 0.85, 0.75, 0.80 |
| Recommender.FallbackTipsQuoteTotals | backend/services/recommender.py:20-51 | each tip's text quotes its category's figure |
| Recommender.FallbackTipsImpactBounds | backend/services/recommender.py:24-54 | each impact is its floor or at most its share, and grows with its category |
| Recommender.ToInt | backend/services/recommender.py:197 | `int()` truncates numbers and fails on null, list and object |
| Recommender.ToReal | backend/services/recommender.py:198 | `float()` keeps numbers and fails on null, list and object |
| Recommender.NormalizeTip | backend/services/recommender.py:194-201 | raises exactly when a truthy impact does not convert with `int()` or a truthy confidence with `float()`; a truthy impact gives its conversion (a number truncated) and a falsy one 0; a truthy confidence gives its conversion (a number itself) and a falsy one 0.7; title, text and category are kept when present and otherwise become "Recommendation i+1", "" and "General"; steps are kept only when a list |
| Recommender.DefaultTitlesDistinct | backend/services/recommender.py:195 | untitled tips at different positions get different titles |
| Recommender.TipsFromCountsObjects | backend/services/recommender.py:190-201 | exactly one tip per object in the model's list |
| Recommender.TipsFromFailureSticks | backend/services/recommender.py:190-201 | an item that raises fails the whole list |
| Recommender.NormalizeTips | backend/services/recommender.py:189-201 | the loop computes the tip list or raises where it does |
| Recommender.GenerateTips | backend/services/recommender.py:102-206 | the answer is never an empty list; a failed call, a falsy or non-list parse gives the fallback tips; for a list it raises exactly when a tip raises, gives the fallback tips when no item became a tip, and the model's tips otherwise |
| Recommender.GenerateTipsUsesModelTips | backend/services/recommender.py:189-206 | a list with an object gives the model's own tips |
| Recommender.NoObjectsTipsEmpty | backend/services/recommender.py:189-192 | a list with no object yields no tips |
| Recommender.GenerateTipsNoObjectsFallback | backend/services/recommender.py:189-204 | a non-empty list with no object falls back to the three tips |
| Recommender.HistoryEntries | backend/services/recommender.py:214-258 | a list's entries are iterated in order |
| Recommender.BuildMessages | backend/services/recommender.py:256-269 | succeeds exactly when every entry has a role and a content; the system prompt first, each entry with its role mapped to user/assistant and its content unchanged, the question last |
| Recommender.ChatMessages | backend/services/recommender.py:256-269 | the whole message list is built exactly when the history is readable |
| Recommender.UnavailableReply | backend/services/recommender.py:285 | the reply names the highest category |
| Recommender.ChatResponse | backend/services/recommender.py:211-285 | an unreadable history raises; otherwise the model's content, or on failure a reply naming the highest category |
| Recommender.HistoryReadableCases | backend/services/recommender.py:214-262 | an empty list, string or object always reads; a list reads exactly when each entry has a role and a content; null, booleans and numbers never read |
| Leaderboard.TierLevel | backend/api/routes_leaderboard.py:12-17 | the tier thresholds 90, 75, 60, 45, each tier exactly for its score interval |
| Leaderboard.GetTier | backend/api/routes_leaderboard.py:12-17 | Diamond exactly from 90, Bronze exactly below 45, the tier named at the score's level |
| Leaderboard.GetTierMonotone | backend/api/routes_leaderboard.py:12-17 | a higher score never earns a lower tier |
| Leaderboard.ScoreToXp | backend/api/routes_leaderboard.py:20-21 | `int(12.5·score)`: the floor for non-negative scores and the ceiling for negative ones, i.e. truncation toward zero |
| Leaderboard.ScoreToXpFloorMonotone | backend/api/routes_leaderboard.py:20-21 | for non-negative scores the points are the floor and never fall as the score rises |
| Leaderboard.LeaderboardEntries | backend/api/routes_leaderboard.py:33-43 | one entry per row in order, with the row's fields and its tier and points |
| Leaderboard.EntriesOrdered | backend/api/routes_leaderboard.py:26-43 | on a board ordered by score, a later entry never has a higher tier or more points |
| Leaderboard.MonthlyName | backend/api/routes_leaderboard.py:61 | "User #id" for a set, non-zero id; "Anonymous" otherwise |
| Leaderboard.MonthlyNameDistinguishesUsers | backend/api/routes_leaderboard.py:61 | two names agree exactly when both runs are anonymous or share the user |
| Leaderboard.MonthlyEntries | backend/api/routes_leaderboard.py:58-67 | one entry per run in order, with the run's fields, name, tier and points |
| Leaderboard.FirstRowOf | backend/api/routes_leaderboard.py:79-80 | the first row of the user, or None exactly when the user has no row |
| Leaderboard.GetUserRank | backend/api/routes_leaderboard.py:79-88 | the 1-based position of the user's first row with its score, tier and points; no earlier row is the user's; no rank exactly when the user is absent |
| Leaderboard.FirstRowIsUnique | backend/api/routes_leaderboard.py:79-80 | a matching row with no earlier match is the first row of the user |
| Leaderboard.RankMatchesBoard | backend/api/routes_leaderboard.py:33-88 | the ranked row's board entry carries the rank's tier and points |

## Left out

- Rendering: Streamlit widgets, HTML/CSS strings, charts, toasts and `st.rerun` are presentation only. HTML escaping of card fields is also left out, because it happens while rendering.
- HTTP: the requests to the backend are left out. The backend's answer is a parameter (`RunComputation`'s `backend`, `RecoResponse`).
- Language model: the model call, its prompts and the extraction of JSON from its text are left out. Their outcome is a datatype (`LlmOutcome`, `ChatOutcome`). The system prompts are parameters.
- Persistence: the database queries, ordering, limits and the 30-day filter are left out. The boards start from rows already ordered and filtered.
- Randomness: the random suffixes of card ids are not modelled, and card ids are dropped.
- Rounding: `round(x, 1)` and `round(x, 2)` are not modelled; every value is exact.
- Simulation.Stored, Simulation.DeriveInputsFactorFields, Simulation.DeriveInputsFromForm, Simulation.DeriveInputsRoundTrip: the round trip from a form to the analyser's stored result and back is exact only because rounding is dropped. The analyser stores the breakdown and totals rounded to one decimal (app/pages/1_Analyze_Footprint.py:383-396), and the simulator divides those by the factors and rounds again (app/pages/3_Simulation_Scenarios.py:205-209). For example, 1 km by bus is 0.09 kg, stored as 0.1, and read back as 1.1 km.
- Recommendations.PageRecommendations: the page builds the cards once per session (app/pages/2_AI_Recommendations.py:328) and does not rebuild them when the totals change later; the model computes them from the given totals.
- Floating point: reals are exact, so 0.82, 5.3, 0.21 and 0.09 are exact rationals.
- Recommendations.NormalizeItem: a title or category that is not a string fails at normalisation. The page always raises for such a card too, but later: for a title at the de-duplication's `strip().lower()` (app/pages/2_AI_Recommendations.py:409), for a category at line 369 or 416, or at the latest in `badge_class` (line 427) when the card is rendered. The outcome is the same; only the point of failure differs.
- Recommendations.ToFloat, Recommender.ToInt, Recommender.ToReal: the reading of numeric strings is a parameter. Python's numeric-string grammar is not modelled.
- Recommendations.ImpactOf, Recommendations.ConfidenceOf: the `int(float(x))` and `float(x)` failures fall back to 0 and 0.75. A string that does not parse is covered only through the parser parameter.
- Common.Lower, Common.Strip: only ASCII case folding and the whitespace characters the model lists are covered. Unicode case mapping is not modelled.
- Simulation.DeriveInputs: the `isinstance(result, dict)` checks are not modelled, because the stored result is always a dictionary or nothing.
- Simulation: the "highest impact" KPI of the page is display only and is not modelled separately. It is the same first-maximum `max` over the four categories as `Recommender.Highest`.
- Leaderboard: `created_at` is an opaque integer, and the rows are records with a user id, a name and a score. The `Leaderboard` table declares no `user_id` column (backend/db/models.py:42-47), so `r.user_id` at backend/api/routes_leaderboard.py:35 and :80 raises as written on any non-empty board; the model assumes the column exists.
- Recommender: the `profile` field only feeds the prompts, so it is not modelled.

## Findings

| source | as written | input that shows it | evidently intended | confidence | as-written member | corrected member |
|---|---|---|---|---|---|---|
| app/pages/3_Simulation_Scenarios.py:259 | the baseline score is read from the session's `last_result` with a default `{}`. The default applies only when the key is missing, and the analyser stores `None` there on its first visit and whenever a demo profile is selected (app/pages/1_Analyze_Footprint.py:21, 689) | select "Urban Commuter" on the analyser, then open the simulator: `None.get("score")` raises | treat a stored `None` like a missing result and use the heuristic baseline, as the page already does for its inputs at lines 319-322 | not executed | Simulation.BaselineLookupAsWritten | Simulation.BaselineLookup |
