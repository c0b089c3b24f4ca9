# AI journey planner: a verified Dafny model

This project models `AIJourneyPlanner`, the planning core of a multimodal
journey planner (`src/utils/aiPlanner.ts`). The planner has five jobs:

- It produces four fixed candidate journeys, each a sequence of bus, metro,
  train, cab, bike or walk legs. The start and destination play no part.
- It ranks the candidates by one of four preferences: cheapest, fastest,
  most comfortable, or a weighted "balanced" score. Any other preference
  value leaves the candidates in their written order.
- It warns when a journey costs more than the user's budget and suggests
  a cheaper substitution.
- It learns from every booking: a per-user profile records the
  preferences, the modes taken, the number of trips and a running average
  of trip cost.
- It answers a recommendation query with the user's three most frequently
  taken modes and their average trip cost.

Modules:

- `Types` (types.dfy) holds the value types: modes, preferences, legs and
  journey options.
- `StableSort` (stable_sort.dfy) is a stable insertion sort on real-valued
  keys. It stands in for JavaScript's `Array.prototype.sort`, which is
  stable. The module proves the sort is ordered, is a permutation and is
  stable, and that these three properties determine its result uniquely.
- `Ranker` (ranker.dfy) models `rankOptions` and `calculateBalancedScore`.
- `BudgetAdvisor` (budget.dfy) models `checkBudgetAlert`.
- `Planner` (planner.dfy) holds the class `AIJourneyPlanner`, whose
  `userHistory` map is updated in place. It also holds the mode-frequency
  summary.
- `Candidates` (candidates.dfy) models `generateJourneyOptions` and the
  concrete facts about its four options. These facts include the order
  each preference produces, the budget alerts for a budget of 200, and a
  three-booking learner scenario.

Numbers are exact: costs and times are integers, and scores and averages
are `real`. A ranking comparator `a - b` becomes an ascending sort key;
the descending comparators (`b - a`) become a negated key.

Two consequences of the code worth stating:

- The budget guard `!budget` (src/utils/aiPlanner.ts:178) treats a budget
  of 0 as no budget, so it never raises an alert.
- Option 1's balanced score is 25 + 21.75 + 14 + 16 = 76.75
  (src/utils/aiPlanner.ts:167-174).

## Model

| member | source | states |
|---|---|---|
| Types.SegmentModes | src/utils/aiPlanner.ts:23-140 | the mode list of a journey has one entry per leg, namely that leg's mode |
| Candidates.FixedOptionsConsistent | src/utils/aiPlanner.ts:23-140 | each of the four written options has total cost and time equal to the sums over its legs, a mode sequence equal to its legs' modes, and ratings in 0..10 |
| Candidates.GenerateJourneyOptions | src/utils/aiPlanner.ts:17-144 | the result is a rearrangement of the four fixed options, whatever the start and destination |
| Candidates.GeneratedOrders | src/utils/aiPlanner.ts:23-143 | the ids come out as 3,4,1,2 for cheapest; 2,1,3,4 for fastest; 2,1,4,3 for comfortable; 1,4,3,2 for balanced; and 1,2,3,4 for any other preference |
| Candidates.CheapestOrder | src/utils/aiPlanner.ts:150-151 | sorting the fixed options by ascending cost gives options 3, 4, 1, 2 |
| Candidates.FastestOrder | src/utils/aiPlanner.ts:152-153 | sorting the fixed options by ascending time gives options 2, 1, 3, 4 |
| Candidates.ComfortableOrder | src/utils/aiPlanner.ts:154-155 | sorting the fixed options by descending comfort gives options 2, 1, 4, 3 |
| Candidates.BalancedOrder | src/utils/aiPlanner.ts:156-161 | sorting the fixed options by descending balanced score gives options 1, 4, 3, 2 |
| Candidates.FixedScores | src/utils/aiPlanner.ts:167-175 | the balanced scores of options 1 to 4 are exactly 76.75, 61.0, 70.0 and 75.25 |
| Candidates.FixedBudgetAlerts | src/utils/aiPlanner.ts:177-198 | with a budget of 200, options 1, 3 and 4 raise no alert; option 2 (cab, cost 250) exceeds it by 50 and gets the suggestion "Consider using Metro instead of Cab to reduce cost" |
| Ranker.RankOptions | src/utils/aiPlanner.ts:146-165 | the ranking is a permutation of its input, and under an unrecognised preference it is the input unchanged |
| Ranker.Key | src/utils/aiPlanner.ts:150-161 | the sort key of each comparator (cost, time, negated comfort, negated balanced score); what ordering by it means is stated by Ranker.RankOrdered, Ranker.RankStable and Ranker.RankCharacterized |
| Ranker.RankOrdered | src/utils/aiPlanner.ts:149-161 | cheapest gives non-decreasing cost, fastest gives non-decreasing time, comfortable gives non-increasing comfort, and balanced gives non-increasing balanced score |
| Ranker.RankStable | src/utils/aiPlanner.ts:147-161 | options that tie on the preference's key keep their input order, because the sort is stable and works on a copy |
| Ranker.RankCharacterized | src/utils/aiPlanner.ts:147-161 | any arrangement of the input that is ordered by the key and keeps ties in input order equals the ranking, so the three properties determine it |
| Ranker.CostScore | src/utils/aiPlanner.ts:169 | the cost term is never negative, is at most 100 for a non-negative cost, and is 0 exactly when the cost is 300 or more |
| Ranker.TimeScore | src/utils/aiPlanner.ts:170 | the time term is never negative, is at most 100 for a non-negative time, and is 0 exactly when the time is 200 or more |
| Ranker.CalculateBalancedScore | src/utils/aiPlanner.ts:167-175 | for non-negative cost and time and ratings in 0..10, the score lies between 0 and 100 |
| Ranker.BalancedScoreMonotone | src/utils/aiPlanner.ts:167-175 | with equal ratings, an option that is no dearer and no slower never scores lower |
| StableSort.SortBy | src/utils/aiPlanner.ts:151 | the sort result is ordered by the key and is a permutation of its input |
| StableSort.SortByStable | src/utils/aiPlanner.ts:151 | for every key value, the elements with that key appear in the result in their input order |
| StableSort.SortByCharacterized | src/utils/aiPlanner.ts:151 | a sequence that is ordered by the key and is stable with respect to the input is the sort's result |
| StableSort.SortByTiesKeepOrder | src/utils/aiPlanner.ts:230-231 | two result elements with equal keys appear in the same order in the input |
| BudgetAdvisor.Suggest | src/utils/aiPlanner.ts:185-191 | metro-for-cab exactly when a cab leg exists; bus-for-metro exactly when there is no cab but a metro leg; walk-or-cycle exactly when there is neither |
| BudgetAdvisor.CheckBudgetAlert | src/utils/aiPlanner.ts:177-198 | there is no alert exactly when the budget is absent or 0, or the cost is within it; otherwise the alert says the budget is exceeded, by a positive amount equal to cost minus budget, and carries the suggestion for the option's modes |
| BudgetAdvisor.AlertMonotoneInBudget | src/utils/aiPlanner.ts:178 | raising a non-zero budget never turns "no alert" into an alert |
| Planner.UpdatedAverage | src/utils/aiPlanner.ts:213 | the updated average lies between the old average and the new trip's cost; that it is the exact mean is Planner.RunningMeanStep |
| Planner.RunningMeanStep | src/utils/aiPlanner.ts:213 | when the stored average is the mean of the n costs so far, the incremental update gives the mean of those costs plus the new one |
| Planner.AIJourneyPlanner.constructor | src/utils/aiPlanner.ts:15 | the planner starts with no profiles |
| Planner.AIJourneyPlanner.LearnFromUserChoice | src/utils/aiPlanner.ts:200-217 | a booking creates the profile of an unseen user, appends the preference and every leg's mode, counts the trip, and keeps the average cost equal to the mean of all the user's trip costs; no other user changes |
| Planner.AIJourneyPlanner.GetPersonalizedRecommendations | src/utils/aiPlanner.ts:219-238 | an unknown user gets nothing; a known user gets the frequency summary of their modes and their stored average, which is the mean of their trip costs |
| Planner.TallyModes | src/utils/aiPlanner.ts:225-228 | the tally's keys are exactly the modes taken, and each count is that mode's number of occurrences |
| Planner.Step | src/utils/aiPlanner.ts:226-227 | one step of the frequency fold adds the mode as a key, raises its count by one (from 0 when new), and leaves every other count alone |
| Planner.TallyKeysInFirstUseOrder | src/utils/aiPlanner.ts:225-230 | the tally's keys, like a JavaScript object's string keys, come in order of first occurrence |
| Planner.TallyKeysDistinct | src/utils/aiPlanner.ts:225-230 | no mode appears twice among the tally's keys |
| Planner.FirstIndex | src/utils/aiPlanner.ts:225-230 | the first-occurrence index points at the mode and no earlier position holds it |
| Planner.PreferredModes | src/utils/aiPlanner.ts:230-232 | at most three modes are reported, and at least one once any trip has been taken; the full specification of the summary is carried by the Planner.PreferredModes* lemma rows below |
| Planner.PreferredModesChosen | src/utils/aiPlanner.ts:230-232 | at most three modes are reported, all distinct, and each one the user has taken |
| Planner.PreferredModesAllWhenFew | src/utils/aiPlanner.ts:230-232 | when fewer than three are reported, every mode the user took is among them |
| Planner.PreferredModesNonIncreasing | src/utils/aiPlanner.ts:230-231 | the reported modes come in non-increasing order of frequency |
| Planner.PreferredModesMostFrequent | src/utils/aiPlanner.ts:230-232 | no omitted mode is more frequent than a reported one |
| Planner.PreferredModesTiesByFirstUse | src/utils/aiPlanner.ts:225-231 | reported modes of equal frequency come in order of first use |
| Planner.PreferredModesCutOffByFirstUse | src/utils/aiPlanner.ts:225-232 | a mode omitted at the cut-off was first used after every reported mode of the same frequency |
| Candidates.PreferredForProfile | src/utils/aiPlanner.ts:225-232 | for any mode history with metro twice and bus, cab and bike once each (first used in that order), the summary is metro, bus, cab |
| Candidates.LearnerScenario | src/utils/aiPlanner.ts:200-238 | booking options 1, 2 and 3 for a new user gives an average of 110 and the preferred modes metro, bus, cab |

## Left out

- Presentation data is not modelled: each mode's name, icon and colour (`src/utils/aiPlanner.ts:4-11`), and each option's carbon footprint, description, leg distances and instructions. No operation of the core reads them.
- Locations are carried but unused, as in the source, which ignores start and destination.
- Floating-point rounding is not modelled. Scores and averages are exact rationals, and every ranking comparison on the four fixed options has a margin far above double-precision error.
- A sort comparator that returns NaN cannot arise, because all inputs are integers. It is not modelled.
- The profile store is an untyped `Map<string, any>` holding mutable objects. Here it is a `map` from user id to a `Profile` value that the method replaces. The source updates the stored object through an alias and then stores it again, and nothing else holds a reference to it, so the outcome is the same.
- The trip-cost history behind the running average is a ghost field. The source keeps only the average and the trip count.
- `getPersonalizedRecommendations` returns `{}` for an unknown user. Here that is `None`. The `averageBudget` field it returns is outside `UserPreferences`, so the result is its own `Recommendation` type.
- The optional `avoidModes` and `preferredModes` fields of `UserPreferences` are not read by the core and are not modelled.
- A preference string outside the four known ones is the single value `Other`.
- BudgetAdvisor.AlertMonotoneInBudget: excludes a budget of 0, because 0 means "no budget" and silences the alert, so the property fails across 0.
- The React components and `App.tsx` that call the planner are not part of this model.
