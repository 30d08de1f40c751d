# FitVida Pro core, modelled in Dafny

FitVida Pro is a fitness and nutrition web application. Its core is:

- the metrics engine (`src/lib/utils-fitvida.ts`). It computes energy needs (Mifflin-St Jeor BMR, TDEE, daily calorie goal), weight progress, the calorie balance, the macronutrient breakdown, a coaching message, the prioritised list of deficient areas and relative-time labels;
- the lookup tables it reads (`src/lib/constants.ts`);
- six API route handlers that relay a request to a chat-completion model:
  - analyze-food, search-food, voice-command, generate-meal-plan, analyze-progress and coaching-tips;
  - each takes the JSON payload out of the free-text reply with a greedy regular expression;
  - the last two also compute a weight trend (least-squares slope) and their own calorie goal (Harris-Benedict);
- the client wrappers that call those routes (`src/lib/ai-service.ts`).

The model is split into modules, one per source file:

| module | file | models |
|---|---|---|
| `Wrappers`, `Text` | `wrappers.dfy`, `text.dfy` | helpers: `Option`; decimal text of numbers; `Array.prototype.join` |
| `Profile` | `profile.dfy` | the records and string unions of `src/lib/types.ts` that the core reads |
| `Constants` | `constants.dfy` | `src/lib/constants.ts` |
| `Metrics` | `metrics.dfy` | `src/lib/utils-fitvida.ts` |
| `Relay` | `relay.dfy` | what the six handlers share: JSON values, the upstream outcome, the request, the response, the regex extraction |
| `AnalyzeProgress`, `CoachingTips`, `AnalyzeFood`, `SearchFood`, `VoiceCommand`, `MealPlan` | one file each | the six route handlers |
| `AiService` | `ai_service.dfy` | `src/lib/ai-service.ts` |

Some operations work by pushing onto an array and are modelled as methods with loops or sequences of updates, each proved against a specification function:
- `analyzeMacros` (a `reduce` and three pushes);
- `generateCoachingMessage`;
- `detectDeficientAreas`.

Everything else is pure and is modelled as functions and lemmas.

The outside world comes in as parameters:
- the chat-completion service is `service: ChatRequest<P> -> Upstream`;
- `JSON.parse` is `parse: string -> Option<Json>`;
- the client's `fetch` to a route is `fetch: … -> Reached`;
- clock readings are plain numbers.

Each handler returns an `Exchange`: the request it sent upstream (or none) and the HTTP response. This makes "the model was never called" a property that can be stated.

JavaScript numbers are modelled as mathematical reals, and `Math.round(x)` as `⌊x + 0.5⌋`. Calorie, water and minute counts are integers.

## Model

| member | source | states |
|---|---|---|
| Constants.ActivityTablesAgree | src/lib/constants.ts:20-26 | the activity labels and the multiplier table have the same five keys, and each key names one activity level |
| Constants.GoalTablesAgree | src/lib/constants.ts:28-32 | the goal labels and the adjustment table have the same three keys, and each key names one goal |
| Constants.CalorieMultiplier | src/lib/constants.ts:148-154 | the multiplier lookup is total on the five levels and lies in [1.2, 1.9]; 1.2 only for sedentary, 1.9 only for very_active |
| Constants.MultipliersIncrease | src/lib/constants.ts:148-154 | a more active level has a strictly larger multiplier |
| Constants.GoalAdjustment | src/lib/constants.ts:156-160 | the adjustment is negative exactly for 'lose' and positive exactly for 'gain' |
| Constants.AdjustmentSpread | src/lib/constants.ts:156-160 | gain minus lose is 800 kcal; maintain adds 0 |
| Constants.WaterGoal | src/lib/utils-fitvida.ts:164 | the `male ? 3000 : 2500` literal is the WATER_GOALS entry for the gender, with the default for 'other' |
| Constants.ChallengesWellFormed | src/lib/constants.ts:77-102 | challenge ids are distinct and every challenge lasts at least one day |
| Profile.ParseLevel | src/lib/types.ts:13 | a key that parses names the level it parses to |
| Profile.LevelKeyRoundTrip | src/lib/types.ts:13 | every activity level's key parses back to that level |
| Profile.ParseGoal | src/lib/types.ts:14 | a key that parses names the goal it parses to |
| Profile.GoalKeyRoundTrip | src/lib/types.ts:14 | every goal's key parses back to that goal |
| Metrics.Round | src/lib/utils-fitvida.ts:21 | `Math.round` returns the integer n with n ≤ x + 0.5 < n + 1 |
| Metrics.RoundUnique | src/lib/utils-fitvida.ts:21 | that integer is unique |
| Metrics.RoundShift | src/lib/utils-fitvida.ts:28 | rounding commutes with adding a whole number |
| Metrics.Bmr | src/lib/utils-fitvida.ts:7-15 | the Mifflin-St Jeor formula with the weight passed in; no contract of its own: BmrGenderGap and DailyGoalExample state its properties |
| Metrics.BmrGenderGap | src/lib/utils-fitvida.ts:10-14 | for one body the male BMR is exactly 166 kcal above the female one; 'other' uses the female formula |
| Metrics.Tdee | src/lib/utils-fitvida.ts:18-22 | the TDEE is within half a kcal of BMR × the level's multiplier |
| Metrics.DailyCalorieGoal | src/lib/utils-fitvida.ts:25-29 | the corrected goal, from `currentWeight`; no contract of its own: DailyGoalIsTdeePlusAdjustment, GoalOnlyAdjusts and DailyGoalSpread state its properties |
| Metrics.DailyGoalIsTdeePlusAdjustment | src/lib/utils-fitvida.ts:25-29 | the second rounding is a no-op: the goal is exactly TDEE + GOAL_ADJUSTMENTS[goal] |
| Metrics.GoalOnlyAdjusts | src/lib/utils-fitvida.ts:25-29 | changing only the goal changes only the adjustment |
| Metrics.DailyGoalSpread | src/lib/utils-fitvida.ts:25-29 | for one profile: gain − lose = 800, maintain = TDEE, and lose < maintain < gain |
| Metrics.DailyGoalExample | src/lib/utils-fitvida.ts:7-29 | 70 kg, 170 cm, 30 y, male, moderate, lose: BMR 1617.5, TDEE 2507, goal 2007 |
| Metrics.BmrAsWritten | src/lib/utils-fitvida.ts:7-15 | the BMR with whatever the `weight` lookup finds: NaN when it is undefined; no contract of its own: GoalAsWrittenIsNaN and GoalAsWrittenAgreesWithCorrected state its properties |
| Metrics.DailyCalorieGoalAsWritten | src/lib/utils-fitvida.ts:7-29 | the goal chain as written, NaN in, NaN out; no contract of its own: GoalAsWrittenIsNaN and GoalAsWrittenAgreesWithCorrected state its properties |
| Metrics.GoalAsWrittenIsNaN | src/lib/utils-fitvida.ts:8 | as written the BMR reads the absent `weight` property, so the goal is NaN for every User |
| Metrics.GoalAsWrittenAgreesWithCorrected | src/lib/utils-fitvida.ts:7-29 | had `weight` carried the current weight, the code as written would compute the corrected goal |
| Metrics.Abs | src/lib/utils-fitvida.ts:39 | `Math.abs` is non-negative and is x or −x |
| Metrics.AtMost100 | src/lib/utils-fitvida.ts:48 | `Math.min(x, 100)` is at most 100 and is x or 100 |
| Metrics.CalculateWeightProgress | src/lib/utils-fitvida.ts:32-50 | as written: current, target and remaining distance are reported, and the percentage is always 0 |
| Metrics.WeightProgressFrom | src/lib/utils-fitvida.ts:38-49 | progress from a start weight reports the remaining distance and a percentage of at most 100 |
| Metrics.WeightProgressFromMilestones | src/lib/utils-fitvida.ts:38-49 | corrected progress is 0 at the start and 100 at the target, and lies in [0, 100] in between |
| Metrics.WeightProgressUsesCurrentAsStart | src/lib/utils-fitvida.ts:39-40 | the record as written is the corrected one with the current weight used as the start |
| Metrics.SelfQuotient | src/lib/utils-fitvida.ts:42 | proof helper: a positive total divided by itself is 1 |
| Metrics.NonNegativeQuotient | src/lib/utils-fitvida.ts:42 | proof helper: a non-negative distance over a positive total is non-negative |
| Metrics.AnalyzeCalorieBalance | src/lib/utils-fitvida.ts:53-76 | balance = consumed − burned − goal; balanced iff \|balance\| < 100, deficit iff ≤ −100, surplus iff ≥ 100; the balanced message is fixed; the other two messages start with their prefixes |
| Metrics.BalanceMessageQuotesGap | src/lib/utils-fitvida.ts:69-72 | the number quoted in a deficit or surplus message, read back from the text, is \|balance\| |
| Metrics.QuotedBetween | src/lib/utils-fitvida.ts:69-72 | a number printed between a prefix and a text that does not start with a digit is read back exactly |
| Metrics.AnalyzeMacros | src/lib/utils-fitvida.ts:79-122 | the loop computes the specification report: the totals are the sums over the entries, and each tip is present iff its threshold is crossed (protein < 20 %, carbs > 50 %, fat < 20 %) |
| Metrics.MacroReport | src/lib/utils-fitvida.ts:79-122 | the specification of `analyzeMacros`; no contract of its own: AnalyzeMacros, MacroSharesSumTo100, RecommendationsInOrder and MacrosOfNothing state its properties |
| Metrics.MacroSharesSumTo100 | src/lib/utils-fitvida.ts:97-101 | with positive macro energy the three shares add up to 100; otherwise all are 0 |
| Metrics.SelectionInOrder | src/lib/utils-fitvida.ts:103-113 | pushing any subset of three items in order gives an ordered subsequence |
| Metrics.RecommendationsInOrder | src/lib/utils-fitvida.ts:103-113 | the recommendations are an ordered, repetition-free selection from protein, carbs, fat |
| Metrics.MacrosOfNothing | src/lib/utils-fitvida.ts:88-113 | no entries: zero totals and shares; the advice is protein, then fat |
| Metrics.CalorieSentence | src/lib/utils-fitvida.ts:131-138 | exactly one calorie sentence: 'eating too little' iff consumed < 70 % of the goal; 'over the goal' iff not that and consumed > 120 % of it; 'on target' iff 70 % ≤ consumed ≤ 120 % |
| Metrics.HydrationSentence | src/lib/utils-fitvida.ts:140-145 | at most one hydration sentence: 'very low' iff intake < 50 % of the goal; 'excellent' iff intake ≥ 50 % and ≥ the goal; none iff 50 % of goal ≤ intake < goal |
| Metrics.ActivitySentence | src/lib/utils-fitvida.ts:147-152 | at most one activity sentence: 'take a walk' iff 0 minutes; 'congratulations' iff 30 minutes or more; none iff 0 < minutes < 30 (or negative minutes) |
| Metrics.CoachingSentences | src/lib/utils-fitvida.ts:129-152 | the sentences in push order; no contract of its own: CoachingShape and the three sentence functions state its properties |
| Metrics.GenerateCoachingMessage | src/lib/utils-fitvida.ts:125-155 | the method's pushes produce the sentences of the specification, joined by single spaces |
| Metrics.CoachingShape | src/lib/utils-fitvida.ts:125-155 | one to three sentences: the calorie one first, then at most one about hydration, then at most one about activity; the message starts with the calorie sentence |
| Metrics.CalorieSentenceAsWritten | src/lib/utils-fitvida.ts:126-137 | as written (goal NaN) the sentence is always 'on target'; with `weight` equal to the current weight it is CalorieSentence of the corrected goal |
| Metrics.NothingEatenAsWrittenIsOnTarget | src/lib/utils-fitvida.ts:126-137 | nothing eaten: 'on target' as written, 'eating too little' with the corrected goal |
| Metrics.InsertAddsOne | src/lib/utils-fitvida.ts:206-209 | inserting adds exactly the new element (as a multiset and in membership) |
| Metrics.InsertSorted | src/lib/utils-fitvida.ts:206-209 | inserting into a priority-sorted list keeps it sorted |
| Metrics.MembershipOfMultiset | src/lib/utils-fitvida.ts:206-209 | proof helper: adding one element to the multiset adds exactly that element to the members |
| Metrics.HeadBoundsTail | src/lib/utils-fitvida.ts:206-209 | proof helper: in a sorted list the head ranks at least as high as every later element |
| Metrics.ConsSorted | src/lib/utils-fitvida.ts:206-209 | proof helper: a head that outranks a sorted tail gives a sorted list |
| Metrics.SortByPriority | src/lib/utils-fitvida.ts:206-209 | the sort by `order[b] − order[a]` returns a list sorted high → medium → low that is a permutation of its input |
| Metrics.InsertKeepsPriorityClasses | src/lib/utils-fitvida.ts:206-209 | inserting puts the new element first among the elements of its own priority |
| Metrics.SortIsStable | src/lib/utils-fitvida.ts:206-209 | the sort is stable: within one priority the detection order is kept |
| Metrics.InsertKeepsAreasDistinct | src/lib/utils-fitvida.ts:206-209 | inserting a finding for a new area keeps the areas distinct |
| Metrics.SortKeepsAreasDistinct | src/lib/utils-fitvida.ts:206-209 | sorting keeps one finding per area |
| Metrics.DetectedInOrder | src/lib/utils-fitvida.ts:171-204 | the findings in push order; no contract of its own: DetectedShape and DetectedMembership state its properties |
| Metrics.DetectedShape | src/lib/utils-fitvida.ts:171-204 | the rules give at most three findings, one per area, drawn from the four fixed findings |
| Metrics.DetectedMembership | src/lib/utils-fitvida.ts:171-204 | critical hydration iff water < 30 %; low hydration iff 30 % ≤ water < 60 %; calories low iff the share of the goal is below 50 % after 18h; no activity iff 0 minutes after 16h |
| Metrics.SortedFindings | src/lib/utils-fitvida.ts:158-210 | the sorted list is sorted, has one finding per area and no low priority, and holds exactly the findings whose rule fired |
| Metrics.DetectDeficientAreas | src/lib/utils-fitvida.ts:158-210 | the method's pushes and sort compute the specification list, which satisfies everything SortedFindings states |
| Metrics.CalorieFindingAsWritten | src/lib/utils-fitvida.ts:187-195 | as written (goal NaN, so the share is NaN) the calorie rule never fires; with `weight` equal to the current weight it is the corrected rule |
| Metrics.NoCalorieFindingAsWritten | src/lib/utils-fitvida.ts:158-210 | as written the sorted list never holds the calorie finding; with the corrected goal a day with nothing eaten after 18h holds it |
| Metrics.HydrationThresholds | src/lib/utils-fitvida.ts:172-185 | the 30 % and 60 % water thresholds as whole-number comparisons with the gender's goal |
| Metrics.ElapsedSeconds | src/lib/utils-fitvida.ts:232 | `Math.floor(diff / 1000)` is the whole number of seconds |
| Metrics.ClassifyElapsed | src/lib/utils-fitvida.ts:234-237 | 'agora' iff under 60 s; otherwise minutes (< 60), hours (< 24) or days, each the floor of the elapsed time in that unit |
| Metrics.GetRelativeTime | src/lib/utils-fitvida.ts:230-238 | the label for the elapsed time; no contract of its own: ElapsedSeconds, ClassifyElapsed and RenderElapsedInjective state its properties |
| Metrics.RenderElapsedInjective | src/lib/utils-fitvida.ts:234-237 | different elapsed classes never print the same label |
| Text.NatToString | src/lib/utils-fitvida.ts:69-72 | a number's decimal text is non-empty, all digits, with no leading zero |
| Text.NatToStringRoundTrip | src/lib/utils-fitvida.ts:69-72 | reading the printed digits back gives the number |
| Text.NatToStringInjective | src/app/api/generate-meal-plan/route.ts:81 | different numbers print differently |
| Text.LeadingDigits | src/lib/utils-fitvida.ts:69-72 | the longest run of digits at the start of a text |
| Text.LeadingDigitsOfPrinted | src/lib/utils-fitvida.ts:69-72 | digits followed by a non-digit are recovered exactly |
| Text.Join | src/lib/utils-fitvida.ts:154 | the join of nothing is empty; a single item is the join; the first item opens the join |
| Text.JoinEmptyIff | src/app/api/generate-meal-plan/route.ts:25 | with a non-empty separator the join is empty iff the list is empty or holds a single empty string |
| Relay.ErrorResponse | src/app/api/analyze-food/route.ts:93-96 | `{ error: message }` with the given status and no other field |
| Relay.FirstIndex | src/app/api/analyze-food/route.ts:83 | the first occurrence of a character, or None iff the character is absent |
| Relay.LastIndex | src/app/api/analyze-food/route.ts:83 | the last occurrence of a character, or None iff the character is absent |
| Relay.NoPairAfterLastClose | src/app/api/analyze-food/route.ts:83-86 | when the first `{` is not before the last `}`, no `{` precedes any `}` |
| Relay.ExtractJson | src/app/api/analyze-food/route.ts:83-86 | the greedy match exists iff some open delimiter precedes some close delimiter; it runs from the first open to the last close |
| Relay.ExtractedIsFramed | src/app/api/analyze-food/route.ts:83 | the extracted text starts with the open delimiter and ends with the close delimiter |
| Relay.FirstIndexAt | src/app/api/analyze-food/route.ts:83 | FirstIndex finds the position of the first occurrence |
| Relay.LastIndexAt | src/app/api/analyze-food/route.ts:83 | LastIndex finds the position of the last occurrence |
| Relay.ExtractFromProse | src/app/api/analyze-food/route.ts:83 | prose around an object is stripped |
| Relay.ExtractWithoutBraces | src/app/api/analyze-food/route.ts:84-86 | a reply without braces yields no match |
| Relay.ExtractSpansTwoObjects | src/app/api/analyze-food/route.ts:83 | greediness: two objects are taken together with the text between them |
| Relay.ParsedReply | src/app/api/analyze-food/route.ts:75-88 | a payload exists iff the call succeeded, the regex matched, and `JSON.parse` of the match succeeded |
| Relay.GoalLabel | src/app/api/generate-meal-plan/route.ts:24 | 'emagrecimento' iff lose, 'ganho de massa' iff gain, 'manutenção' iff maintain |
| AnalyzeProgress.SumXClosedForm | src/app/api/analyze-progress/route.ts:90 | ΣX over 0..n−1 is n(n−1)/2 |
| AnalyzeProgress.SumX2ClosedForm | src/app/api/analyze-progress/route.ts:93 | ΣX² over 0..n−1 is (n−1)n(2n−1)/6 |
| AnalyzeProgress.TrendDenominatorPositive | src/app/api/analyze-progress/route.ts:95 | the slope's denominator is n²(n²−1)/12, positive from two samples on, so the slope never divides by zero |
| AnalyzeProgress.DenominatorClosedForm | src/app/api/analyze-progress/route.ts:95 | 12·(nΣX² − (ΣX)²) = n²(n²−1) |
| AnalyzeProgress.DenominatorPositive | src/app/api/analyze-progress/route.ts:95 | nΣX² − (ΣX)² > 0 for n ≥ 2 |
| AnalyzeProgress.DenominatorAlgebra | src/app/api/analyze-progress/route.ts:95 | proof helper: the closed forms of the sums give the closed form of the denominator |
| AnalyzeProgress.QuarticPositive | src/app/api/analyze-progress/route.ts:95 | proof helper: n²(n²−1) > 0 for n ≥ 2 |
| AnalyzeProgress.WeightTrend | src/app/api/analyze-progress/route.ts:83-98 | fewer than two weights give trend 0 |
| AnalyzeProgress.Quotient | src/app/api/analyze-progress/route.ts:95 | the division undoes multiplication by a non-zero denominator |
| AnalyzeProgress.LinearSumY | src/app/api/analyze-progress/route.ts:91 | ΣY of the line a + b·i is n·a + b·ΣX |
| AnalyzeProgress.LinearSumXY | src/app/api/analyze-progress/route.ts:92 | ΣXY of the line a + b·i is a·ΣX + b·ΣX² |
| AnalyzeProgress.TrendOfLinearSeries | src/app/api/analyze-progress/route.ts:83-98 | the least-squares slope of weights lying on a line a + b·day is exactly b |
| AnalyzeProgress.TrendFromLinearSums | src/app/api/analyze-progress/route.ts:86-97 | a series whose sums are those of a line has that line's slope |
| AnalyzeProgress.TrendIsSlope | src/app/api/analyze-progress/route.ts:95 | from two samples on, the trend is the slope formula over the four sums |
| AnalyzeProgress.SlopeOfLine | src/app/api/analyze-progress/route.ts:95 | the slope formula over the sums of a line gives its slope |
| AnalyzeProgress.AppendLinearTerm | src/app/api/analyze-progress/route.ts:92 | proof helper: the inductive step of ΣXY for a line |
| AnalyzeProgress.CancelFactor | src/app/api/analyze-progress/route.ts:95 | proof helper: a non-zero factor cancels |
| AnalyzeProgress.SlopeNumerator | src/app/api/analyze-progress/route.ts:95 | for a line, the numerator is b times the denominator |
| AnalyzeProgress.ConstantSeriesHasNoTrend | src/app/api/analyze-progress/route.ts:83-98 | a constant weight gives trend 0 |
| AnalyzeProgress.TrendExample | src/app/api/analyze-progress/route.ts:83-98 | 70, 71, 72 kg give 1; 75, 75, 75 give 0; a single sample gives 0 |
| AnalyzeProgress.DescribeTrend | src/app/api/analyze-progress/route.ts:34 | 'ganho' iff the trend is positive, otherwise 'perda'; the magnitude is non-negative |
| AnalyzeProgress.TrendPhraseRoundTrip | src/app/api/analyze-progress/route.ts:34 | direction and magnitude give back the signed trend |
| AnalyzeProgress.Weights | src/app/api/analyze-progress/route.ts:8 | the weights are the samples' weights, in order |
| AnalyzeProgress.AnalyzeProgress | src/app/api/analyze-progress/route.ts:3-81 | empty history: no call and a 500. Otherwise one gpt-4o call (600 tokens, temperature 0.5) carrying the goal label, the first and last weight, the trend phrase and the days. 200 with the payload iff one was parsed; every failure gives the same 500 body |
| AnalyzeProgress.ReplyWithoutObjectFails | src/app/api/analyze-progress/route.ts:66-69 | a reply with no `{` before a `}` is a 500 whatever the parser would do |
| CoachingTips.HarrisBenedictBmr | src/app/api/coaching-tips/route.ts:85-92 | the Harris-Benedict formula from `currentWeight`; no contract of its own: CalorieGoalExample states its value for one profile |
| CoachingTips.ActivityMultipliersMatch | src/app/api/coaching-tips/route.ts:94-100 | the handler's own multiplier table equals CALORIE_MULTIPLIERS |
| CoachingTips.LocalMultiplier | src/app/api/coaching-tips/route.ts:94-102 | the handler's lookup is total and gives the same multiplier as the metrics engine |
| CoachingTips.CalculateCalorieGoal | src/app/api/coaching-tips/route.ts:85-110 | `calculateCalorieGoal`; no contract of its own: CalorieGoalIsRoundedTdeePlusAdjustment, GoalKeepsTdee, CalorieGoalSpread and CalorieGoalExample state its properties |
| CoachingTips.CalorieGoalIsRoundedTdeePlusAdjustment | src/app/api/coaching-tips/route.ts:85-110 | rounding once after ±500/+300 equals the rounded Harris-Benedict TDEE plus GOAL_ADJUSTMENTS[goal] |
| CoachingTips.GoalKeepsTdee | src/app/api/coaching-tips/route.ts:102-110 | changing only the goal changes only the adjustment |
| CoachingTips.CalorieGoalSpread | src/app/api/coaching-tips/route.ts:104-109 | for one profile gain − lose = 800, and lose < maintain < gain |
| CoachingTips.CalorieGoalExample | src/app/api/coaching-tips/route.ts:85-110 | 70 kg, 170 cm, 30 y, male, moderate, lose: TDEE 2591.0916, goal 2091 |
| CoachingTips.CoachingTips | src/app/api/coaching-tips/route.ts:3-82 | one gpt-4o call for every request body that carries a user (500 tokens, temperature 0.8), carrying the water goal 3000/2500. Always status 200 with only `tips`: the parsed `[…]` payload, or the three fixed tips |
| CoachingTips.FailureGetsFixedTips | src/app/api/coaching-tips/route.ts:62-81 | a failed call, or a reply with no `[` before a `]`, gets exactly the fixed tips |
| CoachingTips.NeverAnError | src/app/api/coaching-tips/route.ts:70-81 | the handler never answers with an error status or an `error` field |
| AnalyzeFood.ImageUrl | src/app/api/analyze-food/route.ts:64 | the URL is the JPEG data prefix followed by exactly the image |
| AnalyzeFood.ImageUrlInjective | src/app/api/analyze-food/route.ts:64 | different images give different URLs |
| AnalyzeFood.AnalyzeFood | src/app/api/analyze-food/route.ts:3-98 | no call iff the image is missing or empty, and then a 400. Otherwise one gpt-4o call (1000 tokens, temperature 0.3) with the text and the image URL. 200 with the payload iff one was parsed, else the fixed 500 |
| AnalyzeFood.DistinctImagesDistinctRequests | src/app/api/analyze-food/route.ts:54-68 | different images send different requests |
| AnalyzeFood.ReplyWithoutObjectFails | src/app/api/analyze-food/route.ts:83-86 | a reply with no `{` before a `}` is the 500 |
| SearchFood.SearchMessage | src/app/api/search-food/route.ts:50 | the message is the fixed prefix followed by exactly the query |
| SearchFood.SearchMessageInjective | src/app/api/search-food/route.ts:50 | different queries give different messages |
| SearchFood.SearchFood | src/app/api/search-food/route.ts:3-81 | no call iff `q` is missing or empty, and then a 400. Otherwise one gpt-4o call (800 tokens, temperature 0.3) naming the query. 200 with the payload iff one was parsed, else the fixed 500 |
| SearchFood.DistinctQueriesDistinctRequests | src/app/api/search-food/route.ts:48-51 | different queries send different requests |
| SearchFood.ReplyWithoutObjectFails | src/app/api/search-food/route.ts:66-69 | a reply with no `{` before a `}` is the 500 |
| VoiceCommand.VoiceCommand | src/app/api/voice-command/route.ts:3-83 | always one gpt-4o call (300 tokens, temperature 0.3) with the command verbatim. Always status 200: the parsed object, or the 'unknown' fallback |
| VoiceCommand.UnknownCommandShape | src/app/api/voice-command/route.ts:78-81 | the fallback has exactly `action: 'unknown'` and `response`, and no `data` |
| VoiceCommand.FailureIsUnknownCommand | src/app/api/voice-command/route.ts:76-82 | a failed call or a reply without an object gets the fallback with status 200 |
| MealPlan.JoinOrNone | src/app/api/generate-meal-plan/route.ts:25-27 | never empty; 'nenhuma' for an empty list or a single empty string; a single non-empty item is the text itself; otherwise it starts with the first item |
| MealPlan.JoinOrNoneLists | src/app/api/generate-meal-plan/route.ts:25 | two or more items are listed in order, separated by ", " |
| MealPlan.EmptyListsSayNone | src/app/api/generate-meal-plan/route.ts:25-27 | no restrictions and no conditions make the prompt say 'nenhuma' for both |
| MealPlan.PlanId | src/app/api/generate-meal-plan/route.ts:81 | the id is 'plan-' followed by digits |
| MealPlan.PlanIdRoundTrip | src/app/api/generate-meal-plan/route.ts:81 | the clock reading can be read back from the id |
| MealPlan.Spread | src/app/api/generate-meal-plan/route.ts:80-85 | the spread holds the base keys and the payload keys; the payload's values win |
| MealPlan.PlanBase | src/app/api/generate-meal-plan/route.ts:80-84 | id, userId and date; no contract of its own: PlanKeepsModelFields and PlansAtDifferentTimesDiffer state its properties |
| MealPlan.PlanPrompt | src/app/api/generate-meal-plan/route.ts:24-27 | the goal label, the joined restrictions, the target and the joined conditions; no contract of its own: JoinOrNone and EmptyListsSayNone state its properties |
| MealPlan.GenerateMealPlan | src/app/api/generate-meal-plan/route.ts:3-93 | one gpt-4o call for every request body that carries the fields the prompt reads (2000 tokens, temperature 0.7), with the goal label, the joined restrictions, the target and the joined conditions. 200 iff a plan was parsed, with the plan spread over id, userId and date; else the fixed 500 |
| MealPlan.PlanKeepsModelFields | src/app/api/generate-meal-plan/route.ts:80-85 | every field of the plan is kept; id, userId and date are present unless the plan overrides them |
| MealPlan.PlansAtDifferentTimesDiffer | src/app/api/generate-meal-plan/route.ts:81 | plans made at different milliseconds get different ids |
| AiService.Member | src/lib/ai-service.ts:100-101 | `data[key]` throws a TypeError iff data is `null`; it is defined iff data is an object holding the key, and is then that key's value |
| AiService.Relayed | src/lib/ai-service.ts:31-40 | returns the body iff the fetch arrived with an ok status; rethrows a rejected fetch; throws the wrapper's message on a status that is not ok |
| AiService.FileToBase64 | src/lib/ai-service.ts:181-191 | `split(',')[1]`: undefined iff there is no comma; otherwise the text from just after the first comma up to the next comma or the end |
| AiService.DataUrlRoundTrip | src/lib/ai-service.ts:184-187 | a `data:<mime>;base64,<payload>` URL gives back exactly its payload |
| AiService.ImageUrlRebuilt | src/lib/ai-service.ts:187 | the URL the route rebuilds keeps only the payload and always says JPEG |
| AiService.JpegUrlRoundTrip | src/lib/ai-service.ts:187 | a JPEG data URL survives client and route unchanged |
| AiService.AnalyzeFoodImage | src/lib/ai-service.ts:6-41 | the wrapper returns the route's body iff the response arrived ok; a response that is not ok throws 'Erro ao analisar imagem' |
| AiService.GenerateMealPlan | src/lib/ai-service.ts:44-71 | returns the body iff the response arrived ok; a response that is not ok throws 'Erro ao gerar plano alimentar' |
| AiService.AnalyzeProgressAndAdjust | src/lib/ai-service.ts:143-178 | returns the body iff the response arrived ok; a response that is not ok throws 'Erro ao analisar progresso' |
| AiService.GenerateCoachingTips | src/lib/ai-service.ts:74-110 | an ok response gives `data.tips` (undefined iff an ok body that is not `null` lacks `tips`); a failed fetch, a status that is not ok, or a `null` body (the TypeError is caught) gives the three fixed tips |
| AiService.TipsFallbacksAgree | src/lib/ai-service.ts:104-108 | the client's fallback tips are the route's fallback tips |
| AiService.CoachingTipsAlwaysArrive | src/lib/ai-service.ts:74-110 | whether the route was reached or not, the client gets a defined tips value: the parsed array or the fixed tips |
| AiService.ProcessVoiceCommand | src/lib/ai-service.ts:113-140 | an ok response gives its body; any failure gives the 'unknown' object |
| AiService.VoiceFallbacksAgree | src/lib/ai-service.ts:133-139 | a reply without an object answers the client exactly as an unreachable route does: with the route's fallback |
| AiService.SearchFoodNutrition | src/lib/ai-service.ts:194-217 | an ok response gives `data.results` (undefined iff an ok body that is not `null` lacks `results`); a failed fetch, a status that is not ok, or a `null` body (the TypeError is caught) gives an empty list |
| AiService.EmptySearchFindsNothing | src/lib/ai-service.ts:205-216 | an empty food name never reaches the model and yields an empty list |
| AiService.ImageWithoutCommaThrows | src/lib/ai-service.ts:187 | a read without a comma sends no image; the route answers 400 without calling the model, and the client throws |

## Left out

- Network, HTTP framing, headers, the API key and `process.env` are left out. The chat-completion service and `fetch` are function parameters.
- `console.error` logging is left out.
- `request.json()` failures are left out. So are non-string `image`, `q` or `command` values.
- Request bodies are assumed to carry every field the handler reads. A body without one makes the route throw before any call to the model: coaching-tips (`src/app/api/coaching-tips/route.ts:7-8`, `user`) then answers the fixed tips, and generate-meal-plan (`src/app/api/generate-meal-plan/route.ts:24-27`, `user`, `preferences.restrictions`, `user.healthConditions`) the 500.
- The fixed prose of every system prompt is left out. Only the interpolated values are modelled.
- The FileReader error path of `fileToBase64` is left out. The model starts from the data URL the reader produced.
- Property order in JSON objects is not modelled: objects are maps.
- `JSON.parse` is an oracle. A parsed `{…}` payload that is not an object adds no fields in `MealPlan.Spread`. A JSON text that starts with `{` cannot be anything but an object.
- `new Date()`, `Date.now()` and `getHours()` are parameters: a millisecond count, an ISO text, an hour.
- `formatDate`, `formatTime` and `generateId` are left out. They are locale formatting and randomness.
- The React components, the database and Supabase clients, and the mock data are left out.
- Numbers are modelled as reals and integers. IEEE rounding error is left out; so are Infinity and NaN, except in two places:
  - the as-written BMR (`Metrics.BmrAsWritten`) and what it does to the coaching sentence and the calorie finding;
  - a calorie goal of 0 in `Metrics.CalorieShareBelowHalf`.
- Metrics.GenerateCoachingMessage: uses the corrected goal (`DailyCalorieGoal`, from `currentWeight`). As written the goal is NaN, so the calorie sentence is always 'on target'; `Metrics.CalorieSentenceAsWritten` models that.
- Metrics.DetectDeficientAreas: uses the corrected goal. As written the calorie share is NaN and `NaN < 50` is false, so the calorie finding never appears; `Metrics.CalorieFindingAsWritten` and `Metrics.NoCalorieFindingAsWritten` model that.
- AnalyzeProgress.DescribeTrend: the magnitude is `|trend|` as a real. The two-decimal `toFixed(2)` text is not modelled.
- AnalyzeProgress.WeightTrend: beyond two samples the slope is a real quotient, and the denominator is proved positive. JavaScript's floating-point division is not modelled.
- Metrics.AnalyzeCalorieBalance: stats are integers, so `${balance}` is an integer's decimal text. Fractional calories are not modelled.
- `preferences.dislikes` is carried in `MealPlan.Preferences`, but the route never reads it.

## Findings

| source | as written | input that shows it | evidently intended | confidence | as-written member | corrected member |
|---|---|---|---|---|---|---|
| src/lib/utils-fitvida.ts:8 | `calculateBMR` destructures `weight`, which the User record does not have. The BMR, TDEE and calorie goal are therefore NaN | any User, e.g. 70 kg current weight, male, moderate, lose | use `currentWeight`: goal 2007 for that user | not executed | Metrics.GoalAsWrittenIsNaN | Metrics.DailyGoalSpread |
| src/lib/utils-fitvida.ts:39-42 | `totalToLose` and `remaining` are both \|current − target\|, so `lost` is 0 and the percentage is always 0 | current 80, target 70: percentage 0 | measure from the starting weight: 0 at the start, 100 at the target | not executed | Metrics.CalculateWeightProgress | Metrics.WeightProgressFromMilestones |
| src/lib/utils-fitvida.ts:126-137 | the NaN goal makes both calorie comparisons false, so the coaching message always says calories are on target | any User, e.g. nothing eaten with a corrected goal of 2007 | warn about eating too little below 70 % of the goal | not executed | Metrics.NothingEatenAsWrittenIsOnTarget | Metrics.CalorieSentence |
| src/lib/utils-fitvida.ts:187-195 | the NaN goal makes `caloriePercentage` NaN, so the calorie finding never appears | any User, nothing eaten, after 18h | report eating too little below 50 % of the goal after 18h | not executed | Metrics.NoCalorieFindingAsWritten | Metrics.SortedFindings |
