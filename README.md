# AmICooked scoring core in Dafny

AmICooked rates how "cooked" a student is, from 1 (chilling) to 10 (cooked).
This project models the scoring logic behind that rating and proves what
it promises. There are four parts.

- **`StudentAnalysis`** models `analyzeStudentPerformance` in `src/lib/api.ts`,
  the front end's scoring engine.
  - It starts from a baseline grade and adds one adjustment per survey field.
  - It clamps the grade to 0..20 and derives the predicted G3 grade, the 1..10
    cooked score, the risk tier, the failure probability, the recommendation
    list and the radar and factor-impact series.
  - Every constant there is a multiple of 0.1, so the running score is kept
    exactly as an integer count of tenths.
  - `Math.round(x)` is modelled as `floor(x + 1/2)`.
- **`CalculationService`** models `calculateCookedScore` in
  `src/lib/calculationService.ts`, an earlier scoring revision with its own
  survey schema.
  - Each factor is normalised to 0..1 and the factors are combined with
    weights that sum to 1.
  - The composite is mapped to 1..10 and classified as Low/Medium/High/Critical.
  - It also builds at most five tips and six comparison categories.
  - Numbers are exact `real`s.
- **`MlServer`** models the Python API's request handling in `api/ml_server.py`.
  - The `normalize_inputs` validator rewrites the raw JSON dict in place: it
    buckets hours and minutes into tiers 1..4 and clamps the bounded fields.
    It is modelled as a method over a `map`, proved equal to a step-by-step
    specification.
  - It is followed by the pydantic `Field` checks of `StudentFeatures`.
  - Then come the `/predict` handler (error order, the empty-features check,
    the score message and confidence) and the `/feedback` handler. The
    handler is modelled in its corrected form, keyed on the features /predict
    scores; see "## Findings".
- **`RlModel`** models the Q-learning adjustment layer and the feedback
  bookkeeping in `api/rl_model.py`.
  - `RLAdjustmentLayer` and `AmICookedRLModel` are classes whose methods
    update their fields.
  - The Q-table is a `map<string, map<int, real>>`; a missing entry reads as 0.0.
  - The sklearn grade prediction is an input parameter.
  - Greedy action choice is a free choice among the actions of maximal Q-value.

Support modules:
- `Wrappers` holds `Option` and `Result`.
- `Strings` holds Python's `str(int)` and its round trip.
- `Json` holds the JSON values a request field can carry: `None`, an int, a
  float with its Python `str` text, or a string.

## Model

| member | source | states |
|---|---|---|
| Strings.IntToString | api/rl_model.py:82 | the decimal text of an int is non-empty and starts with '-' exactly when the int is negative |
| Strings.ParseNatToString | api/rl_model.py:82 | reading back the decimal text of a natural number gives the number |
| Strings.IntToStringInjective | api/rl_model.py:82 | two ints with the same decimal text are equal |
| StudentAnalysis.Clamp | src/lib/api.ts:140 | `Math.max(lo, Math.min(hi, x))` lies in lo..hi: x itself inside the range, lo below it, hi above it |
| StudentAnalysis.JsRound | src/lib/api.ts:141-144 | `Math.round(num/den)` is the integer r with r - 1/2 <= num/den < r + 1/2 |
| StudentAnalysis.JsRoundMonotone | src/lib/api.ts:141-144 | rounding never reverses the order of two values |
| StudentAnalysis.BaselineFromPriorGrades | src/lib/api.ts:78-84 | scoring starts at 11.5 when G1 = G2 = 0, at the mean of both grades when both are positive, and at the single positive grade otherwise |
| StudentAnalysis.AccumulateScore | src/lib/api.ts:78-137 | the score accumulated in place equals the baseline plus the twenty adjustments, taken in source order |
| StudentAnalysis.ApplyRecordFactors | src/lib/api.ts:86-117 | the in-place updates for failures, higher education, study time, alcohol, absences, romance, going out, family relations and parental education reach the specified prefix score |
| StudentAnalysis.ApplySupportFactors | src/lib/api.ts:119-124 | the updates for school support, family support, paid classes, activities and nursery reach the next prefix score |
| StudentAnalysis.ApplyCircumstanceFactors | src/lib/api.ts:126-137 | the updates for internet, travel time, free time and age reach the full raw score |
| StudentAnalysis.PredictedG3 | src/lib/api.ts:139-141 | the predicted grade lies in 0..20 for every input |
| StudentAnalysis.CookedScore | src/lib/api.ts:143-145 | the cooked score lies in 1..10 for every input and is at least 9 when failures >= 3 |
| StudentAnalysis.OneMoreFailureShift | src/lib/api.ts:86-87 | one more failure lowers every prefix of the score by exactly 1.8 |
| StudentAnalysis.FailuresOnlyInOneStep | src/lib/api.ts:86-137 | no adjustment other than the failures step depends on the failure count |
| StudentAnalysis.MoreFailuresNeverHelp | src/lib/api.ts:86-145 | one more failure, all else fixed, never raises the predicted grade and never lowers the cooked score |
| StudentAnalysis.RiskTiers | src/lib/api.ts:147-159 | the tier is Super Cooked iff p < 7, Cooked iff 7 <= p < 10, Mid iff 10 <= p < 14, Academic Weapon iff p >= 14; a lower grade never gives a less severe tier |
| StudentAnalysis.ProbabilityOfFailing | src/lib/api.ts:147-160 | the failure probability lies in 1..99 |
| StudentAnalysis.FailureProbabilityCases | src/lib/api.ts:147-160 | the probability is 5 for p >= 14, 30 - 5(p - 10) for 10 <= p < 14, and at least 84 for p < 10 |
| StudentAnalysis.FiredUpToRanked | src/lib/api.ts:163-173 | the pushed messages appear in evaluation order, and each is the message of a trigger that fired |
| StudentAnalysis.FiredUpToMembers | src/lib/api.ts:163-173 | a trigger's message is pushed exactly when its condition holds |
| StudentAnalysis.RecommendationsContract | src/lib/api.ts:162-175 | the list is never empty; it holds Giga-Chad exactly when no trigger fires, and then holds it alone; each message is present iff its trigger fires; every entry is Giga-Chad or the message of a trigger that fired; messages are in evaluation order |
| StudentAnalysis.PushRecommendations | src/lib/api.ts:162-175 | the list built by pushes equals the specified recommendation list, so it is non-empty |
| StudentAnalysis.PushHabitAdvice | src/lib/api.ts:164-168 | the pushes for failures, study time, alcohol, absences and higher education give the first five triggers' messages |
| StudentAnalysis.PushCircumstanceAdvice | src/lib/api.ts:169-173 | the pushes for romance, parental education, travel, free time and internet extend that list with the next five |
| StudentAnalysis.RadarData | src/lib/api.ts:183-190 | six entries with fullMark 100; the reference side lies in 0..100; for inputs in the commented domains the student side lies in 0..100 |
| StudentAnalysis.RadarReferenceFixed | src/lib/api.ts:183-190 | subjects and reference values are the same for every student |
| StudentAnalysis.FactorImpacts | src/lib/api.ts:191-198 | six entries; study habits are positive iff studytime > 2, past failures iff failures = 0, absences iff fewer than 4; current grades are never negative |
| StudentAnalysis.AnalyzeStudentPerformance | src/lib/api.ts:72-200 | the returned record has every property above: grade 0..20, cooked 1..10 with the failures floor, tier and probability from the grade, the recommendation list, and the radar and impact series |
| CalculationService.CategoricalToScore | src/lib/calculationService.ts:43-49 | a rating maps into (0, 1] |
| CalculationService.CategoricalToScoreIncreasing | src/lib/calculationService.ts:43-49 | Low < Medium < High, in both directions |
| CalculationService.PeerInfluenceToScore | src/lib/calculationService.ts:51-57 | peer influence maps into 0..1 |
| CalculationService.PeerInfluenceOrdering | src/lib/calculationService.ts:51-57 | Positive scores above Neutral, which scores above Negative |
| CalculationService.EducationLevelToScore | src/lib/calculationService.ts:59-65 | an education level maps into (0, 1] |
| CalculationService.EducationLevelToScoreIncreasing | src/lib/calculationService.ts:59-65 | higher education levels score strictly higher, in both directions |
| CalculationService.DistanceToScore | src/lib/calculationService.ts:67-73 | a distance maps into (0, 1] |
| CalculationService.DistanceToScoreDecreasing | src/lib/calculationService.ts:67-73 | Near > Moderate > Far, in both directions |
| CalculationService.NormalizeValue | src/lib/calculationService.ts:78-82 | for max(optimal, max - optimal) > 0 the result lies in 0..1 and is 1 exactly when the value is the optimum |
| CalculationService.NormalizeValueCloserIsBetter | src/lib/calculationService.ts:78-82 | a value closer to the optimum never scores lower |
| CalculationService.Weight | src/lib/calculationService.ts:20-38 | every weight lies strictly between 0 and 1 |
| CalculationService.WeightsSumToOne | src/lib/calculationService.ts:20-38 | the sixteen weight keys are distinct, cover every factor, and their weights sum to exactly 1 |
| CalculationService.FactorScore | src/lib/calculationService.ts:105-123 | every factor score lies in 0..1, provided previousScores is in 0..100 for that factor |
| CalculationService.WeightedSumBounds | src/lib/calculationService.ts:125-129 | each prefix of the weighted sum lies between 0 and the sum of its weights |
| CalculationService.CompositeInUnitInterval | src/lib/calculationService.ts:125-129 | with previousScores in 0..100 the composite lies in 0..1 |
| CalculationService.CompositeScore | src/lib/calculationService.ts:125-129 | the accumulating loop over the weight table computes the composite |
| CalculationService.JsRound | src/lib/calculationService.ts:132 | `Math.round(x)` is the integer r with r - 1/2 <= x < r + 1/2 |
| CalculationService.CookedFromCompositeRange | src/lib/calculationService.ts:131-132 | for a composite in 0..1 the unclamped cooked score lies in 1..10, so the later clamp changes nothing; a larger composite never gives a higher score |
| CalculationService.Clamp | src/lib/calculationService.ts:147 | the final clamp lies in 1..10 and keeps a value already in range |
| CalculationService.RiskLevelThresholds | src/lib/calculationService.ts:155-160 | Low iff <= 3, Medium iff 4..5, High iff 6..7, Critical iff >= 8; a higher score is never a less severe level |
| CalculationService.BuildFactorAnalysis | src/lib/calculationService.ts:162-209 | six factors carrying their table weights, with the support weight the sum of two; support is never negative |
| CalculationService.FactorAnalysisImpacts | src/lib/calculationService.ts:162-209 | study hours are positive iff within 14..26 hours, motivation follows the rating, support is positive iff both its scores reach 0.7 |
| CalculationService.FiredTipsRanked | src/lib/calculationService.ts:214-237 | the pushed tips appear in evaluation order, and each tip's condition holds |
| CalculationService.FiredTipsMembers | src/lib/calculationService.ts:214-237 | a tip is pushed exactly when its condition holds |
| CalculationService.RecommendationListContract | src/lib/calculationService.ts:211-245 | 1..5 tips; the fallback appears iff no condition fires, and then alone; otherwise every fired tip when at most five fire, and the first five when more fire, in evaluation order |
| CalculationService.GenerateRecommendations | src/lib/calculationService.ts:211-245 | the list built by pushes and the final slice is the specified tip list |
| CalculationService.PushStudyTips | src/lib/calculationService.ts:214-225 | the pushes for study hours, attendance, sleep and motivation give the first four conditions' tips |
| CalculationService.PushLifestyleTips | src/lib/calculationService.ts:226-237 | the pushes for peers, tutoring, physical activity and extracurriculars extend it with the next four |
| CalculationService.BuildComparisonData | src/lib/calculationService.ts:247-277 | three arrays of length 6; categories and passing averages are fixed; user scores lie in 0..200 within the survey's slider ranges |
| CalculationService.CalculateCookedScore | src/lib/calculationService.ts:93-153 | the result carries the clamped cooked score in 1..10, the risk level of the unclamped score (equal to the clamped one when previousScores is in 0..100), the factor analysis, the tips and the comparison data |
| RlModel.GetReward | api/rl_model.py:33-38 | the reward is 1.0 exactly for "true", and -0.5 otherwise |
| RlModel.GetTargetAdjustment | api/rl_model.py:40-48 | +1 exactly for "higher", -1 exactly for "lower", 0 for anything else |
| RlModel.Clip | api/rl_model.py:164 | `np.clip` lies in lo..hi and keeps a value already in range |
| RlModel.StateKeyWithoutFeatures | api/rl_model.py:80-93 | with no features the key is exactly "score_" followed by the score |
| RlModel.KeyScoreTextOfStateKey | api/rl_model.py:80-93 | the text between "score_" and the next underscore of a key is the score's decimal text |
| RlModel.StateKeyDeterminesScore | api/rl_model.py:80-93 | two equal state keys come from the same score, whatever the features |
| RlModel.MaxQ | api/rl_model.py:108-109 | the maximum Q-value over the five actions bounds each of them and is attained by one |
| RlModel.BestActions | api/rl_model.py:110-111 | the tie list is non-empty, and every action in it has the maximal Q-value |
| RlModel.QLearnedChangesOneEntry | api/rl_model.py:114-130 | the update sets Q(s,a) to Q + alpha(r + gamma max Q(s', .) - Q) and leaves every other lookup, missing ones reading 0.0, unchanged |
| RlModel.QLearningMovesTowardTarget | api/rl_model.py:124-125 | for a learning rate in 0..1 the new Q-value lies between the old value and the target |
| RlModel.FeedbackStepAgreesWithRLFeedback | api/rl_model.py:33-48 | the layer's optimal action equals `get_target_adjustment`; its reward equals `get_reward` only for "true", and is always positive |
| RlModel.FeedbackTouchesOptimalAction | api/rl_model.py:138-168 | feedback changes only Q(state of the score and features, optimal action), and only for valid feedback |
| RlModel.QLearnedKeepsNonNegative | api/rl_model.py:114-130 | with a non-negative reward, an update keeps every Q-value non-negative |
| RlModel.FeedbackKeepsNonNegative | api/rl_model.py:138-168 | feedback keeps every Q-value non-negative |
| RlModel.QLearnedFreshState | api/rl_model.py:114-130 | after a positive reward in an unseen state, the updated action beats every other action in it |
| RlModel.FeedbackTeachesOptimalAction | api/rl_model.py:138-168 | after feedback on an unseen state, the feedback's optimal action is the unique best action there |
| RlModel.RLAdjustmentLayer.constructor | api/rl_model.py:61-78 | the rates are as given; the Q-table and the reward log start empty |
| RlModel.RLAdjustmentLayer.SelectAction | api/rl_model.py:95-112 | greedy selection returns one of the five actions with maximal Q-value in the state |
| RlModel.RLAdjustmentLayer.GetAdjustment | api/rl_model.py:132-136 | the adjustment is a maximal action of the state keyed on the score and features |
| RlModel.RLAdjustmentLayer.UpdateQValue | api/rl_model.py:114-130 | the table becomes the Q-learning update of the old one, and exactly the reward is appended to the log |
| RlModel.RLAdjustmentLayer.ApplyFeedback | api/rl_model.py:138-168 | valid feedback performs one update with its action and reward, towards the state of the clipped next score; other feedback changes nothing |
| RlModel.GreedyAfterFeedback | api/rl_model.py:132-168 | right after feedback on an unseen state, the greedy adjusted score is the score moved by the optimal action and clipped to 1..10 |
| RlModel.Truncate | api/rl_model.py:345 | Python's `int()` truncates toward zero |
| RlModel.BaseScore | api/rl_model.py:345 | the base score lies in 1..10 for every grade prediction |
| RlModel.BaseScoreMonotone | api/rl_model.py:345 | a better predicted grade never gives a higher base score; grade 20 gives 2, grades below 2.2 give 10 |
| RlModel.CountCorrectBounded | api/rl_model.py:386-388 | the number of "true" feedbacks in a history is at most its length |
| RlModel.GetScoreLabel | api/rl_model.py:391-405 | the label is "Unknown" exactly for scores outside 1..10 |
| RlModel.MeanBounds | api/rl_model.py:413-414 | the mean of rewards that lie in a range lies in that range |
| RlModel.AmICookedRLModel.constructor | api/rl_model.py:185-237 | untrained, with empty history and counters and a layer with learning rate 0.1, discount 0.9 and exploration 0.05 |
| RlModel.AmICookedRLModel.PredictScore | api/rl_model.py:326-353 | it fails when untrained; otherwise the score lies in 1..10 and is the base score, or a greedy RL adjustment of it |
| RlModel.AmICookedRLModel.ApplyFeedback | api/rl_model.py:355-389 | invalid feedback fails and changes nothing; otherwise history and corrections grow by one, correct predictions grow iff "true", and the layer learns at the base score's state; correct <= total is kept |
| RlModel.AmICookedRLModel.GetStats | api/rl_model.py:407-426 | accuracy is correct/total, lies in 0..1, and is 0.0 with no feedback; the counts are the history and reward-log lengths |
| MlServer.PyMin | api/ml_server.py:112 | `min(v, cap)` is at most cap and equals v when v <= cap |
| MlServer.PyMax | api/ml_server.py:125 | `max(lo, v)` is at least lo and equals v when v >= lo |
| MlServer.BucketsInRangeAndMonotone | api/ml_server.py:83-108 | both tiers lie in 1..4 and never decrease with the input; bucketing is not idempotent, since 4 hours becomes tier 2 |
| MlServer.FieldIndexOfFieldAt | api/ml_server.py:85-135 | each visited field is visited once, at its position |
| MlServer.ClampsBoundedAndIdempotent | api/ml_server.py:110-135 | each clamp keeps its field within its bounds, and clamping twice is clamping once |
| MlServer.CapsKeepNegatives | api/ml_server.py:111-121 | failures, absences, G1 and G2 are only capped from above, so a negative value passes through unchanged |
| MlServer.NormalizeContract | api/ml_server.py:81-137 | normalisation fails exactly when a visited field holds a string, naming the first one; otherwise it keeps the keys, rewrites each numeric visited field by its rule and leaves None values and all other keys alone |
| MlServer.StepsFailure | api/ml_server.py:81-137 | the steps from any position fail exactly at the first later field that holds a string |
| MlServer.StepsSuccess | api/ml_server.py:81-137 | when they succeed, the steps from any position keep the keys and rewrite exactly the fields from that position on |
| MlServer.NormalizeInputs | api/ml_server.py:81-137 | the in-place rewrite of the dict computes the specified normalisation |
| MlServer.NormalizeTimes | api/ml_server.py:83-108 | bucketing study time and travel time performs the first two steps |
| MlServer.CapCounts | api/ml_server.py:110-115 | capping failures and absences performs the next two steps |
| MlServer.CapGradesClampAge | api/ml_server.py:117-125 | capping G1 and G2 and clamping age performs the next three steps |
| MlServer.ListedFieldStep | api/ml_server.py:127-135 | each iteration of the two field loops clamps one listed field into 0..4 or 1..5 |
| MlServer.DeclaredFieldsAreTheSchema | api/ml_server.py:38-77 | a key has a declared type exactly when it is one of the 29 declared fields |
| MlServer.ValidationErrorsMembers | api/ml_server.py:38-77 | a field is reported exactly when it is declared, present and rejected |
| MlServer.Validate | api/ml_server.py:38-77 | validation succeeds iff every declared field holds None or an accepted value, and then yields the dict without None values; otherwise it lists exactly the rejected fields |
| MlServer.NegativeCountsRejected | api/ml_server.py:58-121 | a negative failures, absences, G1 or G2 survives normalisation and is rejected by its `ge=0` bound |
| MlServer.NormalizedTimesPassBounds | api/ml_server.py:56-108 | after normalisation study time and travel time always pass their 0..4 bounds |
| MlServer.FeaturesDictEmpty | api/ml_server.py:289-296 | the features dict is empty exactly when every declared field is absent or None |
| MlServer.AllNoneBodyHasNoFeatures | api/ml_server.py:289-296 | a body of only None values is normalised and validated to an empty features dict |
| MlServer.ScoreConfidence | api/ml_server.py:303-317 | confidence is Medium exactly for scores 5..8 and High otherwise |
| MlServer.Predict | api/ml_server.py:271-326 | a string in a visited field gives 500, a rejected field gives 422 naming the fields, an untrained model gives 400, no features gives 400; otherwise the score lies in 1..10 with its label, message and confidence |
| MlServer.FeedbackFeatures | api/ml_server.py:349-353 | when /predict accepts a body, feedback is keyed on exactly the features /predict scores for it |
| MlServer.FeedbackAsWrittenMissesPrediction | api/ml_server.py:349-353 | for a body with 4 study hours and no failures, and whatever base scores /predict and feedback compute, the state that feedback updates differs from the state /predict reads, and "higher" feedback leaves every Q-value of the predicted state unchanged |
| MlServer.FeedbackReachesNextPrediction | api/ml_server.py:349-353 | keyed on the predicted features, feedback on an unseen state moves the next greedy prediction for the same body by +1, 0 or -1 as asked, clipped to 1..10 |
| MlServer.FeedbackRequestErrors | api/ml_server.py:167-175 | a feedback request is accepted exactly when predicted_score is in 1..10 and feedback is "true", "higher" or "lower" |
| MlServer.SubmitFeedback | api/ml_server.py:329-376 | a malformed request gives 422 and an untrained model 400, changing nothing; otherwise the model stays trained, appends the feedback to its history, updates its counters and Q-table, and appends the feedback's reward to the reward log; the response reports the new accuracy, feedback count, mean reward and episode count |

## Left out

- The artificial 1.5 s delays and the `async` wrappers: they affect timing only, so both scorers are modelled as synchronous.
- IEEE floating point: `api.ts` is modelled exactly in tenths, and `calculationService.ts` and the Q-learning arithmetic use exact `real`s. Rounding error is not modelled.
- Non-integral numbers in the `api.ts` survey fields: every field is an `int`, as the survey sliders produce.
- HTTP plumbing: routes other than /predict and /feedback, CORS, uvicorn, and `/train`, `/retrain`, `/reset-model`, `/stats`, `/rl-q-table`. Also the `threading.Lock`, which only serialises requests.
- `/average-stats`: pandas statistics over the dataset file.
- sklearn, pandas and pickle:
  - the gradient-boosting model, label encoders, CSV loading and `prepare_features` are left out;
  - the grade prediction is a `real` parameter of prediction and feedback;
  - `save_model`/`load_model` and `base_model_r2` are left out.
- RlModel.RLAdjustmentLayer.SelectAction: models only the greedy branch. Epsilon exploration is random, and the random tie-break among maximal actions is a nondeterministic choice.
- `q_table_size`: the `defaultdict` inserts a row on every read, so its size depends on read history; statistics do not report it.
- `feature_adjustments` in `RLAdjustmentLayer`: it is never read or written after construction.
- The `timestamp` of `RLFeedback`: it is a clock read.
- JSON booleans, lists and objects as field values, and bodies that are not objects: a raw value is None, an int, a float or a string. A float's Python text is an input, not computed.
- NaN and infinities.
- Pydantic's parsing of numeric strings into int fields: normalisation rejects a string in any visited field first. The other int fields accept no string in the model.
- The 500 "Prediction error" path of /predict: it is unreachable once the model is trained, so it is not modelled.
- The 500 "Feedback processing error" path of /feedback, which covers `prepare_features` failing on raw values and `save_model` failing.
- A /feedback body whose `features` is missing or not an object: the request is a record with the features present.
- RlModel.AmICookedRLModel.ApplyFeedback: requires a trained model. The server checks that first, and the partial effect of calling it untrained, which raises after appending to the history, is not modelled.
- CalculationService.NormalizeValue: requires max(optimal, max - optimal) > 0, which every call site meets. A zero divisor would give NaN in JavaScript.
- The long straight-line sequences of in-place updates in `analyzeStudentPerformance`, `generateRecommendations` and `normalize_inputs` are split into a few consecutive methods. Each method performs a block of the source's updates in order.
- `get_reward` is not what `RLAdjustmentLayer.apply_feedback` uses: the layer rewards "higher"/"lower" with +0.5, where `get_reward` gives -0.5. Both are modelled as written, and `RlModel.FeedbackStepAgreesWithRLFeedback` states where they differ.
- MlServer.SubmitFeedback: models the corrected handler described under Findings, which passes the features /predict scores to `apply_feedback`. So both the learned state and the recorded `feedback_history` entry carry those features, where the source keys on and records the request's raw `features`. The as-written state is `MlServer.FeedbackStateAsWritten`.

## Findings

| source | as written | input that shows it | evidently intended | confidence | as-written member | corrected member |
|---|---|---|---|---|---|---|
| api/ml_server.py:349-353 | /feedback passes the request's raw `features` to `apply_feedback`, which keys the Q-table on their `studytime`/`failures` (api/rl_model.py:80-93, 384). /predict keys on the normalised, validated features, where study hours are already bucketed into tiers. | the body `{"studytime": 4, "failures": 0}` sent to both endpoints, as the `good_student` profile of api/test_rl_api.py:84-91 does: /predict reads state `score_<b>_st2_f0`, while feedback updates `score_<b'>_st4_f0`, where b' is the base score from the grade of the raw features (api/rl_model.py:378-384) | feedback should update the state the next prediction for the same body reads. The comment at api/rl_model.py:376-377 and the client's expectation at api/test_rl_api.py:67-69 both say so. | not executed | MlServer.FeedbackAsWrittenMissesPrediction | MlServer.FeedbackReachesNextPrediction |
