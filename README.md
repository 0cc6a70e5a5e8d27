# HeartGuard-AI core, modelled in Dafny

This project models the decision core of HeartGuard-AI, a Flask application that estimates
cardiovascular risk. It covers three parts of the program:

- **The engine**, `HeartDiseasePredictor` in utils/models.py. At start-up it loads a scaler and up
  to five named classifiers, best-effort and in table order. `predict` turns a request dict into the
  twelve-column feature vector, adding a derived BMI to the caller's dict, and projects it onto the
  columns the primary model declares. It predicts with that model, or with a bounded heuristic when
  nothing loaded. `get_lifestyle_suggestions` maps a probability to one of three advice bands.
  `evaluate_models` benchmarks every loaded model once and caches the result. It falls back to fixed
  defaults when a prerequisite is missing or anything raises.
- **The decision rules of app.py**:
  - the lifestyle triage of `predictor_stage1`, with its short-circuit "Low" result;
  - the clinical record, the High/Low rule and the stored percentage of `predictor_stage2`;
  - in `profile`: the streak, the risk chart, the Clinical/Lifestyle test type and the
    highest-risk scan.
- **The assistant's model choice in `get_ai_response`** (utils/services.py): the early "not
  connected" reply without an API key, then the preference of a flash model, a pro model, the first
  listed name, or the default `gemini-2.5-flash`.

The layout follows the program:

| file | module | what it holds |
|---|---|---|
| wrappers.dfy | `Wrappers` | `Option`, and `Result`, which stands for a raised exception |
| text.dfy | `Text` | ASCII lower-casing, substring search, the `{:,}` thousands format |
| ranking.dfy | `Ranking` | the comparison row and the stable descending sort by accuracy |
| predictor.dfy | `Predictor` | the engine as a class, plus the functions that specify it |
| predictor_properties.dfy | `PredictorProperties` | lemmas about the engine |
| app.dfy | `HeartGuardApp` | the app.py rules |
| app_properties.dfy | `AppProperties` | lemmas about the app.py rules |
| services.dfy | `Services` | the reply and the model selection |
| services_properties.dfy | `ServicesProperties` | lemmas about the reply and the selection |

Foreign code reaches the model as parameters. This covers trained models, the scaler, pandas' CSV
reader, `train_test_split`, scikit-learn's metric functions, Python's `round`, joblib loading and
the Gemini client. The engine receives them as the fields of an `Oracles` or `Storage` value, and
the assistant as a `Gemini` value. The calls that may raise return a `Result`: the transform, `predict`,
`predict_proba`, the metric functions and the Gemini calls. The held-out split (`heldOut`) and `round`
are total: they return a value directly.

The pandas dataset is a `Frame` of cells that are finite reals or `NonFinite`, because pandas turns
a zero height into inf or nan instead of raising. The single-record BMI of `predict` is ordinary
Python division, so there a zero height raises.

Three behaviours of the code are easy to miss, and the model keeps them:

- A model that declares a feature the vector lacks raises a `KeyError`, which the code swallows.
  The model then gets the canonical vector (utils/models.py:189-194).
- The lifestyle flags test truthiness, so a field submitted empty counts as 0 (app.py:161-163).
- The highest-risk scan starts at -1.0 and uses a strict `>`. So it is None also when every parsed
  prob is at most -1 (app.py:279-306).

## Model

| member | source | states |
|---|---|---|
| Predictor.HeartDiseasePredictor.constructor | utils/models.py:10-26 | the engine starts with no models, no scaler and an empty cache, then holds the table entries whose files load, in table order, and the scaler if its file loads |
| Predictor.HeartDiseasePredictor.LoadResources | utils/models.py:28-44 | the scaler is replaced only when its file loads; each table entry whose file loads is put into the dict in table order; the names stay distinct |
| Predictor.HeartDiseasePredictor.EvaluateModels | utils/models.py:46-146 | the returned pair and the new cache are exactly what `Respond` gives for the old cache, the models, the scaler, the dataset and the oracles |
| Predictor.HeartDiseasePredictor.Predict | utils/models.py:148-212 | a zero height raises and leaves the dict alone; otherwise the caller's dict gains BMI and the answer is the primary model's (label, probability) on the projected, scaled vector, or the heuristic's when nothing loaded |
| Predictor.Primary | utils/models.py:180 | a primary model exists exactly when some model is loaded, and it is one of them |
| Predictor.FeatureFrame | utils/models.py:168-171 | the vector is a one-row frame with distinct, rectangular columns |
| Predictor.TargetColumn | utils/models.py:79 | the target is 'cardio' whenever present, else the last column; only an empty header raises |
| Predictor.DerivesBmi | utils/models.py:82 | no contract of its own; the condition that BMI is absent and weight and height are present; specified by WithBmiColumn, RunStats and DatasetBmiAgreesWithPredict |
| Predictor.WithBmiColumn | utils/models.py:82-84 | a BMI column is appended exactly when BMI is absent and weight and height are present; every row keeps its cells and gains the BMI cell of its own weight and height; otherwise the dataset is unchanged |
| Predictor.DropColumn | utils/models.py:86 | dropping the target leaves the other columns in their order, without the target, and removes the target cell from every row |
| Predictor.Column | utils/models.py:88 | the label column holds, for each row in order, that row's cell in the target column |
| Predictor.Find | utils/models.py:104 | the position of a key in the dict, or -1: the position holds the key and no earlier entry does, and -1 means no entry does; the lookups `'Gradient Boosting' in self.models` and `self.models.get('Gradient Boosting', …)` (utils/models.py:180) go through it |
| PredictorProperties.DistinctKeysLookup | utils/models.py:104 | with distinct keys, which the engine's invariant keeps, each key looks up its own entry, and a loaded "Gradient Boosting" is the primary model |
| Predictor.Put | utils/models.py:42 | no contract of its own; `models[name] = m` on the dict: an existing key keeps its place, a new key goes last; specified through PutKeepsDistinct and ConstructedModels |
| Predictor.PutAll | utils/models.py:38-44 | no contract of its own; the loader's puts in table order; specified through ConstructedModels and the LoadResources contract |
| Predictor.Loaded | utils/models.py:38-44 | no contract of its own; the table entries whose file is present and loads; specified by LoadedFollowsTable and LoadedNamesDistinct |
| PredictorProperties.LoadedFollowsTable | utils/models.py:38-44 | the loaded models are, in table order, exactly the entries whose file loads, each with its own artifact; a failing file removes only its own entry |
| PredictorProperties.LoadedNamesDistinct | utils/models.py:18-24 | a table with distinct names loads models with distinct names |
| PredictorProperties.ModelFilesKeys | utils/models.py:18-24 | the five table names are distinct and none is "Gradient Boosting" |
| PredictorProperties.ConstructedModels | utils/models.py:12-44 | putting the loaded entries into the empty dict yields exactly the loaded sequence |
| PredictorProperties.PrimaryChoice | utils/models.py:104 | "Gradient Boosting" is primary wherever it is loaded; otherwise the first loaded model is primary |
| PredictorProperties.PrimaryIsFirstLoaded | utils/models.py:104-105 | with the fixed table, the primary model is always the first one loaded |
| Predictor.WithBmi | utils/models.py:155-163 | no contract of its own; the caller's dict with BMI added, or the division error; specified by WithBmiAddsOnlyBmi |
| Predictor.Get | utils/models.py:155-156 | no contract of its own; `dict.get(key, default)` on the record; used by WithBmi, FeatureFrame and Fallback, and stated through WithBmiAddsOnlyBmi and FallbackBounds |
| Predictor.Bmi | utils/models.py:155-157 | no contract of its own; weight over the squared height in metres; its use on both paths is stated by WithBmiAddsOnlyBmi and DatasetBmiAgreesWithPredict |
| Predictor.BmiCell | utils/models.py:84 | no contract of its own; the BMI formula on pandas cells, non-finite for a zero or missing height; specified by DatasetBmiAgreesWithPredict |
| PredictorProperties.WithBmiAddsOnlyBmi | utils/models.py:155-161 | the BMI step raises iff the height (default 165) is zero; otherwise the dict gains exactly the key BMI, equal to weight/(height/100)² with defaults 70 and 165, and every other key keeps its value |
| PredictorProperties.FeatureVectorExact | utils/models.py:168-171 | the vector has the twelve canonical columns in order, each other slot is the input value or 0, and the BMI slot is always the derived BMI |
| Predictor.Project | utils/models.py:187-194 | no contract of its own; `df[model.feature_names_in_]` with the KeyError swallowed; specified by ProjectionSelects, ProjectionMissingName and ProjectionExample |
| PredictorProperties.ProjectionSelects | utils/models.py:187-191 | when every declared name is a column, the projection has exactly the declared columns, in declared order, with those columns' values |
| PredictorProperties.ProjectionMissingName | utils/models.py:192-194 | one declared name that is missing leaves the frame unchanged and raises nothing |
| PredictorProperties.ProjectionExample | utils/models.py:187-202 | a model declaring [age, BMI, ap_hi] selects exactly the age, the derived BMI and ap_hi; when it is the primary model, a successful predict labels with the model's prediction on that three-column frame after the scaler |
| PredictorProperties.InferModelInput | utils/models.py:179-204 | with a model loaded, the primary model is given the canonical vector projected onto its declared columns and then scaled when a scaler is loaded; the label is its first prediction on that frame, the probability is `predict_proba(...)[0][1]` on the same frame when it has predict_proba, and a failing transform, a failing predict or an empty prediction makes predict fail |
| PredictorProperties.InferSeesOnlyProjection | utils/models.py:179-204 | with a model loaded, two requests whose projected vectors are equal get the same answer, whatever the random draws |
| PredictorProperties.InferLabelWithoutProba | utils/models.py:203 | a primary model without predict_proba reports its predicted label as the probability (`float(prediction)`) |
| Predictor.Fallback | utils/models.py:206-212 | no contract of its own; the heuristic score, probability and label; specified by FallbackBounds |
| Predictor.Infer | utils/models.py:179-212 | no contract of its own; the rest of predict once BMI is in the dict; specified by InferModelInput, InferSeesOnlyProjection and InferLabelWithoutProba with a model loaded, and by NoModelsUsesFallback without one |
| Predictor.Scale | utils/models.py:196-200 | no contract of its own; `scaler.transform(df)` when a scaler is loaded, the frame itself otherwise; used as stated by SliceRows and the Predict contract |
| Predictor.FirstRowPositive | utils/models.py:203 | no contract of its own; `predict_proba(df)[0][1]`, raising when the matrix has no such cell; part of Infer, which the Predict contract states |
| PredictorProperties.FallbackBounds | utils/models.py:205-212 | prob = 0.1 + 0.3·[ap_hi>130] + 0.2·[cholesterol>1] + 0.1·draw, with defaults 120 and 1; prob lies in [0.1, 0.7), so the 0.99 cap never applies; the label is 1 iff both conditions hold |
| PredictorProperties.NoModelsUsesFallback | utils/models.py:182-212 | with no model loaded, predict consults no oracle and returns the heuristic |
| Predictor.HeartDiseasePredictor.GetLifestyleSuggestions | utils/models.py:214-220 | no contract of its own; the three advice strings; specified by SuggestionBands and SuggestionMonotone |
| PredictorProperties.SuggestionBands | utils/models.py:214-220 | the three advice strings partition the reals: below 0.3, from 0.3 below 0.7, and from 0.7 |
| PredictorProperties.SuggestionMonotone | utils/models.py:214-220 | a higher probability never gets a milder advice band |
| Predictor.Binarize | utils/models.py:125-126 | no contract of its own; thresholding of regression-style output; specified by BinarizeThresholds, BinarizeKeepsClassifierOutput, BinarizeIdempotent and RegressionExample |
| Predictor.DistinctCount | utils/models.py:125 | no contract of its own; `len(np.unique(y_pred))`; used by Binarize, whose lemmas state the threshold case |
| PredictorProperties.BinarizeThresholds | utils/models.py:125-126 | float64 output with more than two distinct values becomes integer 0/1, with 1 exactly where the value is strictly above 0.5 |
| PredictorProperties.BinarizeKeepsClassifierOutput | utils/models.py:125 | output that is not float64, or has at most two distinct values, is left unchanged |
| PredictorProperties.BinarizeIdempotent | utils/models.py:125-126 | thresholding twice is the same as thresholding once |
| PredictorProperties.RegressionExample | utils/models.py:125-126 | [0.2, 0.81, 0.49, 0.95] becomes [0, 1, 0, 1] |
| PredictorProperties.DefaultComparisonOrdered | utils/models.py:59-65 | the default comparison has one row per table name, in table order, and is already sorted by accuracy descending |
| Predictor.ComparisonRow | utils/models.py:122-134 | no contract of its own; one comparison row from the oracles' metrics; its name is stated by ComparisonRowsFollowModels |
| Predictor.ComparisonRows | utils/models.py:119-135 | no contract of its own; the comparison loop in load order, failing on the first failing model; specified by ComparisonRowsFollowModels |
| Predictor.PositiveColumn | utils/models.py:109 | no contract of its own; `predict_proba(X)[:, 1]`, raising when a row has no second column; part of MainStats, stated through RunStats |
| PredictorProperties.ComparisonRowsFollowModels | utils/models.py:120-135 | the comparison loop yields one row per loaded model, named as the model, in load order |
| Predictor.Slice | utils/models.py:75-102 | no contract of its own; reading the dataset through to the scaled test slice; specified by SliceRows and RunStats |
| Predictor.MainStats | utils/models.py:104-117 | no contract of its own; the primary model's stats; specified by MainStatsScores |
| PredictorProperties.MainStatsScores | utils/models.py:104-117 | the stats carry the model's name, the accuracy of its predicted labels in percent rounded to one decimal, and the ROC-AUC rounded to two decimals, computed on the positive column of predict_proba when the model has it and on the predicted labels otherwise, with the grouped row count and the feature count |
| Predictor.Run | utils/models.py:74-142 | no contract of its own; the try block of evaluate_models; specified by RunComparison and RunStats |
| PredictorProperties.RunComparison | utils/models.py:119-138 | the returned comparison has one row per loaded model, is sorted by acc non-increasing, is a permutation of the load-order rows, and keeps the load order among equal acc |
| PredictorProperties.RunStats | utils/models.py:104-117 | the stats name the primary model, give the row count with thousands separators, and count every column but the target, plus a derived BMI; they are MainStats of the primary on the evaluated slice, so the accuracy is that of its predictions there and, without predict_proba, the ROC-AUC is computed on those predicted labels |
| PredictorProperties.SliceRows | utils/models.py:79-102 | more than 10,000 rows are measured on the held-out split, otherwise every row: the labels are that split's (or all) labels, and the features the models score are that split's (or all) features after the scaler |
| PredictorProperties.DatasetBmiAgreesWithPredict | utils/models.py:82-84 | the dataset's BMI cell of a row with weight w and non-zero height h equals the BMI predict adds to a record with that weight and height; a zero height gives a non-finite cell where predict raises |
| Predictor.Respond | utils/models.py:67-146 | no contract of its own; one evaluate_models call on the cache; specified by FallbackBeforeCache, FailedRunGivesDefaults, SingleCacheWrite, CachedAnswerSticks and EvaluateIdempotent |
| PredictorProperties.FallbackBeforeCache | utils/models.py:67-68 | a missing dataset or an empty model dict gives the defaults whatever the cache holds, and leaves the cache unchanged |
| PredictorProperties.FailedRunGivesDefaults | utils/models.py:144-146 | any exception in a fresh run gives the defaults and leaves the cache empty |
| PredictorProperties.SingleCacheWrite | utils/models.py:140-142 | the cache changes at most once, from empty, only on a successful run, and then holds the pair that call returned |
| PredictorProperties.CachedAnswerSticks | utils/models.py:70-72 | once a pair is cached and the prerequisites hold, it is returned whatever the dataset and the oracles now say |
| PredictorProperties.EvaluateIdempotent | utils/models.py:67-146 | a second call with nothing changed returns the same pair and leaves the cache alone |
| PredictorProperties.EvaluateTwice | utils/models.py:46-146 | two calls in a row on the engine return the same pair |
| Ranking.SortByAccDesc | utils/models.py:138 | no contract of its own; the stable sort by acc, descending; specified by the six Sort lemmas below |
| Ranking.SortIsSorted | utils/models.py:138 | the sort leaves the rows in acc non-increasing order |
| Ranking.SortIsPermutation | utils/models.py:138 | the sort returns a permutation of its input |
| Ranking.SortIsStable | utils/models.py:138 | the rows of each acc value keep their original relative order |
| Ranking.SortFixesSorted | utils/models.py:138 | an already sorted comparison is left unchanged |
| Ranking.SortIdempotent | utils/models.py:138 | sorting twice is the same as sorting once |
| Ranking.SortKeepsNames | utils/models.py:138 | the sorted rows carry the same multiset of model names |
| Ranking.Names | utils/models.py:128-135 | the names column has one name per row, in row order |
| Text.GroupThousands | utils/models.py:115 | no contract of its own; `f"{n:,}"`; specified by GroupThousandsDigits and GroupThousandsSmall |
| Text.GroupThousandsDigits | utils/models.py:115 | removing the separators from the `{:,}` form of a count gives its decimal digits |
| Text.GroupThousandsSmall | utils/models.py:115 | a count below 1000 has no separator |
| Text.Contains | utils/services.py:33 | no contract of its own; Python's `sub in s`, used for 'flash' and 'legacy' (line 33) and 'pro' (line 45); specified through FirstFlash, FirstPro, FlashFirst and ProSecond |
| Text.Lower | utils/services.py:33 | lower-casing keeps the length, maps each upper-case ASCII letter to its lower-case letter and changes nothing else |
| HeartGuardApp.LifestyleSession | app.py:158-163 | a stage-one POST always writes the three lifestyle flags |
| HeartGuardApp.PredictorStage2 | app.py:183-213 | the outcome is exactly `ClinicalStep` on the session, the form and the engine's models and scaler; the dict logged is the one predict extended with BMI |
| HeartGuardApp.ChartSeries | app.py:259-276 | labels and data have equal length, and position k of both is the k-th chart point over the history taken in reverse |
| HeartGuardApp.ProfileTests | app.py:279-312 | the table is the rows whose result and input decode and whose prob is a number, in history order; the highest-risk test is the first of maximal prob above -1.0; it is None exactly when no prob exceeds -1.0 |
| HeartGuardApp.PredictorStage1 | app.py:157-175 | no contract of its own; the stage-one POST; specified by LifestyleFlags, TriageDecision and ShortCircuitResult |
| HeartGuardApp.ClinicalRecord | app.py:185-197 | no contract of its own; the stage-two record; specified by ClinicalDefaults, ClinicalRecordShape and NoneBlocksRecord |
| HeartGuardApp.RiskLabel | app.py:199 | no contract of its own; the High/Low label; specified by RiskRule |
| HeartGuardApp.Score | app.py:199-201 | no contract of its own; the result dict of an assessment; specified by AssessedRecordIsClinical and LabelAdviceDisagree |
| HeartGuardApp.Streak | app.py:244-247 | no contract of its own; the streak; specified by StreakRule |
| HeartGuardApp.TestType | app.py:298-301 | no contract of its own; the test type; specified by TestTypeRule |
| HeartGuardApp.ChartValue | app.py:274 | no contract of its own; the chart scaling; specified by ChartScaling |
| HeartGuardApp.LabelsAsWritten | app.py:259-265 | no contract of its own; the labels the chart loop appends as written; specified by LabelsFollowPoints and ChartMisalignedAsWritten |
| HeartGuardApp.DataAsWritten | app.py:259-276 | no contract of its own; the values the chart loop appends as written; specified by DataFollowsPoints and ChartMisalignedAsWritten |
| HeartGuardApp.Points | app.py:259-276 | no contract of its own; the chart points, oldest first; specified by ChartOldestFirst and the ChartSeries contract |
| HeartGuardApp.AsTest | app.py:283-301 | no contract of its own; one history row as a table entry; specified by RecentTestsTyped |
| HeartGuardApp.RecentTests | app.py:282-308 | no contract of its own; the table rows in history order; specified by RecentTestsAllParse, RecentTestsTyped and the ProfileTests contract |
| HeartGuardApp.Flag | app.py:161-163 | no contract of its own; `1 if request.form.get(key) else 0`; specified by LifestyleFlags |
| HeartGuardApp.Keep | app.py:158-160 | no contract of its own; `session[...] = request.form.get(key)`, None when absent; specified by LifestyleFlags and MissingMeasureBlocksClinical |
| HeartGuardApp.LifestyleAge | app.py:166 | no contract of its own; `float(request.form.get("age", 30))`; specified by TriageDecision |
| HeartGuardApp.IsRiskyLifestyle | app.py:167 | no contract of its own; the triage predicate; specified by TriageDecision and ShortCircuitResult |
| HeartGuardApp.SessionFlag | app.py:194-196 | no contract of its own; `session.get('p_smoke', 0)` and the like: the stored flag, or the default when absent; specified by ClinicalRecordShape and ClinicalDefaults |
| HeartGuardApp.SessionFloat | app.py:186-189 | no contract of its own; `float(session.get(key, default))`, raising on None or text; specified by ClinicalRecordShape and NoneBlocksRecord |
| HeartGuardApp.FormFloat | app.py:190-191 | no contract of its own; `float(request.form.get(key, default))`; specified by ClinicalRecordShape and ClinicalDefaults |
| HeartGuardApp.FormInt | app.py:187-193 | no contract of its own; `int(request.form.get(key, default))`; specified by ClinicalRecordShape and ClinicalDefaults |
| HeartGuardApp.RecordMap | app.py:185-197 | no contract of its own; the eleven-key data dict; specified by ClinicalRecordShape |
| HeartGuardApp.Alerts | app.py:206-207 | no contract of its own; whether the risk alert is sent; specified by AssessedRecordIsClinical |
| HeartGuardApp.ClinicalStep | app.py:184-213 | no contract of its own; the stage-two POST; it is what the PredictorStage2 contract is stated in terms of, and it is specified by AssessedRecordIsClinical, AssessedScore, MissingMeasureBlocksClinical and NoModelHighIffBoth |
| HeartGuardApp.ProbFloat | app.py:267 | no contract of its own; `float(res["prob"])`, None when it raises; specified by ChartMisalignedAsWritten and LabelsFollowPoints |
| HeartGuardApp.Point | app.py:264-275 | no contract of its own; one chart point of a row; specified by ChartOldestFirst, DataFollowsPoints and the ChartSeries contract |
| AppProperties.LifestyleFlags | app.py:158-163 | smoke, alco and active are 1 exactly when their field was submitted non-empty, and always 0 or 1; age, weight and height are kept as submitted, None when missing |
| AppProperties.TriageDecision | app.py:166-170 | an unconvertible age raises; otherwise the record goes to the clinical step iff age > 45 (default 30), or smoke = 1, or active = 0, or alco = 1 |
| AppProperties.ShortCircuitResult | app.py:171-175 | a non-risky record yields exactly {Low, 10.0, the healthy advice} and logs exactly age (at most 45), smoke 0, alco 0 and active 1, a record typed Lifestyle |
| AppProperties.ClinicalDefaults | app.py:185-197 | with an empty session and form the record is 18250 days (50 years), gender 1, 165 cm, 70 kg, 120/80, cholesterol 1, glucose 1, smoke 0, alco 0, active 1 |
| AppProperties.ClinicalRecordShape | app.py:185-197 | a built record has exactly the eleven keys; its age is 365 times the session's years; height, weight and the three flags come from the session, gender, ap_hi, ap_lo, cholesterol and gluc from the form, each with its default |
| AppProperties.MissingMeasureBlocksClinical | app.py:158-160 | a stage-one form without age, weight or height stores None, and every later clinical POST then falls back to the form |
| AppProperties.NoneBlocksRecord | app.py:186-189 | float(None) on the session's age, height or weight makes the record raise |
| AppProperties.AssessedRecordIsClinical | app.py:198-208 | an assessment logs the record with BMI added, which profile types as Clinical; the alert goes out iff the session has a non-empty e-mail address |
| AppProperties.AssessedScore | app.py:198-201 | an assessment's risk is the label of the engine's class and probability, its prob is round(prob·100, 1) and its advice is the band of the probability |
| AppProperties.RiskRule | app.py:199-200 | the label is High iff pred == 1 or prob > 0.5; a prob of 0.7 or more is always High; a Low label never comes with the high-risk advice |
| AppProperties.LabelAdviceDisagree | app.py:199-200 | label and advice are decided separately: class 1 at prob 0.1 is High with the "looks good" advice, and prob 0.62 is High with the moderate advice |
| AppProperties.NoModelHighIffBoth | app.py:198-199 | with no model loaded, a record is High iff ap_hi > 130 and cholesterol > 1, whatever the random draw |
| AppProperties.StreakRule | app.py:244-247 | the streak is 0 or 1, and it is 1 iff the newest activity is dated today |
| AppProperties.TestTypeRule | app.py:298-301 | a test is Clinical iff its input_data has ap_hi, and Lifestyle otherwise |
| AppProperties.ChartScaling | app.py:274 | a prob in [0, 1] is charted as prob·100, within [0, 100]; a prob above 1 is charted unchanged |
| AppProperties.ChartRescalesSmallPercent | app.py:267-274 | stored results are already percentages, so a stored 1.0 is charted as 100, above the short-circuit's 10 |
| AppProperties.ChartOldestFirst | app.py:259 | when every row charts, there is one point per row and point k comes from history row n-1-k, oldest first |
| AppProperties.DataFollowsPoints | app.py:267-275 | the values the loop appends are always the points' values |
| AppProperties.LabelsFollowPoints | app.py:264-265 | wherever every decoded, dated row has a convertible prob, the labels the loop appends are the points' labels |
| AppProperties.ChartMisalignedAsWritten | app.py:261-276 | as written, a row with a decodable result, a valid timestamp and no convertible prob adds a label but no value |
| AppProperties.RecentTestsAllParse | app.py:282-308 | when every row parses, the table lists every row, in history order |
| AppProperties.RecentTestsTyped | app.py:297-304 | each table row is typed from its own input_data and carries its own numeric prob |
| Services.SelectTargetModel | utils/services.py:28-55 | the collected names and the chosen model are exactly `Collected` and `Selection` of the listing |
| Services.GetAiResponse | utils/services.py:13-95 | the reply and the model asked are exactly `AiReply` of the key, the prompt, the context and the client |
| Services.FirstFlash | utils/services.py:31-38 | the first position whose lower-cased name contains "flash" and not "legacy", or the length when there is none |
| Services.FirstPro | utils/services.py:43-47 | the first position whose lower-cased name contains "pro", or the length when there is none |
| Services.Collected | utils/services.py:29-40 | no contract of its own; the names the listing loop collects; specified by CollectedPrefix, NoLaterNamesInspected and the SelectTargetModel contract |
| Services.Selection | utils/services.py:28-55 | no contract of its own; the preference rule; specified by FlashFirst, ProSecond, FirstNameOrDefault, SelectionIsCollectedOrDefault, SelectionNonEmpty and SelectionIdempotent |
| Services.AiReply | utils/services.py:13-95 | no contract of its own; the reply and the model asked; specified by NoKeyNoModel and ConnectedReply |
| Services.Chosen | utils/services.py:43 | no contract of its own; the truthiness behind `not target_model` (lines 43, 50 and 54); stated through the SelectTargetModel contract, which equates the method's choice with Selection |
| Services.IsFlash | utils/services.py:33 | no contract of its own; the flash test on the lower-cased name; specified by FirstFlash and FlashFirst |
| Services.IsPro | utils/services.py:45 | no contract of its own; the pro test on the lower-cased name; specified by FirstPro and ProSecond |
| ServicesProperties.NoKeyNoModel | utils/services.py:13-20 | a missing or empty API key gives the fixed "not fully connected" reply, and no model is asked |
| ServicesProperties.ConnectedReply | utils/services.py:22-95 | with a key and a working client, the selected model is asked; its text is the reply, and an error becomes the apology carrying the error text |
| ServicesProperties.SelectionIsCollectedOrDefault | utils/services.py:28-55 | the chosen model is a collected (so a listed) name, or the default literal |
| ServicesProperties.CollectedPrefix | utils/services.py:29-40 | the collected names are the listing's prefix that ends at the first flash name |
| ServicesProperties.FlashFirst | utils/services.py:31-38 | when some listed name is flash, the choice is flash and no earlier name is |
| ServicesProperties.ProSecond | utils/services.py:43-47 | without flash names, when some name is pro, the choice is the first pro name |
| ServicesProperties.FirstNameOrDefault | utils/services.py:50-55 | with neither, the choice is the first name; with no names, or an empty first name, it is "gemini-2.5-flash" |
| ServicesProperties.NoLaterNamesInspected | utils/services.py:29-40 | names after the first flash name, including a listing that later fails, change neither the collected names nor the choice |
| ServicesProperties.SelectionNonEmpty | utils/services.py:43-55 | the chosen model name is never empty |
| ServicesProperties.SelectionIdempotent | utils/services.py:28-55 | choosing again among just the chosen name gives the same name |

## Left out

- joblib, pandas and scikit-learn are oracles. This covers loading, `read_csv`, `scaler.transform`,
  `predict`, `predict_proba`, `train_test_split` and the metric functions. The model sees only each
  call's result or its raised error. The held-out split is an oracle applied only above 10,000 rows.
- HeartGuardApp.Score, Predictor.MainStats and Predictor.ComparisonRow: IEEE floats and `round` are
  not modelled. Arithmetic is on reals, and `round(x, n)` is the abstract oracle `o.round`. The
  stored percentage and the metrics are therefore stated as `o.round(…)` without their decimal
  properties. The rest of the engine, `Predict` included, also computes on reals.
- The list-input path of `predict` (utils/models.py:173-177) is not modelled. The app never calls
  it.
- `predict` receives the `feature_names_in_` of the primary model as data (`featureNames`).
  `hasattr` checks become fields of the classifier. `predict_proba` on a classifier with fewer than
  two columns raises.
- Python's `float()` and `int()` on form text are not modelled. Each form field carries their result
  (`asFloat` and `asInt`).
- Unicode case mapping is not modelled. `Lower` folds ASCII letters only.
- Flask routing, `session` as a whole, `render_template`, `redirect` and the HTTP method checks
  are not modelled. Neither are the `print` calls and the chat context assembly in app.py.
- Services.Collected and Services.Selection: model names are strings. A listed model whose name is
  None is not modelled. In the source, None is appended to `all_models` and `.lower()` raises.
  The listing's handler catches that and the listing ends (utils/services.py:32-40). The pro
  loop's `.lower()` then raises in the outer try, which gives the apology reply
  (utils/services.py:44-45, 93-95).
- The `print` calls of utils/models.py (load and evaluation errors) and utils/services.py (the
  `[AI Debug]` lines) are console output only and are left out.
- utils/db.py (SQLite and file migration) is left out.
- Text.GroupThousandsDigits: the `{:,}` format is modelled through its digits, not through where
  the commas fall.
- How `strptime`/`strftime` turn a timestamp into a chart label is left out. A history row carries
  the label, or None when the timestamp does not parse.
- `json.loads`, including the double-decoding fallback, is not modelled. A history row arrives
  already decoded into the prob of its result and the keys of its input_data.
- The routes other than the two predictor stages and the profile handler are left out: login,
  register, admin, tests, insights and chat.
- The e-mail side is left out: `send_risk_alert` and `send_otp_email` (SMTP I/O). The model keeps
  only whether an alert is sent.
- The network calls of get_ai_response are left out: creating the client, listing the models and
  generating content are fields of a `Gemini` value. The listing is the names yielded before it
  ended or raised. The system-prompt text assembled around the prompt is not modelled.
- utils/tracking.py (CSV and Streamlit I/O), utils/auth.py (streamlit_authenticator) and
  check_models_new.py (a network listing script) are not part of this model.
- HeartGuardApp.ChartSeries: it models the corrected chart loop. The loop as written is
  `LabelsAsWritten` and `DataAsWritten` (see Findings).

## Findings

| source | as written | input that shows it | evidently intended | confidence | as-written member | corrected member |
|---|---|---|---|---|---|---|
| app.py:259-276 | the chart label is appended before the stored prob is converted, so a row whose prob is missing or non-numeric adds a label without a value and shifts every later label against its value | a history row with a decodable result that lacks 'prob' (for example a migrated legacy record) and a valid timestamp: labels ["Oct 14"], data [] | a row adds its label and its value together or not at all, so labels[k] names data[k] | not executed; the app's own writes always store a numeric prob, so only migrated or hand-edited rows trigger it | AppProperties.ChartMisalignedAsWritten | HeartGuardApp.ChartSeries |
