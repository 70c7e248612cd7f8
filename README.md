# Student dropout-risk rules

A model of the hand-written rules of a small student-dropout-risk system.
The system turns a Lithuanian student survey into a training table, trains
three classifiers and keeps the one with the best recall. It then predicts,
for a student record, whether the student intends to quit, with a risk tier,
an explanation and a grade outlook. Two scripts add synthetic at-risk
students to the data.

The model covers the deterministic logic of that pipeline:

- the survey-cell cleaners;
- the label and tier rules;
- the decision threshold and the fixed-order explanation;
- the grade outlook;
- model selection by recall and the order in which artifacts are saved;
- the importance ranking;
- the synthetic generators and the table steps the scripts perform with
  pandas: select, mean imputation, `dropna`, masks, `concat` and
  `DataFrame(rows)`.

Modules:

| module | file | models |
|---|---|---|
| `Schema` | schema.dfy | cell values, column names (the twelve features, the intent score `ketinu_mesti_studijas`, the label `rizika`), the survey headers and their renaming, the error kinds |
| `Numbers` | numbers.dfy | Python's `str.strip`, `replace`, `float()` on decimal notation, the `\d+\.?\d*` token search, sums and averages |
| `Table` | table.dfy | a column-major data frame and the pandas operations the scripts use |
| `Random` | random.dfy | numpy draws as arbitrary values in their declared ranges, `np.clip`, `int()`, `round(x, 1)` |
| `Utils` | utils.dfy | `utils.py` |
| `Normalize` | normalize.dfy | `normalize_data.py` |
| `Predict` | predict.dfy | `predict.py` |
| `Train` | train.dfy | `train_model.py` |
| `BetterSynthetic` | better_synthetic.dfy | `generate_better_synthetic.py` |
| `Synthetic` | synthetic.dfy | `generate_synthetic_data.py` |
| `Preparation` | preparation.dfy | `data_preparation.py` |

### Conventions

**Cells.** A cell is `Missing`, `Num(x)` with `x` a real, or `Text(s)`.
`Missing` stands for NaN, the value pandas gives an empty cell: any
comparison with NaN is false, so a missing cell never fires a threshold.
Where the model compares cells, comparing text with a number raises a
TypeError, and the model returns that as an `Err`. A Python `None` is read
as NaN; "## Left out" says where Python would raise on it instead.

**Frames.** A `Frame` holds its height, its column names and one cell
sequence per name.

**Exceptions.** An exception the modelled code raises on its inputs
becomes an `Err` of a `Result`. The exceptions the model does not capture
are listed under "## Left out".

**Randomness.** Every random draw is read from an `Rng` value indexed by
the row and the call site. So everything proved about a generator holds for
every outcome of the draws.

**Opaque library code.** The classifiers, the scaler, SMOTE and the metrics
are function parameters.

## Model

| member | source | states |
|---|---|---|
| Utils.CreateRiskLabel | utils.py:10-16 | the label is 1 exactly for a numeric score of at least 4 and 0 for every other number or a missing score; text raises |
| Utils.RiskLabelScale | utils.py:10-16 | scores 1 to 3 (and 3.5) label 0, scores 4 and 5 label 1 |
| Utils.RiskLabelMonotone | utils.py:10-16 | a higher intent score never gives a lower label |
| Utils.RiskColumn | utils.py:24-26 | the labelled column has one cell per row, each the label of that row's score; it fails exactly when a cell holds text |
| Utils.RiskColumnBinary | utils.py:24-26 | every label cell is 0 or 1, and 1 exactly where the score is a number of at least 4 |
| Utils.GetFeatureColumns | utils.py:30-47 | twelve distinct feature columns in a fixed order, from attendance to financial stress |
| Utils.FeatureColumnsComplete | utils.py:34-47 | every feature of the schema is in the list |
| Utils.FeatureNamesDistinct | utils.py:34-47 | different features have different internal names |
| Utils.PrepareFeatures | utils.py:49-58 | the output has exactly the requested columns in the requested order and the input's row count |
| Utils.PrepareFeaturesSpec | utils.py:53-56 | the call succeeds exactly when every requested column exists and holds no text; present cells are unchanged, missing cells take the column mean, and a column with no present cell stays as it was |
| Utils.TierOf | utils.py:101-109 | exactly one tier: high iff the probability is at least 0.60, medium iff it is in [0.30, 0.60), low iff it is below 0.30 |
| Utils.TierMonotone | utils.py:101-109 | a higher probability never gives a lower tier |
| Utils.TierLabelsDistinct | utils.py:101-109 | the three tiers carry three different `risk_level` strings |
| Utils.ChosenProbability | utils.py:95-98 | `risk_probability` overrides `probability` when it is supplied |
| Utils.InterpretPrediction | utils.py:90-118 | the prediction is returned unchanged, the confidence is 100 times the chosen probability, and the tier is the tier of the chosen probability |
| Utils.TierFromConfidence | utils.py:101-111 | the tier can be read back from the confidence: high from 60, medium from 30 up to 60, low below 30 |
| Utils.RiskProbabilityOverrides | utils.py:95-98 | with a risk probability supplied, the plain probability has no effect on the result |
| Table.ImputeMeanSpec | utils.py:56 | `fillna(mean)` keeps present cells, gives each missing cell the mean of the present ones, leaves an all-missing column alone, and keeps the mean unchanged |
| Table.Select | utils.py:53 | `df[cs]` succeeds exactly when every requested column exists; it then gives those columns in the requested order with the frame's own cells; otherwise the KeyError names a requested column that is absent |
| Table.KeptSpec | normalize_data.py:104 | `dropna(subset=[label])` keeps exactly the rows with a present label, in their original order |
| Table.ConcatSpec | generate_better_synthetic.py:151 | every column of a concatenation holds the first frame's cells and then the second frame's, missing where a frame lacks the column |
| Table.MatchingSpec | generate_better_synthetic.py:131 | the mask `df[c] == v` keeps exactly the rows holding `v`, in their original order |
| Table.FrameOfRowsAt | generate_better_synthetic.py:72 | each cell of `pd.DataFrame(rows)` is that row's entry for the column, or missing where the row has none |
| Numbers.ParseDecimal | normalize_data.py:14 | `float` parses `ip.fp` to its decimal value |
| Numbers.ParseFloatChars | normalize_data.py:14 | `float` accepts only digits, one point, a sign and surrounding blanks |
| Numbers.ParseFloatNonNegative | normalize_data.py:34 | without a minus sign `float` never yields a negative number |
| Numbers.DeleteMembers | normalize_data.py:27 | `replace(c, '')` removes exactly the occurrences of `c` |
| Numbers.NumberTokensNonNegative | normalize_data.py:30 | every token the `\d+\.?\d*` search finds is non-negative |
| Normalize.Clamp | normalize_data.py:15-19 | the result is in [0, 100], values inside are kept, values above become 100 and values below become 0 |
| Normalize.CleanPercentage | normalize_data.py:8-21 | missing gives None; any result is in [0, 100]; a number cell is clamped |
| Normalize.PercentSignIgnored | normalize_data.py:12 | a `%` anywhere in the text does not change the result, so "85%" cleans like "85" |
| Normalize.DecimalCommaIsPoint | normalize_data.py:12 | a decimal comma reads as a decimal point, so "85,0" cleans like "85.0" |
| Normalize.DigitsPercentage | normalize_data.py:12-19 | a digit string cleans to its value, clamped to [0, 100] |
| Normalize.CommaPercentage | normalize_data.py:12-19 | a decimal with a comma cleans to its value, clamped |
| Normalize.NegativePercentage | normalize_data.py:17-18 | a negative number cleans to 0 |
| Normalize.CleanNumber | normalize_data.py:23-36 | missing gives None, and no result is ever negative |
| Normalize.NumberTextHasNoDash | normalize_data.py:27-29 | the text that reaches the range test never contains `-`, so that branch of the test can never fire |
| Normalize.DashIsDeleted | normalize_data.py:27 | "a-b" cleans exactly like "ab" |
| Normalize.DashJoins | normalize_data.py:27-29 | "2-4" and every "a-b" of digit strings read as the single number ab (24), not as a range |
| Normalize.SlashAverages | normalize_data.py:29-32 | text containing `/` with at least one number token cleans to the mean of its tokens |
| Normalize.PairAverage | normalize_data.py:30-32 | the tokens of "a/b" average to (a + b) / 2, so "2/4" gives 3 |
| Normalize.SlashWithoutDigits | normalize_data.py:31-36 | text with a `/` and no digit falls through to `float` and cleans to None |
| Normalize.CleanNumberRanged | normalize_data.py:23-36 | corrected cleaner, which tests for a range before it deletes signs: missing gives None and no result is negative |
| Normalize.RangeIsAveraged | normalize_data.py:28-32 | under the corrected cleaner, text with a `-` and at least one number token cleans to the mean of its tokens |
| Normalize.CleanCell | normalize_data.py:57-89 | a cleaned cell is never text |
| Normalize.Convert | normalize_data.py:57-89 | the thirteen assignments fail exactly when a survey header is absent; on success the output has the twelve features and the intent score, in assignment order, with the input's row count |
| Normalize.NormalizeSurveyData | normalize_data.py:38-126 | the method (convert, then the fill loop over the columns, then `dropna`) returns the specification `Normalized` |
| Normalize.ImputedAll | normalize_data.py:98-101 | after the fill loop every column except the label has been imputed with its own mean, computed over all rows before any row is dropped |
| Normalize.NormalizedColumns | normalize_data.py:57-89 | the output's columns are the twelve features plus the intent score in fixed order; the call fails exactly when a survey header is absent |
| Normalize.NormalizedRows | normalize_data.py:98-104 | output row k is input row `Kept[k]`; a row survives exactly when its label cleaned to a number, order is kept, and each feature cell is the cleaned cell or, where that was empty, the column mean over all input rows |
| Normalize.NormalizedRanges | normalize_data.py:57-104 | no output cell is text, every number is non-negative, attendance is at most 100, and every feature column with a mean has no missing cell |
| Normalize.ImputeKeepsRange | normalize_data.py:100-101 | mean imputation keeps a column inside its range and fills it completely when it has a mean |
| Normalize.MeanBounds | normalize_data.py:100 | the mean of the present cells lies between their bounds |
| Predict.Decide | predict.py:48-49 | the prediction is 0 or 1, and 1 exactly when P(risk) is at least 0.25 |
| Predict.ExplainPrediction | predict.py:134-185 | the method (checks in order, each appending its lines) returns the specification `ExplainReasons` |
| Predict.ChecksUpToSpec | predict.py:146-180 | the first n checks raise exactly when one of them raises; otherwise their lines come in increasing factor order, and each line comes from the check of its own factor |
| Predict.ErrorPersists | predict.py:146-180 | once a check raises, the whole explanation ends with that exception |
| Predict.ExplainSpec | predict.py:134-185 | the explanation raises exactly when a checked factor holds text; otherwise it is never empty, has at most one line per factor in the fixed order attendance, stress, sleep, work, self-study, exams, finance, and the neutral line appears only alone |
| Predict.RuleSpec | predict.py:146-169 | for each single-factor rule, a concern fires exactly when the cell passes the concern test, and a strength exactly when it fails that test and passes the strength test; an absent key or a missing cell gives no line |
| Predict.RulesInert | predict.py:146-169 | the default of every rule fails both of its tests |
| Predict.ExamSpec | predict.py:171-177 | the exam average counts absent scores as 0; it gives a concern exactly when 0 < avg < 60 and a strength exactly when avg >= 75 |
| Predict.ExplainFactor | predict.py:146-180 | a factor's concern is in the explanation exactly when its cell is a number passing the concern test; its strength exactly when it fails that test and passes the strength test |
| Predict.AbsentFactorSilent | predict.py:146-180 | an absent key or a missing cell gives no line for that factor |
| Predict.AbsentColumns | predict.py:32-33 | lists exactly the feature columns the record lacks |
| Predict.FeatureRow | predict.py:36 | the one-row frame holds the record's value for each feature column, in order |
| Predict.FirstTextFeature | predict.py:39 | the mean fill finds a text cell exactly when one of the feature cells holds text, and names one that does |
| Predict.Score | predict.py:32-45 | an absent feature column or a text feature cell gives no probabilities; a complete record without text is scored by the classifier on its feature row, missing cells included |
| Predict.PredictStudentRisk | predict.py:8-61 | no model means an error; with a model, a missing feature column gives the error listing the absent columns, before any scoring; then a text feature cell raises the TypeError of the mean fill; success exactly when scoring and explanation succeed, and the result is the report of the scored probabilities |
| Predict.MissingColumnsBeforeScoring | predict.py:32-34 | a record lacking a feature column gives the same missing-columns error whatever the classifier |
| Predict.Report | predict.py:48-61 | the decision is taken at 0.25; both probabilities are returned unchanged; the tier and confidence are read from the probability of the predicted class, as written |
| Predict.NoRiskDecisionReadsHigh | predict.py:52 | as written, a "no risk" decision with probabilities summing to 1 is reported as the HIGH tier with confidence above 75 |
| Predict.ReportCorrected | predict.py:52 | the corrected report reads the tier and the confidence from P(risk) |
| Predict.CorrectedTierAgreesWithDecision | predict.py:52 | with the correction, a "no risk" decision always reads as low risk, any other tier means a risk decision, and the tier never falls as P(risk) rises |
| Predict.GradeDelta | predict.py:79-105 | the total adjustment lies in [-1.6, +1.0] |
| Predict.ClampGrade | predict.py:108 | the result is in [1, 10], values inside are kept, and values outside go to the nearer bound |
| Predict.TrendOf | predict.py:111-123 | improving iff the change is above 0.3, worsening iff it is below -0.3, steady otherwise |
| Predict.PredictAcademicPerformance | predict.py:63-132 | the method's step-by-step adjustments equal the clamp of the current average plus `GradeDelta`; the prediction is in [1, 10], and the trend is that of the change |
| Predict.UnclampedChange | predict.py:79-108 | inside the grade scale the change is exactly the adjustment, in [-1.6, +1.0] |
| Predict.ChangeBounds | predict.py:79-108 | starting from a grade in [1, 10], the clamped change stays in [-1.6, +1.0] |
| Predict.GradeDeltaMonotone | predict.py:79-105 | more study, attendance and sleep and less stress and work never lower the adjustment |
| Predict.DefaultStudentImproves | predict.py:68-123 | a record with no answers goes from the default 7.0 to 7.6, and the trend is improving |
| Predict.BatchRowOf | predict.py:198-215 | a successful prediction's row carries its prediction, level, confidence and P(risk); a failed one is recorded as "ERROR" with zeros |
| Predict.PredictBatch | predict.py:187-225 | one output row per input row, in input order, each the row of that student's own prediction; a failure does not stop the loop |
| Predict.BatchRowDecision | predict.py:48-49 | a batch row reports risk exactly when that student's P(risk) reached 0.25 |
| Train.RenameSurvey | train_model.py:39-54 | survey headers are renamed only when the attendance question is a column; cells and row count are unchanged |
| Train.RenameSpec | train_model.py:39-54 | after a rename the attendance column has its internal name and no survey question remains |
| Train.AddRiskLabel | train_model.py:57-58 | when the intent column exists, the label of every row is `create_risk_label` of its score; a text score raises; without the intent column the frame is unchanged |
| Train.CoerceText | train_model.py:71 | the text reaching `to_numeric` has no `%`, `-`, `/` or `,` |
| Train.CoerceCell | train_model.py:71 | a cleaned cell is never text and never negative; missing stays missing; a number becomes its absolute value |
| Train.CoerceIdempotent | train_model.py:71 | cleaning a cleaned cell changes nothing |
| Train.SeparatorJoins | train_model.py:71 | a `/` or `-` between digits is deleted, so "2/4" and "2-4" both read as 24 |
| Train.CleanColumn | train_model.py:71 | the cleaned column is numeric, with each cell the cleaned input cell |
| Train.CleanFeatureColumns | train_model.py:69-71 | the loop computes `CleanedFeatures` of its input |
| Train.CleanedAfterSpec | train_model.py:69-71 | after the first k passes, exactly the first k feature columns present are coerced and every other column is unchanged |
| Train.CleanedFeatures | train_model.py:69-71 | every feature column present is coerced cell by cell; every other column, and the column order, are unchanged |
| Train.CleanedFeaturesPrepare | train_model.py:69-73 | after cleaning, `prepare_features` fails only for an absent feature column |
| Train.ArtifactName | train_model.py:184 | the name lower-cased, with spaces replaced by `_` |
| Train.VariantArtifact | train_model.py:214 | each variant's artifact name is its model name lower-cased with spaces replaced by `_` |
| Train.VariantArtifactsDistinct | train_model.py:213-215 | the three artifact names differ, and only the Random Forest's is `random_forest` |
| Train.ConfusionMatrixFile | train_model.py:184 | the image name is `models/confusion_matrix_`, the variant's artifact name and `.png` |
| Train.ConfusionMatrixFilesDistinct | train_model.py:184-185 | the three variants write three different images |
| Train.FirstMax | train_model.py:205 | `max` picks a maximal index that is strictly above every earlier one |
| Train.FirstMaxUnique | train_model.py:205 | that index is unique |
| Train.BestVariant | train_model.py:105-205 | no variant has a greater recall than the selected one, and every variant before it in dictionary order has a strictly smaller one |
| Train.BestVariantUnique | train_model.py:205 | those two properties select exactly one variant |
| Train.BestVariantTies | train_model.py:205 | equal recalls select Logistic Regression |
| Train.SaveSequence | train_model.py:209-215 | four saves, the first the best model under `random_forest` |
| Train.SaveSequenceWrites | train_model.py:209-215 | after the serving save each variant is saved under its own artifact name, and every save carries the one fitted scaler |
| Train.LastWriteWins | train_model.py:209-215 | a name written once and never again holds what that write stored |
| Train.Untouched | train_model.py:209-215 | a name no write touches keeps its entry |
| Train.SavedArtifacts | train_model.py:209-215 | after the save sequence as written, `random_forest` always holds the Random Forest; each variant is under its own name; all share the one scaler |
| Train.BestModelOverwritten | train_model.py:209-215 | a best model other than the Random Forest is never the served one |
| Train.SaveSequenceCorrected | train_model.py:209-215 | the corrected order saves every variant first and the best model last |
| Train.CorrectedServesBest | train_model.py:209-215 | with the corrected order, `random_forest` holds the best model |
| Train.ArtifactStore.constructor | utils.py:73-80 | the store starts empty |
| Train.ArtifactStore.SaveModel | utils.py:73-80 | saving overwrites one name, with model and scaler together |
| Train.ArtifactStore.SaveAll | train_model.py:209-215 | the store after the script's saves is the store before them updated by the write sequence |
| Train.Insert | train_model.py:222-226 | insertion adds exactly one row, keeping the multiset |
| Train.InsertDescending | train_model.py:222-226 | inserting into a descending table keeps it descending |
| Train.SortByImportance | train_model.py:222-226 | the ranking is a permutation of the rows in non-increasing importance |
| Train.ImportanceRows | train_model.py:222-225 | one row per feature column with its own importance |
| Train.RankingCoversFeatures | train_model.py:222-226 | every feature appears in the ranking with its own importance |
| Train.RankingOnlyFeatures | train_model.py:222-226 | the ranking holds nothing but feature rows |
| Train.TrainAllModels | train_model.py:26-226 | an error before the learner, or a failing learner, is returned and the store is unchanged; otherwise the learner ran on `TrainingData`, the store is updated by the save sequence of the best model, and the result holds the best model and the sorted importance table, or the length error after the saves |
| Train.TrainingFromSpec | train_model.py:56-74 | the training input exists exactly when a numeric intent column or a label column is present and every feature column is present; a text intent raises a TypeError and a frame with neither column a KeyError on the label; y is the derived label (or the label column as read) and X has the twelve feature columns |
| Train.TrainingKeepsPresentCells | train_model.py:69-73 | a feature cell that coerces to a number reaches X unchanged |
| BetterSynthetic.Perturb | generate_better_synthetic.py:24-58 | a field is perturbed exactly when its base cell allows it, and the result lies in the field's clip interval; text raises a TypeError, and `int()` of a missing stepped base raises |
| BetterSynthetic.NoiseKeptInside | generate_better_synthetic.py:24-51 | noise that stays inside the interval is kept as drawn |
| BetterSynthetic.StepDistance | generate_better_synthetic.py:53-58 | a step of at most one moves a whole stress score by exactly the step before clipping, and ends at most one away when the score is in [1, 5] |
| BetterSynthetic.Fill | generate_better_synthetic.py:24-64 | the filled row has exactly the requested fields, each inside its clip interval; it fails exactly when a field is absent or cannot be perturbed |
| BetterSynthetic.Fields | generate_better_synthetic.py:24-64 | the study average is written only when the base rows have it |
| BetterSynthetic.WithLabels | generate_better_synthetic.py:67-68 | the row gets an intent of 4 or 5 and the label 1, and the filled cells are kept |
| BetterSynthetic.Student | generate_better_synthetic.py:24-68 | a new row has exactly the synthetic keys and the synthetic cell ranges, and fails exactly when filling fails |
| BetterSynthetic.NewStudent | generate_better_synthetic.py:19 | sampling from an empty frame raises |
| BetterSynthetic.NewStudentSucceeds | generate_better_synthetic.py:19-68 | a non-empty base with a number in every field never makes a row fail |
| BetterSynthetic.Loop | generate_better_synthetic.py:17-70 | n iterations give n rows, row i from iteration i, or fail when an iteration fails |
| BetterSynthetic.LoopFirstError | generate_better_synthetic.py:17-70 | the loop's error is the error of its first failing iteration |
| BetterSynthetic.GenerateRealisticFromReal | generate_better_synthetic.py:8-72 | the method's appending loop produces the frame of the specification `Loop`, or its first error |
| BetterSynthetic.GeneratedSample | generate_better_synthetic.py:8-72 | exactly n rows in synthetic-row order, every field in its clip interval, intent 4 or 5, label 1; an empty base frame gives no row at all |
| BetterSynthetic.RenameColumns | generate_better_synthetic.py:88-102 | every header is mapped through the survey table; cells and row count are unchanged |
| BetterSynthetic.ToNumeric | generate_better_synthetic.py:121 | the parsed cell is never text; a number or a missing cell is unchanged |
| BetterSynthetic.CleanSurvey | generate_better_synthetic.py:112-122 | the loop computes `CleanedSurvey` of its input |
| BetterSynthetic.SurveyCleanedAfter | generate_better_synthetic.py:112-117 | after the first k passes, exactly the first k of the eleven present are cleaned |
| BetterSynthetic.CleanedSurvey | generate_better_synthetic.py:112-122 | each of the eleven present is cleaned, the study average is parsed, every other column is unchanged |
| BetterSynthetic.SurveyColumnNumeric | generate_better_synthetic.py:112-122 | every cleaned feature column is numeric |
| BetterSynthetic.NoRiskRows | generate_better_synthetic.py:131-137 | an empty at-risk mask means no intent score reached 4 |
| BetterSynthetic.ConcatIsDataset | generate_better_synthetic.py:148-151 | the cleaned survey rows followed by the 80 synthetic rows form the written dataset |
| BetterSynthetic.LabelledOf | generate_better_synthetic.py:124-125 | the label is set exactly when the intent column is present and numeric; otherwise the KeyError or the TypeError; the labelled frame keeps the cleaned columns and holds the label of every intent score |
| BetterSynthetic.KeptPresent | generate_better_synthetic.py:131 | the kept columns are all present exactly when the eleven are survey columns |
| BetterSynthetic.AtRiskNone | generate_better_synthetic.py:131-137 | no row is at risk exactly when no intent score reaches 4 |
| BetterSynthetic.RealRiskSelect | generate_better_synthetic.py:131-137 | the at-risk selection fails exactly when one of the eleven is absent, with a KeyError naming an absent feature column; it is empty exactly when no intent score reaches 4 |
| BetterSynthetic.Generated | generate_better_synthetic.py:135-151 | nothing is written exactly when there are no bases |
| BetterSynthetic.GenerationLabelErrors | generate_better_synthetic.py:124-125 | without the intent column the script fails with a KeyError, with a text intent with a TypeError |
| BetterSynthetic.GenerationKeyError | generate_better_synthetic.py:131 | with a numeric intent, one of the eleven absent fails with a KeyError naming an absent feature column |
| BetterSynthetic.GenerationNone | generate_better_synthetic.py:131-137 | with the columns in place, the script stops without writing exactly when no intent score reaches 4 |
| BetterSynthetic.GenerationStops | generate_better_synthetic.py:124-137 | the script stops without writing exactly when the intent column is numeric, the eleven are present and no score reaches 4 |
| BetterSynthetic.GenerationWrites | generate_better_synthetic.py:139-151 | once bases exist, the generator's first error is the script's error; otherwise the written frame is the dataset: the cleaned survey rows over the kept columns, then the 80 synthetic rows |
| BetterSynthetic.GenerateDataset | generate_better_synthetic.py:75-161 | the method's steps compute `GenerationFrom` of the renamed frame |
| Synthetic.NewRiskStudent | generate_synthetic_data.py:16-81 | an at-risk row lies in its archetype's ranges after both correlations; self-study is never negative, stress is in [2, 5], intent is 4 or 5, and the label is 1 |
| Synthetic.NewSafeStudent | generate_synthetic_data.py:95-164 | a row that is not at risk lies in its archetype's ranges after the two correlation adjustments (more than 20 hours of self-study raises the average, capped at 10.0; 8 or more hours of sleep lowers stress by one, floored at 1); the average is at most 10, stress is in [1, 4], the exams are in the archetype's half-open range, intent is 1 to 3, and the label is 0 |
| Synthetic.StudentCell | generate_synthetic_data.py:66-84 | each cell of the generated frame is that student's value for the column |
| Synthetic.StudentRowsSnoc | generate_synthetic_data.py:82 | appending a student appends its dictionary |
| Synthetic.GenerateRiskStudents | generate_synthetic_data.py:7-84 | n rows, one per iteration, each in its archetype's ranges and labelled at risk |
| Synthetic.GenerateSafeStudents | generate_synthetic_data.py:86-167 | n rows, one per iteration, each in its archetype's ranges and labelled not at risk |
| Synthetic.AddLabel | generate_synthetic_data.py:197-198 | the label is appended from the intent column; a text intent raises |
| Synthetic.LoadExisting | generate_synthetic_data.py:173-206 | a failed read gives an empty frame; headers are renamed when the attendance question is a column; the label is added when it is absent and the intent is present; a text intent leaves an empty frame |
| Synthetic.Common | generate_synthetic_data.py:217 | the kept columns are exactly those in both frames, except the label |
| Synthetic.NumericAppend | generate_synthetic_data.py:226-227 | a stacked column is numeric exactly when both halves are |
| Synthetic.StackedConcat | generate_synthetic_data.py:215-223 | the existing rows over the common columns are followed by the generated rows over the same columns |
| Synthetic.MergeGenerated | generate_synthetic_data.py:215-227 | with no existing data the generated frame is kept (labelled when needed); otherwise the common columns are stacked and the label is re-derived when the intent is among them; failure happens exactly on a text intent, as a TypeError |
| Synthetic.GeneratedLabels | generate_synthetic_data.py:226-227 | below the existing rows, every re-derived label is 1 |
| Synthetic.RegenerateDataset | generate_synthetic_data.py:169-230 | the generated frame is 100 at-risk students, one per archetype draw; with no existing data it is saved as it is, otherwise the merge of the existing and generated rows is saved; the merge fails exactly on a text intent in existing data that already had a label; the saved frame holds the existing rows and then the generated ones, with label 1 on every generated row |
| Preparation.AddRiskLabel | data_preparation.py:19-20 | when the intent column exists, every row's label is derived from it and nothing else changes; a text intent raises |
| Preparation.FirstUnfillable | data_preparation.py:30-34 | names a feature column whose fill raises (present, with missing cells, holding text); nothing exactly when every column that needs a fill is numeric |
| Preparation.FillOne | data_preparation.py:30-34 | one loop iteration fills the next column when it is present with missing cells, and changes nothing else |
| Preparation.FillFeatures | data_preparation.py:30-34 | the loop succeeds exactly when no column is unfillable, raises for the first one otherwise, and fills each present feature column with missing cells using its mean |
| Preparation.FilledOthers | data_preparation.py:30-34 | the fill loop leaves every column that is not a feature as it was |
| Preparation.SummaryError | data_preparation.py:38 | the summary's KeyError names an absent feature column |
| Preparation.PrepareDataset | data_preparation.py:8-44 | success exactly when the intent holds no text, no feature fill raises and all features are present; the error is the first of those that happens; the result has the same rows, a derived label, filled features and every other column unchanged |

## Left out

- File I/O: every `read_csv`, `to_csv`, `joblib` read and write, the plots, the console output and the argument parsing. The frame read is an input. A failed read is `None` where the source catches it.
- `load_model` (utils.py:82-88) is the `Option<Classifier>` parameter of `Predict.PredictStudentRisk`; a missing file is `None`.
- `normalize_features` (utils.py:60-71), `train_test_split`, `StandardScaler`, SMOTE, the three classifiers, the metrics and cross-validation are opaque parameters (`Predict.Classifier`, `Train.Learner`). The Gaussian noise added to the balanced training data (train_model.py:98-99) belongs to the same opaque step.
- Floating point: values are exact reals. IEEE rounding near the 0.3 trend boundary and near the tier and threshold bounds is not modelled.
- Python `float()` accepts only decimal notation here (digits, one point, a sign, surrounding blanks). `inf`, `nan`, exponents, underscores and Unicode digits are not accepted. A number cell printed by `str()` is assumed to have no exponent.
- `Numbers.NumberTokens`: the `re.findall(r'\d+\.?\d*')` token search at normalize_data.py:30 recognises ASCII digits only. Python's `\d` also matches other Unicode decimal digits, such as Arabic-Indic digits.
- Random numbers: every draw is an arbitrary value indexed by row and call site, not numpy's seeded stream. The `p=` weights of `np.random.choice` are not modelled; only the set of choices is. `np.random.uniform` is modelled as a closed interval.
- `Random.Round1` rounds a tie up, where Python's `round` rounds half to even on the binary value; only the bound `|r - x| <= 0.05` is used.
- The pandas one-row `fillna(X.mean())` at predict.py:39 fills a missing cell with the mean of that one cell, which is again missing, so a missing cell reaches the opaque classifier; the TypeError on a text cell is modelled.
- `predict_student_risk` with a DataFrame argument (predict.py:25-26) is not modelled; only the dict record is. With a DataFrame, `explain_prediction` compares whole columns, and the truth value of such a comparison raises a ValueError.
- A Python `None` in a record passed to `explain_prediction` (predict.py:146-180) raises a TypeError at the first comparison with it. The model reads it as NaN, so its comparisons are false.
- `Predict.PredictAcademicPerformance`: the record's values are reals. A NaN value (every comparison false) or a text value (a TypeError) is not modelled.
- `Numbers.IsSpace`: only ASCII blanks count as whitespace, in `Numbers.Strip` and in `Numbers.ParseFloat`. Python's `str.strip()` and `float()` also strip Unicode whitespace such as U+00A0 and U+2003.
- The `top_features` computation at predict.py:141-143 is never used by the result.
- The text of formatted messages (`message` strings with numbers, the explanation lines' wording) is represented by constructor values and tiers.
- Exceptions raised only while printing statistics (generate_synthetic_data.py:200-202, the `describe()` at data_preparation.py:38) are not modelled. The summary's KeyError for an absent feature column is modelled.
- pandas' stable order among equal importances in `sort_values` is not fixed: `Train.SortByImportance` is one descending permutation of the rows.
- Duplicate column names in a read frame are not considered: `Table.Get` reads the first column of that name.
- `Train.TrainAllModels`: the KeyError of `prepare_features` names the first absent feature column, where pandas lists every absent one.
- `BetterSynthetic.StepDistance`: for a base stress score that is not a whole number, `int()` truncation can move it by up to two before clipping, so the at-most-one bound is stated for whole scores only.
- streamlit_app.py, database.py and append_data.py are not part of this model: they are user interface, SQLite storage and CSV merging without rules of their own.

## Findings

| source | as written | input that shows it | evidently intended | confidence | as-written member | corrected member |
|---|---|---|---|---|---|---|
| predict.py:52 | the tier and confidence are read from `probability[prediction]`, the probability of the predicted class | probabilities (0.9, 0.1): prediction 0 ("no risk"), yet tier HIGH with confidence 90 | read the tier from P(risk) by passing it as `risk_probability` | not executed | Predict.NoRiskDecisionReadsHigh | Predict.CorrectedTierAgreesWithDecision |
| normalize_data.py:27-29 | every `-` is deleted before the range test, so the `-` branch never fires | "2-4" cleans to 24.0 | "2-4" cleans to the range mean 3.0, as the comment on line 28 says | not executed | Normalize.DashJoins | Normalize.RangeIsAveraged |
| train_model.py:209-215 | the best model is saved as `random_forest`, then the loop saves every variant and overwrites it with the Random Forest | recalls (0.9, 0.5, 0.4): the best is Logistic Regression, but `random_forest` ends up holding the Random Forest | the served artifact holds the model with the best recall | not executed | Train.BestModelOverwritten | Train.CorrectedServesBest |
