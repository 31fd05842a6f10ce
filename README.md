# TumorClassificationAI — the KNN evaluation pipeline in Dafny

This project models the part of TumorClassificationAI that classifies tumour
samples as benign or malignant and measures how well that works:

- the k-nearest-neighbours classifier (`models/knn.py`): fit stores the training
  table; predict labels each test row by majority vote among its k nearest
  training rows, and breaks a tie with a random pick among the tied labels;
- the resampling strategies that produce `(y_real, y_pred)` pairs: random
  subsampling, leave-p-out cross validation, the K-fold splitter and the K-fold
  and holdout evaluators of the `validation` package;
- the two metrics calculators:
  - the newer one in `metrics` computes confusion counts, then accuracy, error
    rate, sensitivity, specificity, G-mean and AUC per pair, and averages them;
  - the older one in `validation` reports the first pair ("holdout") or per-pair
    means with a pooled sensitivity ("Leave-p-out Cross Validation");
- the feature scaler: min-max normalisation and z-score standardisation of every
  column that is not excluded, plus the strategy dispatch.

The project has one module per source file, plus two shared modules:

| module | file | flavour |
|---|---|---|
| `Common` | common.dfy | Python exceptions as `Result`, numpy floats as `Float = Value(real) \| NaN`, sums, means, `MatchRate` (numpy's `mean(a == b)`) |
| `Indices` | indices.dfy | permutations of `[0..n)`, `iloc` as `Select`, numpy's `setdiff1d` |
| `Dataset` | dataset.dfy | rows, labels, one `(y_real, y_pred)` `Trial`, the classifier as a function value |
| `Knn` | knn.dfy | `class KNN`, whose fields fit updates; argsort and the vote are functions |
| `Metrics` | metrics.dfy | `CalculateMetrics` is a loop that appends to six lists, proved against `Aggregate` |
| `LegacyMetrics` | legacy_metrics.dfy | the older calculator; its Leave-p-out branch is a loop with running totals |
| `RandomSubsampling`, `LeavePOut`, `KFold` | random_subsampling.dfy, leave_p_out.dfy, kfold.dfy | each `generate_splits`/`split` loop is a method proved against a function that lists the trials or folds |
| `KFoldValidation`, `HoldoutValidation` | kfold_validation.dfy, holdout_validation.dfy | `evaluate` fits a model and scores its predictions |
| `FeatureScaler` | feature_scaler.dfy | the copy-then-overwrite loop over the column names is a method proved against `ScaledTable` |

Randomness is a parameter:

- every `np.random.permutation` is an input permutation (`IsPermutation`);
- the tie-break of the classifier is any of the tied labels.

The square roots of the G-mean and of `Series.std()` are a function parameter
`root`. Lemmas that need it to be a square root say so in their requires.

`KNNClassifier` and `predict_batch` are not defined in the repository. The
strategies therefore take the classifier as a function
`(k, training rows, training labels, test rows) -> predictions`. The two
evaluators take the model as a function `(training rows, training labels, test
rows) -> predictions`.

Where the unit tests and the code disagree, the model follows the code:

- `tests/test_leave_p_out_cv.py` constructs `LeavePOutCV` with an
  `n_combinations` argument the constructor does not take;
- that test expects 10 trials for p = 2 on four rows, where the code yields C(4, 2) = 6 (`LeavePOut.ExampleFourRows`);
- it expects `[]` for an empty frame, where `generate_splits` raises `ValueError` because p exceeds the row count.

## Model

| member | source | states |
|---|---|---|
| Common.Trunc | validation/random_subsampling.py:38 | Python's `int()` of a float truncates toward zero: for x >= 0 the result is the floor, for x < 0 the ceiling |
| Common.Matches | validation/calculate_metrics.py:18 | the number of agreeing positions is at most the length, and equals it exactly when the two arrays are equal |
| Common.MatchesPlusMismatches | validation/calculate_metrics.py:20-22 | agreeing and disagreeing positions together are all positions |
| Common.MatchRate | validation/calculate_metrics.py:16-18 | numpy's `mean(y_real == y_pred)` is NaN exactly for empty arrays, otherwise a value in [0, 1] that is 1 exactly when the arrays are equal |
| Common.MeanF | validation/kfold_validation.py:43 | `np.mean` of a list of floats is a number exactly when the list is non-empty and holds no NaN |
| Common.MeanFInUnit | validation/kfold_validation.py:43 | the mean of non-empty rates in [0, 1] is a rate in [0, 1] |
| Common.MeanInUnit | metrics/metrics_calculator.py:42 | the arithmetic mean of values in [0, 1] lies in [0, 1] |
| Indices.RangeIsPermutation | validation/leave_p_out_cv.py:34 | `np.arange(n)` is a strictly increasing permutation of n |
| Indices.PermutationCovers | validation/random_subsampling.py:41 | a permutation of n holds every row index below n |
| Indices.PermutationSlice | validation/kfold.py:48 | a contiguous slice of a permutation holds hi - lo distinct in-range row indices |
| Indices.SetDiff1d | validation/kfold.py:50 | `np.setdiff1d(a, b)` holds exactly the values of a that are not in b, strictly ascending (so without repetition) |
| Indices.SetDiffOfPermutation | validation/kfold.py:50 | removing b's distinct in-range indices from a permutation of n leaves exactly the n - \|b\| indices below n that b lacks |
| Indices.CutPermutation | validation/random_subsampling.py:42-43 | cutting a permutation splits the row indices into two disjoint parts without repetition that together cover [0..n) |
| Dataset.SplitTrial | validation/random_subsampling.py:46-55 | a split's y_real is the labels of the test rows in test order, and a classifier that answers once per row gives as many predictions |
| Dataset.BinaryLabel | __main__.py:118-122 | the driver maps label 4 (malignant) to 1 and every other label to 0 |
| Dataset.BinaryLabels | __main__.py:119-123 | every label of a list is mapped to 0 or 1, to 1 exactly when it was 4 |
| Dataset.BinaryTrials | __main__.py:118-125 | mapping every pair keeps the number of pairs and each side's length; every mapped label is 0 or 1, and 1 exactly when the original label was 4 |
| Knn.KNN.constructor | models/knn.py:6-15 | a new classifier has the given k and no training data |
| Knn.KNN.Fit | models/knn.py:17-26 | fit stores the training rows and labels; k is unchanged |
| Knn.SqDistance | models/knn.py:85 | the squared Euclidean distance is never negative |
| Knn.SqDistanceSymmetric | models/knn.py:85 | the distance from a to b is the distance from b to a |
| Knn.SqDistanceZero | models/knn.py:85 | the distance is zero exactly between identical points |
| Knn.InsertByKey | models/knn.py:55 | inserting a new row index into a distance-sorted list without repetition keeps it sorted and without repetition, and adds exactly that index |
| Knn.SortByKey | models/knn.py:55 | sorting row indices by distance keeps the same indices, without repetition, in non-decreasing distance |
| Knn.ArgSort | models/knn.py:55 | insertion sort is one of the orders `np.argsort(distances)` may return: each training row once, nearest first |
| Knn.NeighbourCount | models/knn.py:55 | the slice `[:k]` takes min(k, n) indices for k >= 0 (Python's negative bounds otherwise), never more than n |
| Knn.NearestRows | models/knn.py:55 | the first NeighbourCount(k, n) entries of any argsort are distinct training rows, none farther than any row left out |
| Knn.NearestLabels | models/knn.py:58 | the neighbours' labels are the training labels of those rows, nearest first |
| Knn.Count | models/knn.py:61 | a label's count is at most the number of votes, and positive exactly when the label is among them |
| Knn.MostCommonFrom | models/knn.py:61-62 | the scan keeps a label that occurs and that no label outnumbers |
| Knn.MostCommon | models/knn.py:62 | `Counter.most_common(1)[0][0]` is a majority label: it occurs, and no label has more votes |
| Knn.Winners | models/knn.py:65-66 | the tied labels are exactly the majority labels |
| Knn.UniqueWinner | models/knn.py:68-71 | a label with strictly more votes than every other is the only majority label, so no tie-break happens |
| Knn.KNN.PredictSinglePoint | models/knn.py:41-71 | the predicted label is a majority label among the k nearest neighbours of some argsort order |
| Knn.KNN.Predict | models/knn.py:28-39 | predict gives one label per test row, in row order, each a possible prediction for its row |
| Knn.KNN.PredictsAppend | models/knn.py:38 | appending the next row's prediction keeps every earlier prediction valid |
| Knn.ExampleDistancesFrom | tests/test_knn.py:11-20 | the distances from (2.5, 2.5) to the test's four training rows |
| Knn.ExampleFarthestLast | tests/test_knn.py:11-20 | every argsort of those distances puts row (6, 8) last |
| Knn.ExampleVotes | tests/test_knn.py:11-22 | whatever the argsort order, the three nearest labels vote 1 as the only majority |
| Knn.ExamplePrediction | tests/test_knn.py:11-40 | with k = 3 the only possible prediction for (2.5, 2.5) is 1, as the test expects |
| Metrics.PairCount | metrics/metrics_calculator.py:55-58 | a count of one kind of pair over the first n zipped positions is at most n |
| Metrics.PairCountsTotal | metrics/metrics_calculator.py:55-58 | the four counts add up to at most n, and to n exactly when every zipped label is 0 or 1 |
| Metrics.ConfusionMatrix | metrics/metrics_calculator.py:44-59 | the counts cover at most the shorter list (zip), and all of it exactly when every zipped label is 0 or 1 |
| Metrics.Ratio | metrics/metrics_calculator.py:68-69 | a share with a zero-denominator fallback of 0 lies in [0, 1], is 0 for a zero numerator, and is 1 exactly when the numerator fills the denominator |
| Metrics.RatiosComplement | metrics/metrics_calculator.py:68-79 | two shares whose numerators fill the same denominator add up to 1 |
| Metrics.AccuracyRate | metrics/metrics_calculator.py:61-69 | accuracy lies in [0, 1]; it is 0 without any correct pair, and, when some pair is counted, 1 exactly when nothing is misclassified |
| Metrics.ErrorRate | metrics/metrics_calculator.py:71-79 | the error rate lies in [0, 1], is 1 - accuracy when something is counted, and 0 otherwise |
| Metrics.Sensitivity | metrics/metrics_calculator.py:81-89 | sensitivity lies in [0, 1], is 0 without true positives, and is 1 exactly when there is no false negative |
| Metrics.Specificity | metrics/metrics_calculator.py:91-99 | specificity lies in [0, 1], is 0 without true negatives, and is 1 exactly when there is no false positive |
| Metrics.AreaUnderCurve | metrics/metrics_calculator.py:112-121 | the AUC lies in [0, 1], between sensitivity and specificity |
| Metrics.RootBetween | metrics/metrics_calculator.py:108-110 | the square root of the product of two rates lies between the smaller rate and their mean |
| Metrics.GeometricMeanBounds | metrics/metrics_calculator.py:101-110 | the G-mean lies in [0, 1], at least the smaller of sensitivity and specificity and at most the AUC |
| Metrics.TrialReport | metrics/metrics_calculator.py:33-39 | every per-pair metric except the G-mean is a rate in [0, 1] |
| Metrics.Column | metrics/metrics_calculator.py:32-39 | a metric's list holds one value per pair |
| Metrics.ColumnAppend | metrics/metrics_calculator.py:34-39 | one more pair appends that pair's values to every list |
| Metrics.ColumnAt | metrics/metrics_calculator.py:32-39 | the i-th entry of every list is the i-th pair's value |
| Metrics.ColumnInUnit | metrics/metrics_calculator.py:34-37 | every per-pair accuracy, error rate, sensitivity, specificity and AUC lies in [0, 1] |
| Metrics.ColumnsStep | metrics/metrics_calculator.py:33-39 | one iteration of the loop appends to each of the six lists exactly the value of the next pair |
| Metrics.CalculateMetrics | metrics/metrics_calculator.py:11-42 | with no pair the division by `len(values)` fails; otherwise each metric is the mean of its per-pair values |
| Metrics.AggregateSingle | metrics/metrics_calculator.py:42 | with a single pair the report is that pair's metrics |
| Metrics.AggregateInUnit | metrics/metrics_calculator.py:42 | the averaged accuracy, error rate, sensitivity, specificity and AUC are rates in [0, 1] |
| Metrics.AggregateGeometricMeanInUnit | metrics/metrics_calculator.py:38-42 | with a true square root, the averaged G-mean lies in [0, 1] |
| Metrics.AggregateAreaUnderCurve | metrics/metrics_calculator.py:42 | the averaged AUC is the mean of the averaged sensitivity and specificity |
| Metrics.AggregateAccuracyError | metrics/metrics_calculator.py:42 | when every pair has a 0/1 position, the averaged accuracy and error rate add up to 1 |
| Metrics.DiagonalMatches | metrics/metrics_calculator.py:55-56 | on 0/1 labels the true positives plus true negatives are the agreeing positions |
| Metrics.MatchesPrefixStep | metrics/metrics_calculator.py:55-56 | extending the prefix by one position adds one agreement exactly when that position agrees |
| Metrics.AccuracyIsMatchRate | metrics/metrics_calculator.py:61-69 | on equally long 0/1 labels the newer accuracy equals the older calculator's `mean(y_real == y_pred)` |
| Metrics.SensitivityColumn | metrics/metrics_calculator.py:36 | the sensitivity list holds each pair's sensitivity |
| Metrics.TwoTrialSensitivity | metrics/metrics_calculator.py:42 | with two pairs the reported sensitivity is the mean of their two sensitivities |
| Metrics.BinaryTrialsCounted | __main__.py:118-125 | after the driver's mapping every zipped position of a pair falls in one of the four counts |
| Metrics.MappedCounted | __main__.py:118-125 | every mapped pair with non-empty sides counts at least one position |
| Metrics.MappedAccuracyError | metrics/metrics_calculator.py:32-42 | on the pairs the driver passes, each with non-empty sides, the averaged accuracy and error rate add up to 1 |
| Metrics.MappedAccuracyIsMatchRate | metrics/metrics_calculator.py:61-69 | on a mapped pair of equally long non-empty lists the newer accuracy equals the older calculator's `mean(y_real == y_pred)` |
| Metrics.ExampleHoldoutCounts | tests/test_calculateMetrics.py:8-9 | y_real = [1,0,1,1,0] against y_pred = [1,0,1,0,0] gives 2 TP, 2 TN, 0 FP, 1 FN |
| Metrics.ExampleHoldoutRates | tests/test_calculateMetrics.py:13-29 | those counts give accuracy 0.8, error rate 0.2, sensitivity 2/3 and specificity 1 |
| Metrics.ExampleFoundOne | metrics/metrics_calculator.py:55-58 | a single correctly predicted positive is one true positive |
| Metrics.ExampleFoundNone | metrics/metrics_calculator.py:55-58 | three positives all predicted negative are three false negatives |
| Metrics.ExamplePooled | metrics/metrics_calculator.py:55-58 | those four pairs pooled are one true positive and three false negatives |
| Metrics.ExampleNotPooled | metrics/metrics_calculator.py:32-42 | the calculator averages rates per pair: the two pairs above report sensitivity 1/2, while their pooled counts give 1/4 |
| LegacyMetrics.OneMinus | validation/calculate_metrics.py:22 | 1 - x is NaN exactly when x is, and otherwise adds up with x to 1 |
| LegacyMetrics.LegacyErrorRate | validation/calculate_metrics.py:20-22 | the error rate is NaN exactly for empty arrays, otherwise 1 - accuracy, in [0, 1], and 0 exactly when the arrays are equal |
| LegacyMetrics.LegacyErrorIsMismatchRate | validation/calculate_metrics.py:20-22 | the error rate is the share of disagreeing positions |
| LegacyMetrics.LegacySensitivity | validation/calculate_metrics.py:24-28 | TP / (TP + FN) lies in [0, 1] and is 0 without true positives |
| LegacyMetrics.SensitivitiesAgree | validation/calculate_metrics.py:24-28 | the older sensitivity equals the newer calculator's on every pair |
| LegacyMetrics.TrialMetrics | validation/calculate_metrics.py:30-36 | a pair's accuracy is NaN exactly for empty arrays, and otherwise adds up with the error rate to 1; the sensitivity lies in [0, 1] |
| LegacyMetrics.Accuracies | validation/calculate_metrics.py:58 | one accuracy per pair |
| LegacyMetrics.ErrorRates | validation/calculate_metrics.py:58 | one error rate per pair |
| LegacyMetrics.PooledSensitivity | validation/calculate_metrics.py:61 | the pooled total_tp / (total_tp + total_fn) lies in [0, 1] and is 0 without true positives |
| LegacyMetrics.CalculateMetrics | validation/calculate_metrics.py:38-66 | an unknown method raises ValueError; "holdout" reports the first pair (IndexError without one); "Leave-p-out Cross Validation" reports the pooled report (IndexError without a pair) |
| LegacyMetrics.LeavePOutMetrics | validation/calculate_metrics.py:46-63 | the loop over the pairs with running totals yields per-pair mean accuracy and error rate and the pooled sensitivity; no pair is an IndexError |
| LegacyMetrics.TotalsAppend | validation/calculate_metrics.py:54-55 | one more pair adds its true positives and false negatives to the running totals |
| LegacyMetrics.ReportColumns | validation/calculate_metrics.py:57-60 | the per-key lists read off the collected per-pair reports are the accuracies and error rates of the pairs |
| LegacyMetrics.PooledSingle | validation/calculate_metrics.py:42-63 | on a single pair the Leave-p-out mode reports what the holdout mode reports |
| LegacyMetrics.PooledAccuracyError | validation/calculate_metrics.py:57-60 | when every pair is non-empty, the Leave-p-out accuracy and error rate are numbers in [0, 1] that add up to 1 |
| LegacyMetrics.ExampleHoldoutMatches | validation/calculate_metrics.py:69-75 | four of the five example positions agree, so accuracy is 0.8 |
| LegacyMetrics.ExampleHoldout | validation/calculate_metrics.py:69-91 | holdout mode on the example pair reports accuracy 0.8, error rate 0.2 and sensitivity 2/3, as the tests expect |
| RandomSubsampling.New | validation/random_subsampling.py:7-21 | a non-positive n_iter is refused first, then a test_size outside (0, 1]; every accepted configuration is valid |
| RandomSubsampling.TestCountBounds | validation/random_subsampling.py:37-38 | with a valid test_size the test part takes between 0 and n rows, and at least one row when n * test_size >= 1 |
| RandomSubsampling.ExampleTwoRows | tests/test_random_subsampling.py:58-64 | two rows with test_size 0.5 leave exactly one test row, as the test expects |
| RandomSubsampling.SubsamplePartition | validation/random_subsampling.py:41-43 | the test and training positions of one shuffle are disjoint, hold c and n - c indices, and cover every row |
| RandomSubsampling.SubsampleTrialShape | validation/random_subsampling.py:36-55 | each trial tests int(n * test_size) rows with their true labels in shuffled order, with as many predictions |
| RandomSubsampling.GenerateSplits | validation/random_subsampling.py:23-57 | one trial per iteration, in order, each computed on its own shuffle |
| LeavePOut.New | validation/leave_p_out_cv.py:8-17 | a non-positive p is refused with ValueError; any other p is accepted |
| LeavePOut.BinomialTooMany | validation/leave_p_out_cv.py:37 | there are no ways to pick more rows than there are |
| LeavePOut.BinomialPositive | validation/leave_p_out_cv.py:37 | there is at least one way to pick at most all rows |
| LeavePOut.BinomialEdges | validation/leave_p_out_cv.py:37 | one way to pick all m rows, and m ways to pick one |
| LeavePOut.ChooseCount | validation/leave_p_out_cv.py:37 | `combinations(range(lo, n), p)` yields C(n - lo, p) combinations |
| LeavePOut.ChooseSound | validation/leave_p_out_cv.py:37 | every combination yielded is p strictly increasing indices in [lo..n) |
| LeavePOut.ChooseComplete | validation/leave_p_out_cv.py:37 | every such combination is yielded |
| LeavePOut.ChooseOrdered | validation/leave_p_out_cv.py:37 | the combinations come in strictly increasing lexicographic order |
| LeavePOut.ChooseDistinct | validation/leave_p_out_cv.py:37 | no combination is yielded twice |
| LeavePOut.TrainIndices | validation/leave_p_out_cv.py:38 | the training indices are rows of the frame |
| LeavePOut.TrainComplement | validation/leave_p_out_cv.py:38 | the training part of a combination is the ascending list of the n - p rows it leaves out |
| LeavePOut.LeavePOutTrials | validation/leave_p_out_cv.py:37-52 | one trial per combination |
| LeavePOut.LeavePOutTrialsShape | validation/leave_p_out_cv.py:34-52 | there are C(n, p) trials; each tests a p-combination's rows with their true labels, with p predictions |
| LeavePOut.ExampleFourRows | tests/test_leave_p_out_cv.py:11-42 | four rows give 6 trials for p = 2 and 4 for p = 1 |
| LeavePOut.TrainingFrameEmpty | validation/leave_p_out_cv.py:46-47 | the training frame of a combination is empty exactly when p is the row count or the frame has no column |
| LeavePOut.GenerateSplits | validation/leave_p_out_cv.py:19-54 | p above the row count raises ValueError; an empty training frame raises ValueError on the first combination; otherwise one trial per combination in combination order |
| LeavePOut.ResultsAreTrials | validation/leave_p_out_cv.py:37-52 | the trials the loop collects, one per combination, are the trial list |
| KFold.FoldSizeFits | validation/kfold.py:43-48 | n_splits blocks of n // n_splits rows fit in n rows, leaving fewer than n_splits rows over |
| KFold.FoldSizeZero | validation/kfold.py:43 | blocks are empty exactly when there are more folds than rows |
| KFold.TestBlock | validation/kfold.py:48 | every test block has fold_size indices |
| KFold.BlockIndices | validation/kfold.py:48 | each test block is fold_size distinct rows of the frame |
| KFold.BlocksDisjoint | validation/kfold.py:46-48 | two different folds test no common row |
| KFold.TrainPartComplement | validation/kfold.py:50 | the training part of a fold is the ascending list of the n - fold_size rows outside its test block |
| KFold.RemainderNeverTested | validation/kfold.py:43-48 | the last n - n_splits * fold_size shuffled rows are in no test block |
| KFold.FoldSizes | validation/kfold.py:46-57 | every fold tests n // n_splits rows and trains on the others |
| KFold.Split | validation/kfold.py:29-59 | n_splits = 0 divides by zero; a negative n_splits gives no fold; otherwise there are n_splits folds in order, each as FoldAt describes |
| KFoldValidation.Split | validation/kfold_validation.py:10-28 | k = 0 divides by zero, a negative k gives no fold, otherwise k folds of whole rows in order |
| KFoldValidation.FoldAccuracy | validation/kfold_validation.py:38-40 | a fold's accuracy is NaN exactly when it tests no row, and otherwise lies in [0, 1] |
| KFoldValidation.FoldAccuracies | validation/kfold_validation.py:37-41 | one accuracy per fold |
| KFoldValidation.Evaluate | validation/kfold_validation.py:30-43 | k = 0 divides by zero, a negative k gives numpy's NaN mean of no accuracies, otherwise the mean of the fold accuracies |
| KFoldValidation.EvaluateRange | validation/kfold_validation.py:30-43 | with 1 to n folds the score is a number in [0, 1]; with more folds than rows it is NaN |
| HoldoutValidation.SliceBound | validation/holdout_validation.py:20-21 | a slice bound resolves as in Python: clamped to the length, and counted from the end when negative |
| HoldoutValidation.Cut | validation/holdout_validation.py:19-21 | the cut position lies within the shuffle |
| HoldoutValidation.CutInRange | validation/holdout_validation.py:19 | for test_size in [0, 1] the cut is the truncated n * test_size |
| HoldoutValidation.ExampleNegativeTestSize | validation/holdout_validation.py:19-21 | test_size -0.25 on four rows truncates to -1, and `[:-1]` puts three rows in the test part |
| HoldoutValidation.Split | validation/holdout_validation.py:11-23 | the training and test parts together have every row, and the test part has Cut rows |
| HoldoutValidation.SplitPartition | validation/holdout_validation.py:18-21 | whatever test_size is, the test and training positions are disjoint and cover every row |
| HoldoutValidation.SplitRows | validation/holdout_validation.py:20-23 | the test rows are the first Cut shuffled rows, and the training rows the rest, in shuffled order |
| HoldoutValidation.Evaluate | validation/holdout_validation.py:25-33 | the accuracy is NaN exactly when the test part is empty, and otherwise lies in [0, 1] |
| HoldoutValidation.EvaluatePerfect | validation/holdout_validation.py:25-33 | the accuracy is 1 exactly when the model predicts every test target |
| FeatureScaler.ColumnsToScale | preprocessing/feature_scaler.py:22 | the scaled columns are exactly the table's names that are not excluded |
| FeatureScaler.ColumnsToScaleKeepsNames | preprocessing/feature_scaler.py:22 | every name that is not excluded is scaled as often as the table lists it, and the names to scale keep the table's order (those of a prefix of the table are a prefix of the list) |
| FeatureScaler.Lift | preprocessing/feature_scaler.py:24 | an unscaled column keeps its values |
| FeatureScaler.MinOf | preprocessing/feature_scaler.py:26 | `Series.min()` is a value of the column and no greater than any |
| FeatureScaler.MaxOf | preprocessing/feature_scaler.py:27 | `Series.max()` is a value of the column and no smaller than any |
| FeatureScaler.MinMax | preprocessing/feature_scaler.py:28 | min-max scaling is a number exactly when max > min; a value in [min, max] maps into [0, 1], to 0 exactly at min and to 1 exactly at max |
| FeatureScaler.MinMaxScaled | preprocessing/feature_scaler.py:28 | (x - lo) / (hi - lo) lies in [0, 1] for x in [lo, hi], and is 0 exactly at lo and 1 exactly at hi |
| FeatureScaler.NormalizeColumn | preprocessing/feature_scaler.py:26-28 | normalising keeps the column's length |
| FeatureScaler.NormalizeAt | preprocessing/feature_scaler.py:26-28 | on a non-constant column each normalised value lies in [0, 1], 0 exactly at the minimum and 1 exactly at the maximum |
| FeatureScaler.NormalizeBounds | preprocessing/feature_scaler.py:26-28 | a non-constant column normalises into [0, 1] with 0 exactly at its minimum and 1 exactly at its maximum; a constant column becomes all NaN |
| FeatureScaler.SquaredDeviations | preprocessing/feature_scaler.py:49 | one squared deviation per value |
| FeatureScaler.ZScores | preprocessing/feature_scaler.py:50 | one z-score per value |
| FeatureScaler.StandardizeColumn | preprocessing/feature_scaler.py:48-50 | with a NaN or zero std the column becomes all NaN; otherwise it is the column's z-scores about its mean |
| FeatureScaler.ZScoresLinear | preprocessing/feature_scaler.py:50 | each z-score is x / s - m / s |
| FeatureScaler.ZScoresSumToZero | preprocessing/feature_scaler.py:48-50 | z-scores about the column's own mean sum to 0, so the standardised column has mean 0 |
| FeatureScaler.Squares | preprocessing/feature_scaler.py:49 | one square per value |
| FeatureScaler.ScaledSquareAt | preprocessing/feature_scaler.py:49-50 | each squared z-score is the squared deviation divided by s^2 |
| FeatureScaler.ZScoreSquaresSum | preprocessing/feature_scaler.py:49-50 | the squared z-scores sum to the squared deviations divided by s^2 |
| FeatureScaler.ZScoresUnitVariance | preprocessing/feature_scaler.py:49-50 | divided by the true sample standard deviation, the squared z-scores sum to n - 1, so the standardised column has std 1 |
| FeatureScaler.ScaledTable | preprocessing/feature_scaler.py:22-30 | the scaled frame keeps the column names and the number of columns |
| FeatureScaler.LiftColumns | preprocessing/feature_scaler.py:24 | `data.copy()` keeps every column's values |
| FeatureScaler.ScaleColumns | preprocessing/feature_scaler.py:22-30 | the loop that overwrites, name by name, every column whose name is not excluded yields ScaledTable |
| FeatureScaler.Normalize | preprocessing/feature_scaler.py:11-30 | normalize is ScaledTable with min-max scaling |
| FeatureScaler.Standardize | preprocessing/feature_scaler.py:33-52 | standardize is ScaledTable with z-score scaling |
| FeatureScaler.ScaleFeatures | preprocessing/feature_scaler.py:59-76 | "normalize" and "standardize" dispatch to the two scalers; any other strategy raises ValueError with the scaler's message |
| FeatureScaler.NormalizedTable | preprocessing/feature_scaler.py:11-30 | normalisation keeps the frame rectangular, leaves excluded columns unchanged, and maps every non-constant scaled column into [0, 1] with 0 at its minimum and 1 at its maximum |
| FeatureScaler.StandardizedTable | preprocessing/feature_scaler.py:33-52 | standardisation leaves excluded columns unchanged, and with a true square root every other column of at least two rows and non-zero std has mean 0 and sum of squares n - 1 |
| FeatureScaler.ExampleNormalizeA | tests/test_feature_scaler.py:11-31 | column A = [10, 20, 30, 40] normalises to [0, 1/3, 2/3, 1] |

## Left out

- Randomness: `np.random.permutation`, `np.random.seed`, `random_state` and the tie-break `np.random.choice` are not modelled. Shuffles are input permutations, and a tie-break is any tied label.
- Floating point: values are real numbers. Rounding, overflow and infinities are not modelled.
- Square roots: `np.sqrt` in the G-mean and in `Series.std()` is a parameter `root`. The properties that need a square root require it.
- Knn.SqDistance: ranks neighbours by the squared distance. `np.sqrt` is monotone, so the neighbour ranking is the same.
- Knn.ArgSort: numpy's own sort order is not modelled. Predictions are stated for every order that sorts by distance (`IsArgSort`).
- Knn.KNN.PredictSinglePoint: requires at least one neighbour (`CanPredict`). The IndexError of `most_common(1)[0]` on an empty vote, which happens for k = 0, for k <= -n and for an empty training set, is not modelled.
- Knn.KNN.Predict: returns a list of labels, not a one-column DataFrame with the test index.
- `KNNClassifier` and `predict_batch` are imported by the strategies and evaluators but not defined in the repository. The classifier and the model are therefore function parameters. Each evaluator's fit-then-predict on one shared, mutated model object is not modelled.
- The `Validation` and `ValidationStrategy` base classes, the command-line drivers (`__main__.py`, `main.py`), the parsers, missing-value handling and the metrics visualizer are not part of this model. The one exception is the driver's 4 -> 1 label mapping.
- KFold's interactive block (`validation/kfold.py:62-107`), with its console prompts and its own check for at least 2 folds, is left out as console I/O.
- `validation/Metrics_calculator.py` is the same calculator as `validation/calculate_metrics.py` without the tests. `LegacyMetrics` models both.
- LegacyMetrics.CalculateMetrics: requires both sides of every pair it reads to be equally long arrays: the first pair in "holdout" mode, every pair (`ElementWise`) in "Leave-p-out Cross Validation" mode. The source compares numpy arrays element-wise, while Python lists compared with `==` give one boolean, and arrays of different lengths fail to broadcast.
- RandomSubsampling.New: the `isinstance(n_iter, int)` check has no counterpart, because n_iter is an integer by type.
- LeavePOut.GenerateSplits: requires a rectangular frame (`Rectangular`), as every DataFrame is.
- Pandas behaviour not modelled:
  - skipping NaN cells in min, max, mean and std;
  - dtype changes;
  - label-based alignment.
- Duplicate column names: each frame column is handled by its own name.
- FeatureScaler.StandardizedTable: states mean 0 and sum of squares n - 1 only when `root` returns a true non-zero square root of the sample variance.
- KFoldValidation.Split and HoldoutValidation.Split: the `target_column` argument is not a parameter, because `split` does not use it.
