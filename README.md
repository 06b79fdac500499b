# Machine-Learning-Library, modelled in Dafny

This project models the learning engine of the Java library `com.example.ml`:

- the CART decision tree with Gini impurity (`DecisionTree`, `TreeNode`);
- the dataset pipeline (`Dataset`, `Instance`, `SplitResult`):
  - label conversion;
  - the train/validation/test split;
  - training-set statistics;
  - in-place standardisation;
  - shuffling;
- the two linear classifiers, `Perceptron` and `LogisticRegression`:
  - mini-batch training;
  - best-epoch checkpointing;
  - restoring the checkpoint before testing;
- the evaluation measures (`Precision`, `F1Score`, `EvaluationMetrics`).

Every `double` is a Dafny `real`. A computation that yields NaN in Java yields `Numeric.Value.NaN`. Java's truncating integer division and `(int)` casts are written out as `Numeric.JavaIntDiv` and `Numeric.TruncateToInt`.

`Math.exp`, `Math.log` and `Math.sqrt` are parameters. They carry only the facts the proofs need: `exp` is positive (and increasing where a threshold lemma says so), `log` is defined on positive reals, and `sqrt` is defined and non-negative on non-negative reals. The two measures whose classes are not part of this model, `Accuracy` and `Recall`, are `Metrics.Measure` parameters. The randomness of `new Random(42)` and `Collections.shuffle` enters as explicit draws or orders.

## Modules

| file | module | models |
|---|---|---|
| `numeric.dfy` | `Numeric` | doubles that may be NaN, Java integer division and `(int)` casts |
| `instance.dfy` | `Instances` | the mutable `Instance` class and its value snapshot `Example` |
| `split_result.dfy` | `SplitResults` | the immutable train/validation/test triple |
| `dataset.dfy` | `Datasets` | the `Dataset` class, with statistics, standardisation, split and shuffle |
| `sorting.dfy` | `Sorting` | `Collections.sort` on a list of doubles, as a specification function |
| `tree_node.dfy` | `TreeNodes` | the node record and the shape a built tree has |
| `decision_tree.dfy` | `DecisionTrees` | the tree builder, split search, impurity, prediction |
| `metrics.dfy` | `Metrics` | confusion counting, precision, F1, the metrics record |
| `linear.dfy` | `Linear` | code shared by both linear models: dot products, weight initialisation, batch slicing, checkpoint rule |
| `training.dfy` | `Training` | the epoch/batch training loop, generic over the update rule |
| `perceptron.dfy` | `Perceptrons` | the `Perceptron` class and its update rule |
| `logistic.dfy` | `Logistic` | the `LogisticRegression` class, its gradient rule and its loss |

Imperative Java code is modelled as Dafny classes:

- `Dataset`, `Instance`, `Perceptron`, `LogisticRegression`, `DecisionTree`, `Precision` and `F1Score` become classes with the same state. `Dataset` has no `featureParser` field, since parsing is the identity on reals (see below). `LogisticRegression` also takes its `Math.exp` as a constant. `DecisionTree.root` is an `Option<TreeNode>`, where `None` stands for `null`.
- Each method that loops becomes a Dafny `method` with loop invariants.
- Each such method is proved equal to a specification function, and the properties are proved as lemmas about that function. The one exception is `Dataset.Shuffle`, whose random swap order is a parameter. It is specified by what every shuffle keeps: the length and the multiset of instances.

Value objects are datatypes: `TreeNode` (see below), `EvaluationMetrics`, `SplitResult` and the tree's `BestSplit`. The getters of `EvaluationMetrics` and `SplitResult` are their datatype fields. They return the constructor's arguments unchanged, and those can never be reassigned.

## Model

| member | source | states |
|---|---|---|
| Numeric.JavaIntDiv | src/main/java/com/example/ml/model/Perceptron.java:56 | the quotient is truncated toward zero: for a >= 0 it is the largest q with q·b <= a; for a < 0 it is the smallest q with q·b >= a |
| Numeric.TruncateToInt | src/main/java/com/example/ml/data/Dataset.java:75-76 | `(int) x` drops the fractional part toward zero: n <= x < n+1 for x >= 0, and n-1 < x <= n for x < 0 |
| Numeric.Ratio | src/main/java/com/example/ml/evaluation/Precision.java:41 | a quotient is NaN exactly when the denominator is 0; otherwise result · den == num |
| Numeric.Min | src/main/java/com/example/ml/model/Perceptron.java:47 | `Math.min` is one of its arguments and no larger than either |
| Instances.Instance.constructor | src/main/java/com/example/ml/data/Instance.java:10-13 | the instance holds exactly the given features and label |
| Instances.Instance.SetFeature | src/main/java/com/example/ml/data/Instance.java:19-21 | only position `index` is replaced; the length and every other position are unchanged; the label is not touched |
| Instances.Instance.SetLabel | src/main/java/com/example/ml/data/Instance.java:27-29 | the label becomes the new label; the features are not touched |
| Instances.Examples | src/main/java/com/example/ml/data/Instance.java:15-25 | the snapshot of a list of instances has one entry per instance, each with that instance's current features and label |
| Instances.ExamplesSlice | src/main/java/com/example/ml/data/Dataset.java:78-80 | the snapshot of a sub-list is the same sub-list of the snapshot |
| Instances.LabelsOf | src/main/java/com/example/ml/evaluation/Precision.java:22-23 | the label list has one entry per instance, the i-th being instance i's label |
| Datasets.ConvertedLabels | src/main/java/com/example/ml/data/Dataset.java:27-33 | label conversion keeps the number of labels |
| Datasets.ConversionSettles | src/main/java/com/example/ml/data/Dataset.java:27-33 | after conversion no label is 0; every non-zero label is unchanged; converting twice equals converting once |
| Datasets.SquaredDeviations | src/main/java/com/example/ml/data/Dataset.java:48-53 | the sum of squared deviations is never negative |
| Datasets.StdDev | src/main/java/com/example/ml/data/Dataset.java:54-58 | the stored deviation is positive; it is sqrt(population variance) whenever that is non-zero, and otherwise the replacement 1 |
| Datasets.StandardizeRoundTrip | src/main/java/com/example/ml/data/Dataset.java:66-69 | standardising loses no information: multiplying each scaled feature by stdDevs[j] and adding means[j] gives back the original features |
| Datasets.DeviationSumShift | src/main/java/com/example/ml/data/Dataset.java:93-101 | the sum of deviations from mu equals the feature sum minus n·mu |
| Datasets.ScaledSum | src/main/java/com/example/ml/data/Dataset.java:62-72 | after scaling, the feature-j column sums to the sum of deviations divided by stdDevs[j] |
| Datasets.StandardizedMeanZero | src/main/java/com/example/ml/data/Dataset.java:85-108 | when means[j] is the training mean, every standardised feature of the training slice has mean exactly 0, the property the debug block recomputes |
| Datasets.ValidationSize | src/main/java/com/example/ml/data/Dataset.java:76 | ⌊0.15·n⌋ never exceeds n |
| Datasets.SlicesCover | src/main/java/com/example/ml/data/Dataset.java:78-80 | the three contiguous slices, in order, concatenate to the whole list |
| Datasets.Dataset.constructor | src/main/java/com/example/ml/data/Dataset.java:16-21 | the dataset holds the given list and two fresh, distinct, zero-filled arrays of length inputSize |
| Datasets.Dataset.ConvertLabelsToMinusOne | src/main/java/com/example/ml/data/Dataset.java:27-33 | each instance's label 0 becomes −1 and every other label is kept; the label list becomes ConvertedLabels of the old list; no feature changes |
| Datasets.Dataset.ComputeMeans | src/main/java/com/example/ml/data/Dataset.java:35-44 | means[j] is the arithmetic mean of feature j over the given list, for every j |
| Datasets.Dataset.FeatureTotal | src/main/java/com/example/ml/data/Dataset.java:37-41 | the inner loop's total is the feature-j column sum |
| Datasets.Dataset.ComputeStdDevs | src/main/java/com/example/ml/data/Dataset.java:46-60 | stdDevs[j] is the population standard deviation of feature j about means[j], or 1 where that is 0, so every entry is non-zero |
| Datasets.Dataset.DeviationTotal | src/main/java/com/example/ml/data/Dataset.java:48-53 | the inner loop's total is the sum of squared deviations from mu |
| Datasets.Dataset.Standardize | src/main/java/com/example/ml/data/Dataset.java:62-72 | every instance's features become (v − means[j]) / stdDevs[j], in place; feature counts are unchanged; no division by zero |
| Datasets.Dataset.StandardizeInstance | src/main/java/com/example/ml/data/Dataset.java:64-70 | one instance's features become their scaled values |
| Datasets.Dataset.TrainTestSplit | src/main/java/com/example/ml/data/Dataset.java:74-110 | it fails (IndexOutOfBounds) exactly when ⌊n·r⌋ < 0 or ⌊n·r⌋ + ⌊0.15·n⌋ > n, and then changes nothing. Otherwise: the result is the three contiguous slices; means and stdDevs are the statistics of the training slice before scaling; every stdDev is non-zero; the instances are scaled with those statistics exactly when the flag is set |
| Datasets.Dataset.SplitAt | src/main/java/com/example/ml/data/Dataset.java:78-91 | the three slices at t and u; the training-slice statistics; scaling of all three slices when the flag is set |
| Datasets.Dataset.ComputeStatistics | src/main/java/com/example/ml/data/Dataset.java:82-83 | means then stdDevs of the given list, which itself is left unchanged |
| Datasets.Dataset.StandardizeSlices | src/main/java/com/example/ml/data/Dataset.java:88-90 | standardising the three slices scales every instance of the list exactly once |
| Datasets.Dataset.StandardizeRange | src/main/java/com/example/ml/data/Dataset.java:88-90 | standardising one slice scales the instances inside it and leaves those outside it unchanged, even though the slice shares its objects with the list |
| Datasets.Dataset.Shuffle | src/main/java/com/example/ml/data/Dataset.java:112-114 | the list is permuted in place: same length, same multiset of instances |
| Sorting.Sort | src/main/java/com/example/ml/model/DecisionTree.java:95 | the sorted list is ascending and a permutation of the input |
| Sorting.SortedNeighbours | src/main/java/com/example/ml/model/DecisionTree.java:95-99 | two distinct adjacent sorted values both occur in the input, and no input value lies strictly between them |
| TreeNodes.Fresh | src/main/java/com/example/ml/model/TreeNode.java:7-19 | a new node is not a leaf, has feature index −1, threshold NaN, no children and label −1 |
| DecisionTrees.MajorityOfPure | src/main/java/com/example/ml/model/DecisionTree.java:153-161 | the majority label is 0 or 1; it is 1 exactly when 2·count(label 1) >= n (so ties and empty data give 1); a pure non-empty list gives its own label |
| DecisionTrees.ShareGiniRange | src/main/java/com/example/ml/model/DecisionTree.java:137-139 | 1 − p² − (1−p)² lies in [0, 1/2]; it is 0 exactly at p = 0 or 1 and 1/2 at p = 1/2 |
| DecisionTrees.GiniRange | src/main/java/com/example/ml/model/DecisionTree.java:129-140 | Gini impurity lies in [0, 1/2]; it is 0 exactly when no label or every label is 1 (including empty data); it is 1/2 for a balanced list |
| DecisionTrees.PartitionSplits | src/main/java/com/example/ml/model/DecisionTree.java:67-77 | the left and right lists together are a permutation of the data |
| DecisionTrees.PartitionMembers | src/main/java/com/example/ml/model/DecisionTree.java:67-77 | an example is on the left exactly when its feature is <= threshold, and on the right exactly when it is > threshold |
| DecisionTrees.Column | src/main/java/com/example/ml/model/DecisionTree.java:91-94 | the value list holds feature f of every example, in order |
| DecisionTrees.ScanFindsFirstMinimum | src/main/java/com/example/ml/model/DecisionTree.java:86-105 | the strict-< scan finds nothing exactly when there are no candidates; otherwise it returns the first candidate of least impurity |
| DecisionTrees.FeatureCutsEmpty | src/main/java/com/example/ml/model/DecisionTree.java:91-105 | a feature yields no threshold exactly when it is constant over the data |
| DecisionTrees.NoSplitIffConstant | src/main/java/com/example/ml/model/DecisionTree.java:85-108 | the best split is null exactly when every feature is constant over the data |
| DecisionTrees.CutsUpToMidpoints | src/main/java/com/example/ml/model/DecisionTree.java:97-99 | every threshold is the midpoint of two distinct adjacent sorted values |
| DecisionTrees.HalfwaySeparates | src/main/java/com/example/ml/model/DecisionTree.java:99-120 | a threshold halfway between two adjacent data values puts at least one example on each side |
| DecisionTrees.FindBestSeparates | src/main/java/com/example/ml/model/DecisionTree.java:85-127 | a found split reads an existing feature, is such a midpoint, leaves both sides non-empty, records its weighted Gini, and is the first minimum over all candidates in (feature, threshold) order |
| DecisionTrees.NodeSplit | src/main/java/com/example/ml/model/DecisionTree.java:51-62 | a node splits only below maxDepth, on non-empty data, on an existing feature |
| DecisionTrees.GrowWellFormed | src/main/java/com/example/ml/model/DecisionTree.java:48-83 | a built tree is well formed: leaves keep the split defaults, have no children and label 0 or 1; internal nodes keep label −1 and have a threshold and both children. Every split reads a feature the data has |
| DecisionTrees.GrowHeight | src/main/java/com/example/ml/model/DecisionTree.java:48-55 | the tree is at most max(maxDepth − depth, 0) levels deep; at depth >= maxDepth it is the majority leaf |
| DecisionTrees.Classify | src/main/java/com/example/ml/model/DecisionTree.java:163-174 | walking a well-formed tree with the <= rule ends at a leaf label of 0 or 1 |
| DecisionTrees.Side | src/main/java/com/example/ml/model/DecisionTree.java:67-80 | the side an input is routed to is drawn from the data and keeps every example with that input's features |
| DecisionTrees.GrowClassifies | src/main/java/com/example/ml/model/DecisionTree.java:48-83 | any input as wide as the training data can be routed through the built tree, and its label is the majority label of the training subset routed with it |
| DecisionTrees.ReachDrawn | src/main/java/com/example/ml/model/DecisionTree.java:163-174 | the training subset at the reached leaf is drawn from the training data and contains every training example with the input's features |
| DecisionTrees.Predictions | src/main/java/com/example/ml/model/DecisionTree.java:176-182 | one prediction per input, in order, each the tree's classification of that input |
| DecisionTrees.GrownPredictions | src/main/java/com/example/ml/model/DecisionTree.java:176-182 | each prediction of the trained tree is the majority label of the training subset its input reaches |
| DecisionTrees.DecisionTree.constructor | src/main/java/com/example/ml/model/DecisionTree.java:19-22 | no root yet; the two limits are stored |
| DecisionTrees.DecisionTree.Train | src/main/java/com/example/ml/model/DecisionTree.java:25-29 | the root becomes the tree grown from the training set at depth 0 |
| DecisionTrees.DecisionTree.Test | src/main/java/com/example/ml/model/DecisionTree.java:32-46 | the metrics are those of the tree's predictions against the labels, with positive label 1 and negative label 0 |
| DecisionTrees.DecisionTree.BuildTree | src/main/java/com/example/ml/model/DecisionTree.java:48-83 | the recursive builder returns exactly the specified tree Grow |
| DecisionTrees.DecisionTree.Partition | src/main/java/com/example/ml/model/DecisionTree.java:67-77 | the loop builds exactly the left (<=) and right (>) lists |
| DecisionTrees.DecisionTree.FindBestSplit | src/main/java/com/example/ml/model/DecisionTree.java:85-108 | the nested loops return exactly the first-minimum split FindBest |
| DecisionTrees.DecisionTree.ScanFeature | src/main/java/com/example/ml/model/DecisionTree.java:90-105 | one pass of the feature loop extends the running best by that feature's thresholds |
| DecisionTrees.DecisionTree.ScanThresholds | src/main/java/com/example/ml/model/DecisionTree.java:97-105 | the threshold loop ends with the running best over all adjacent pairs |
| DecisionTrees.DecisionTree.ConsiderThreshold | src/main/java/com/example/ml/model/DecisionTree.java:98-104 | one threshold step skips equal neighbours and otherwise keeps the strictly better split |
| DecisionTrees.DecisionTree.FeatureValues | src/main/java/com/example/ml/model/DecisionTree.java:91-94 | the collected values are feature f of every example, in order |
| DecisionTrees.DecisionTree.ComputeSplitGini | src/main/java/com/example/ml/model/DecisionTree.java:110-127 | the result is the size-weighted Gini of the two sides |
| DecisionTrees.DecisionTree.Gini | src/main/java/com/example/ml/model/DecisionTree.java:129-140 | the loop computes the Gini impurity |
| DecisionTrees.DecisionTree.IsPure | src/main/java/com/example/ml/model/DecisionTree.java:142-151 | the loop answers whether every label equals the first (true on empty data) |
| DecisionTrees.DecisionTree.MajorityLabel | src/main/java/com/example/ml/model/DecisionTree.java:153-161 | the loop computes the majority label |
| DecisionTrees.DecisionTree.PredictSingle | src/main/java/com/example/ml/model/DecisionTree.java:163-174 | the while loop over nodes returns the tree's classification |
| DecisionTrees.DecisionTree.GetPredictions | src/main/java/com/example/ml/model/DecisionTree.java:176-182 | the loop returns the tree's predictions, one per input in order |
| Metrics.CountTotal | src/main/java/com/example/ml/evaluation/Precision.java:22-39 | tp+fp+fn+tn is the number of instances whose label is one of the two designated labels, so it is at most the number of instances |
| Metrics.CountSplitsByPrediction | src/main/java/com/example/ml/evaluation/Precision.java:23-38 | tp+fn counts the positive labels and tn+fp the negative ones |
| Metrics.PrecisionOf | src/main/java/com/example/ml/evaluation/Precision.java:41 | precision is NaN exactly when tp+fp = 0, and otherwise lies in [0, 1] |
| Metrics.F1 | src/main/java/com/example/ml/evaluation/F1Score.java:24 | F1 is a number exactly when both inputs are numbers and p + r ≠ 0; otherwise NaN |
| Metrics.F1Symmetric | src/main/java/com/example/ml/evaluation/F1Score.java:24 | F1(p, r) = F1(r, p) |
| Metrics.F1OfEqual | src/main/java/com/example/ml/evaluation/F1Score.java:24 | F1(p, p) = p for p > 0 |
| Metrics.F1Between | src/main/java/com/example/ml/evaluation/F1Score.java:24 | for rates with p + r > 0, F1 lies between min(p, r) and max(p, r) |
| Metrics.WorkedExample | src/main/java/com/example/ml/evaluation/Precision.java:16-42 | on labels [1,1,0,0] and predictions [1,0,0,1], each counter is 1 and precision and F1 are both 0.5 |
| Metrics.Precision.constructor | src/main/java/com/example/ml/evaluation/Precision.java:11-14 | the two designated labels are stored |
| Metrics.Precision.Evaluate | src/main/java/com/example/ml/evaluation/Precision.java:16-42 | the counting loop yields tp / (tp+fp) over the confusion counts |
| Metrics.F1Score.constructor | src/main/java/com/example/ml/evaluation/F1Score.java:11-14 | the two designated labels are stored |
| Metrics.F1Score.Evaluate | src/main/java/com/example/ml/evaluation/F1Score.java:16-25 | F1 of the precision and recall for the same label pair |
| Metrics.ComputeMetrics | src/main/java/com/example/ml/evaluation/EvaluationMetrics.java:9-20 | the four-field record built from accuracy, precision, recall and F1, whose precision is a rate |
| Linear.InitialWeight | src/main/java/com/example/ml/model/Perceptron.java:29 | `nextDouble() * 0.02 − 0.01` lies in [−0.01, 0.01) |
| Linear.DrawWeights | src/main/java/com/example/ml/model/Perceptron.java:25-30 | a fresh array of length inputSize, each weight an initial weight of its draw |
| Linear.LinearOutput | src/main/java/com/example/ml/model/Perceptron.java:113-117 | the loop returns bias + Σ x[i]·w[i] |
| Linear.AddScaledInto | src/main/java/com/example/ml/model/Perceptron.java:57-59 | the accumulator gets c·x added position-wise |
| Linear.ArrayCopy | src/main/java/com/example/ml/model/Perceptron.java:73 | `System.arraycopy` leaves the destination equal to the source |
| Linear.Zeros | src/main/java/com/example/ml/model/Perceptron.java:26 | a new double array is all zeros |
| Linear.DotOfZeros | src/main/java/com/example/ml/model/Perceptron.java:114-117 | zero weights give a zero dot product |
| Linear.Batches | src/main/java/com/example/ml/model/Perceptron.java:46-48 | every batch bound lies inside the list and is non-empty |
| Linear.BatchesCover | src/main/java/com/example/ml/model/Perceptron.java:46-48 | the batches together visit the list exactly once, in order |
| Linear.BatchesShape | src/main/java/com/example/ml/model/Perceptron.java:46-48 | batches are contiguous and at most batchSize long; all but the last are exactly batchSize long; they start at 0 and end at n |
| Linear.Checkpoint | src/main/java/com/example/ml/model/Perceptron.java:94-98 | strictly better accuracy snapshots the current parameters and records the accuracy; otherwise nothing changes |
| Linear.Restore | src/main/java/com/example/ml/model/Perceptron.java:73-74 | the current parameters become the checkpoint; nothing else changes |
| Linear.RestoreIdempotent | src/main/java/com/example/ml/model/Perceptron.java:71-76 | restoring twice is restoring once, so repeated tests see the same parameters |
| Linear.ReplayBest | src/main/java/com/example/ml/model/Perceptron.java:90-101 | the best accuracy never decreases and bounds every numeric epoch accuracy; the current parameters are the last epoch's |
| Linear.ReplayCheckpoint | src/main/java/com/example/ml/model/Perceptron.java:90-101 | the checkpoint is either the initial one (no epoch beat the start) or the parameters of the first epoch that reached the final best accuracy |
| Linear.NoImprovementKeepsCheckpoint | src/main/java/com/example/ml/model/Perceptron.java:94-98 | an unchanged best accuracy means an unchanged checkpoint |
| Training.EpochFromRunsBatches | src/main/java/com/example/ml/model/Perceptron.java:46-64 | the epoch loop applies the update rule once per contiguous batch, in order |
| Training.Trajectory | src/main/java/com/example/ml/model/Perceptron.java:43-66 | one parameter snapshot per epoch |
| Training.Accuracies | src/main/java/com/example/ml/model/Perceptron.java:65 | one validation accuracy per epoch, each that of the epoch's parameters |
| Training.TrainedKeepsCheckpoint | src/main/java/com/example/ml/model/Perceptron.java:43-66 | training never lowers the best accuracy; if it is unchanged, restoring gives the initial checkpoint |
| Perceptrons.Predictions | src/main/java/com/example/ml/model/Perceptron.java:103-110 | one prediction per input, in order |
| Perceptrons.ErrorValues | src/main/java/com/example/ml/model/Perceptron.java:54-56 | for labels ±1 the truncated error is in {−1,0,1}, is 0 exactly on a correct prediction, and equals (label − prediction)/2. Label 0 gives error 0, where floor division would give −1 |
| Perceptrons.Delta | src/main/java/com/example/ml/model/Perceptron.java:50-61 | the batch update has one entry per weight |
| Perceptrons.DeltaAppend | src/main/java/com/example/ml/model/Perceptron.java:50-61 | the batch update is a sum: the update of a concatenation is the sum of the updates |
| Perceptrons.NoMistakeNoChange | src/main/java/com/example/ml/model/Perceptron.java:50-63 | a batch without mistakes yields a zero update and leaves weights and bias unchanged |
| Perceptrons.UnimprovedPredictsPositive | src/main/java/com/example/ml/model/Perceptron.java:71-76 | if no epoch beat the initial accuracy, testing restores the zero checkpoint and every prediction is +1 |
| Perceptrons.Perceptron.constructor | src/main/java/com/example/ml/model/Perceptron.java:24-37 | weights of length inputSize and the bias are initial weights in [−0.01, 0.01); checkpoint zero; best accuracy 0; hyper-parameters stored |
| Perceptrons.Perceptron.Predict | src/main/java/com/example/ml/model/Perceptron.java:112-124 | +1 when bias + Σ w·x >= 0, otherwise −1 |
| Perceptrons.Perceptron.GetPredictions | src/main/java/com/example/ml/model/Perceptron.java:103-110 | the loop returns the predictions, one per input in order |
| Perceptrons.Perceptron.UpdateWeights | src/main/java/com/example/ml/model/Perceptron.java:126-131 | the update is added to the weights and the bias; nothing else changes |
| Perceptrons.Perceptron.AccumulateExample | src/main/java/com/example/ml/model/Perceptron.java:52-61 | one example adds lr·error·x and lr·error to the accumulators |
| Perceptrons.Perceptron.AccumulateBatch | src/main/java/com/example/ml/model/Perceptron.java:50-61 | the accumulators end as the batch's summed update |
| Perceptrons.Perceptron.RunBatch | src/main/java/com/example/ml/model/Perceptron.java:47-63 | one batch applies one update step; the checkpoint is untouched |
| Perceptrons.Perceptron.NextBatch | src/main/java/com/example/ml/model/Perceptron.java:46-63 | advancing by one batch keeps the remaining epoch on track |
| Perceptrons.Perceptron.RunEpoch | src/main/java/com/example/ml/model/Perceptron.java:46-64 | the batch loop performs exactly the specified epoch |
| Perceptrons.Perceptron.Validate | src/main/java/com/example/ml/model/Perceptron.java:90-101 | the returned accuracy is that of the current parameters; the state follows the checkpoint rule |
| Perceptrons.Perceptron.Train | src/main/java/com/example/ml/model/Perceptron.java:40-68 | the state after training is the specified run over the given epoch orders |
| Perceptrons.Perceptron.RestoreCheckpoint | src/main/java/com/example/ml/model/Perceptron.java:73-74 | weights and bias become the checkpoint |
| Perceptrons.Perceptron.Test | src/main/java/com/example/ml/model/Perceptron.java:71-88 | the checkpoint is restored first; the metrics are those of the restored model's predictions with labels 1 / −1 |
| Logistic.Sigmoid | src/main/java/com/example/ml/model/LogisticRegression.java:39-41 | 1 / (1 + exp(−z)) lies strictly between 0 and 1 |
| Logistic.SigmoidThreshold | src/main/java/com/example/ml/model/LogisticRegression.java:138-139 | for an increasing exp, sigmoid(z) >= 0.5 exactly when z >= 0 |
| Logistic.PredictLabelIsSign | src/main/java/com/example/ml/model/LogisticRegression.java:135-152 | the 0/1 label is 1 exactly when bias + Σ w·x >= 0 |
| Logistic.Predictions | src/main/java/com/example/ml/model/LogisticRegression.java:135-143 | one 0/1 prediction per input, in order |
| Logistic.Gradient | src/main/java/com/example/ml/model/LogisticRegression.java:55-67 | the gradient has one entry per weight |
| Logistic.GradientAppend | src/main/java/com/example/ml/model/LogisticRegression.java:55-67 | the accumulated gradient of a concatenation is the sum of the gradients |
| Logistic.Averaged | src/main/java/com/example/ml/model/LogisticRegression.java:68-72 | averaging keeps the number of weights |
| Logistic.DuplicatedBatchSameStep | src/main/java/com/example/ml/model/LogisticRegression.java:55-74 | dividing by the actual batch length means a batch repeated twice gives the same step as the batch once |
| Logistic.StepMovesBiasTowardLabel | src/main/java/com/example/ml/model/LogisticRegression.java:55-74 | for lr > 0, a batch labelled all 1 raises the bias and one labelled all 0 lowers it |
| Logistic.UnimprovedPredictsPositive | src/main/java/com/example/ml/model/LogisticRegression.java:85-90 | if no epoch beat the initial accuracy, testing restores the zero checkpoint and every prediction is 1 |
| Logistic.Clamp | src/main/java/com/example/ml/model/LogisticRegression.java:111-114 | the clamped prediction lies in [1e-15, 1 − 1e-15] and equals the prediction when that is already inside |
| Logistic.LossTermOf | src/main/java/com/example/ml/model/LogisticRegression.java:108-116 | each loss term takes logs only of values strictly between 0 and 1 |
| Logistic.LossNonNegative | src/main/java/com/example/ml/model/LogisticRegression.java:104-120 | for 0/1 labels the loss of a non-empty set is a number >= 0; the loss of an empty set is NaN |
| Logistic.LogisticRegression.constructor | src/main/java/com/example/ml/model/LogisticRegression.java:24-37 | initialisation exactly as the perceptron's |
| Logistic.LogisticRegression.Predict | src/main/java/com/example/ml/model/LogisticRegression.java:145-152 | the sigmoid of bias + Σ w·x, strictly between 0 and 1 |
| Logistic.LogisticRegression.GetPredictions | src/main/java/com/example/ml/model/LogisticRegression.java:135-143 | the loop returns the 0/1 predictions, one per input in order |
| Logistic.LogisticRegression.UpdateWeights | src/main/java/com/example/ml/model/LogisticRegression.java:154-159 | lr·gradient is subtracted from the weights and the bias; nothing else changes |
| Logistic.LogisticRegression.AccumulateExample | src/main/java/com/example/ml/model/LogisticRegression.java:58-67 | one example adds (prediction − label)·x and (prediction − label) |
| Logistic.LogisticRegression.AccumulateBatch | src/main/java/com/example/ml/model/LogisticRegression.java:55-67 | the accumulators end as the batch's gradient |
| Logistic.LogisticRegression.AverageUpdate | src/main/java/com/example/ml/model/LogisticRegression.java:68-72 | the gradient is divided by the actual batch length |
| Logistic.LogisticRegression.RunBatch | src/main/java/com/example/ml/model/LogisticRegression.java:52-74 | one batch applies one averaged descent step; the checkpoint is untouched |
| Logistic.LogisticRegression.NextBatch | src/main/java/com/example/ml/model/LogisticRegression.java:51-74 | advancing by one batch keeps the remaining epoch on track |
| Logistic.LogisticRegression.RunEpoch | src/main/java/com/example/ml/model/LogisticRegression.java:51-75 | the batch loop performs exactly the specified epoch |
| Logistic.LogisticRegression.Validate | src/main/java/com/example/ml/model/LogisticRegression.java:122-133 | the returned accuracy is that of the current parameters; the state follows the checkpoint rule |
| Logistic.LogisticRegression.Train | src/main/java/com/example/ml/model/LogisticRegression.java:44-82 | the state after training is the specified run over the given epoch orders |
| Logistic.LogisticRegression.ExampleLoss | src/main/java/com/example/ml/model/LogisticRegression.java:109-116 | one instance's clamped log-likelihood term |
| Logistic.LogisticRegression.ComputeLoss | src/main/java/com/example/ml/model/LogisticRegression.java:104-120 | the loop returns −(sum of terms)/m, NaN for an empty set |
| Logistic.LogisticRegression.RestoreCheckpoint | src/main/java/com/example/ml/model/LogisticRegression.java:87-88 | weights and bias become the checkpoint |
| Logistic.LogisticRegression.Test | src/main/java/com/example/ml/model/LogisticRegression.java:85-102 | the checkpoint is restored first; the metrics are those of the restored model's predictions with labels 1 / 0 |

## Left out

- The JavaFX user interface, its worker thread, `Main`, `DataLoader` (file reading and parsing) and `ModelSerializer` (object serialisation): these are I/O and concurrency, not learning logic.
- Plotting (`plotMetrics`, `plotValidationAccuracies`, `plot`), `evaluateAndStore` and all console output. Output has no effect on the model state. `DecisionTree.train` evaluates the validation set only to print it, so the model's `Train` ignores the validation set.
- `convertPredictions` in `DecisionTree`: it is never called.
- The `Model` and `EvaluationMeasure` interfaces declare signatures only. Each class implements its methods directly.
- `Accuracy` and `Recall` are not part of this model. They are opaque `Measure` parameters. `Metrics.F1` requires both arguments to be NaN or in [0, 1]. So do `Metrics.F1Score.Evaluate`, `Metrics.MetricsOf` and `Metrics.ComputeMetrics`, which require the recall to be such a rate. The three `Test` methods require it through `RateMeasure(recall)`. The reason is fidelity, not the bounds. For non-rates with p + r = 0 and p·r ≠ 0, Java's `2 * ((p*r)/(p+r))` (F1Score.java:24) is ±Infinity, and the model's values have no infinities.
- IEEE-754 rounding, −0.0, infinities and NaN comparison rules: doubles are exact reals. NaN appears where the code divides zero by zero, in `TreeNodes.Fresh` (Java's `Double.NaN` default for a node's threshold), and in the `Validation` functions of the two linear learners. Those return NaN for validation examples narrower than the weights, which `Train`'s requires rule out, so it is only a placeholder.
  - `Logistic.Sigmoid` and `Logistic.LogisticRegression.Predict` state a strict (0, 1) range, which holds for reals. In doubles, `1.0 / (1 + Math.exp(-z))` saturates to exactly 1.0 for z above about 37, and rounds to 0.0 for very negative z. That is why Java's `computeLoss` clamps, and the model keeps the clamp.
  - The debug block of `trainTestSplit` (Dataset.java:93-108) has no effect and is not modelled. Its mean-zero property is proved as `StandardizedMeanZero`.
  - `Double.equals` on sorted values is modelled as `==` on reals.
- The values of `Math.exp`, `Math.log` and `Math.sqrt`: they are parameters with only the facts stated above.
- The sequence of `java.util.Random(42)` and of `Collections.shuffle`. Draws in [0, 1) give the initial weights. Swap positions give `Dataset.shuffle`. Training takes any list of per-epoch orders that are permutations of the training set.
- The `featureParser.apply(Double.toString(...))` round trip in `standardize` is the identity on reals.
- Labels are compared by value. Java compares boxed `Integer`s with `==`, which behaves like value equality only for the cached small integers the code uses.
- `TreeNode` is an immutable record, not a mutable node object. The builder writes each new node's fields before any other code can see the node, so nothing observes the difference.
- `Collections.sort` is the specification function `Sorting.Sort`. Any sort produces the same ascending permutation.
- DecisionTrees.Grow: requires every training example to have the same number of features. With uneven widths, Java may throw while reading `data.get(0)`'s width.
- DecisionTrees.DecisionTree.ComputeSplitGini: the weighted impurity is not proved to lie in [0, 1/2]. Only the per-side bound `GiniRange` is proved.
- Datasets.Dataset.ComputeMeans: requires a non-empty list. On an empty list Java stores NaN (0.0 / 0).
- Datasets.Dataset.ComputeStdDevs: requires a non-empty list, for the same reason.
- Datasets.Dataset.TrainTestSplit: requires a non-empty training slice when the sizes fit. Java would store NaN statistics from an empty one.
- Datasets.Dataset.TrainTestSplit: requires distinct instance objects when standardising. Java would scale an instance that appears twice twice.
- Datasets.Dataset.TrainTestSplit: requires every instance to have exactly `means.length` features.
- Datasets.Dataset.TrainTestSplit: a cast `(int)` of a product above 2^31 saturates in Java. Such products are far past any list length, so the split fails there as well.
- Datasets.Dataset.Standardize: requires non-zero standard deviations, distinct instances, and no instance wider than the statistics arrays. Inside `trainTestSplit`, the only caller, `computeStdDevs` establishes the non-zero deviations. The other two are requirements on `trainTestSplit`'s own caller (see its lines above).
- Perceptrons.Perceptron.Train: requires batchSize > 0. Java loops forever on a size of 0 and throws on a negative one.
- Logistic.LogisticRegression.Train: requires batchSize > 0, for the same reason.
- Perceptrons.Perceptron.Train: requires every training and validation example to have at least as many features as there are weights.
- Perceptrons.Perceptron.Train: takes the training set as a value. Java's `Collections.shuffle(trainSet)` leaves the caller's list in the last epoch's order; the model does not return that order. The learned parameters do not depend on it.
- Logistic.LogisticRegression.Train: requires every training and validation example to have at least as many features as there are weights.
- Logistic.LogisticRegression.Train: takes the training set as a value. Java's `Collections.shuffle(trainSet)` leaves the caller's list in the last epoch's order; the model does not return that order. The learned parameters do not depend on it.
- Perceptrons.Perceptron.Test: requires every test example to have at least as many features as there are weights. On a narrower example Java's `predict` throws `IndexOutOfBoundsException`; that exception path is not modelled.
- Logistic.LogisticRegression.Test: requires every test example to have at least as many features as there are weights. On a narrower example Java's `predict` throws `IndexOutOfBoundsException`; that exception path is not modelled.
- DecisionTrees.DecisionTree.Test: requires a trained root and test inputs wide enough for every split the tree reads. Java throws `NullPointerException` when `test` runs on a non-empty set before `train`, and `IndexOutOfBoundsException` on an input narrower than a split feature. Neither exception path is modelled. The model also excludes the one case where Java still returns metrics without a root: an empty test set.
- DecisionTrees.DecisionTree.PredictSingle: requires a trained root and an input wide enough for the tree, for the same reason.
- Instances.Instance.constructor: stores the feature list as a value. Java stores the `List` reference, so another holder of that same list would see `setFeature`'s writes and could change the instance's features behind its back. The model captures sharing of `Instance` objects (the split lists share them with the dataset) but not sharing of the feature lists inside them. No code in this model keeps a second reference to a feature list. Sharing of the instance list itself is covered under `Datasets.Dataset.constructor`.
- Datasets.Dataset.constructor: stores the instance list as a value. Java keeps the caller's `List` (Dataset.java:17), so `shuffle()` also reorders the caller's list, and `getInstances()` returns that same list. The model's `Shuffle` reorders only the dataset's own sequence. The two callers of `shuffle()` do not read their list afterwards.
- Datasets.Dataset.constructor: takes `inputSize` as a `nat`. For a negative size, Java's `new double[inputSize]` (Dataset.java:18) throws `NegativeArraySizeException`; that exception path is not modelled.
- Perceptrons.Perceptron.constructor: takes `inputSize` as a `nat`. For a negative size, Java's `new double[inputSize]` (Perceptron.java:25) throws `NegativeArraySizeException`; that exception path is not modelled.
- Logistic.LogisticRegression.constructor: takes `inputSize` as a `nat`. For a negative size, Java's `new double[inputSize]` (LogisticRegression.java:25) throws `NegativeArraySizeException`; that exception path is not modelled.
