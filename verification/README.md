# Multi-predicate screening with active learning and a simulated crowd

This project models, in Dafny, the core of a document-screening pipeline. An item, such as a paper or a review, is included only when it meets every predicate, which is a screening criterion. There is one machine learner per predicate. Each learner queries its unlabelled pool with a sampling strategy, and undersamples the queried negatives so that its training set stays balanced. A simulated crowd labels the queried items by majority vote with an include-biased cut-off, and the learner is refitted. The learners' include-probabilities are fused by a product, which is a conjunction. An exclusion threshold over the fused probability is calibrated on a grid by minimising a screening loss. That loss weighs a false exclusion `lr` times as much as a false inclusion.

The project has five modules:

- `Common`: labels, probabilities, the `Result`/`Error` type, and the numpy-style sequence operations the learners use. These are boolean-mask compression (`nonzero`), fancy indexing and `np.delete`.
- `Metrics`: the screening metrics. These are confusion counts, the loss, and precision, recall and F-beta with their zero-division fallback.
- `Crowd`: the crowd simulation. It is a loop over items and votes, so it is modelled as a method proved against a function.
- `Sampling`: the query strategies (random, objective-aware and mixed), `multi_argmax`, sampling without replacement, and the choice of the initial training set.
- `ActiveLearning`: the query dispatch of the wrapped modAL learner, and two classes whose methods update their fields in place. `Learner` holds one predicate's training set, pool and estimator. `ScreeningActiveLearner` holds the learners, the crowd settings and the threshold `pOut`.

Randomness is an input. Sampling takes a `pick: nat -> nat` source. The crowd takes a function from (item, vote) to two uniform draws. The mixing coin is a `UnitDraw`. Fitted classifiers are functions from a feature vector to the probability of "include". The training algorithm is a `Trainer` function from a training set to a classifier.

## Model

| member | source | states |
|---|---|---|
| Common.KeptPositions | adaptive_machine_and_crowd/src/utils.py:110 | `mask.nonzero()[0]` gives exactly the positions whose mask entry is true, in strictly increasing order and within range |
| Common.CompressPartition | machine_and_crowd_annotate/src/active_learning.py:146-149 | the entries a mask keeps and the entries its negation keeps are together a permutation (multiset) of the array |
| Common.DeleteExactly | machine_and_crowd_annotate/src/active_learning.py:209-210 | `np.delete(s, removed)` keeps exactly the positions not in `removed`, in their original relative order |
| Common.CompressZip | machine_and_crowd_annotate/src/active_learning.py:209-210 | compressing two paired arrays with the same mask keeps every row paired with its label |
| Metrics.ComputeScreeningMetrics | adaptive_machine_and_crowd/src/utils.py:50-78 | the counting loop yields the metrics of the zipped confusion counts; an empty ground truth is a ZeroDivisionError |
| Metrics.TallyCountsEveryPair | adaptive_machine_and_crowd/src/utils.py:59-67 | every (truth, prediction) pair increments exactly one of tp, tn, fp and fn |
| Metrics.ConfusionCountsPartitionPairs | adaptive_machine_and_crowd/src/utils.py:59-67 | the four counts add up to the number of pairs `zip` yields, which is the shorter length |
| Metrics.LossWeighsErrors | adaptive_machine_and_crowd/src/utils.py:59-68 | one more pair raises the loss numerator by `lr` for a false exclusion, by 1 for a false inclusion, and by nothing for a correct label |
| Metrics.LossNonNegative | adaptive_machine_and_crowd/src/utils.py:68 | for a non-empty ground truth and `lr >= 0`, the metrics succeed and the loss is non-negative |
| Metrics.ScoresFallbackIffNoTruePositive | adaptive_machine_and_crowd/src/utils.py:69-76 | the zero-division fallback (all three scores 0, with a warning) happens exactly when tp is 0; otherwise precision, recall and F-beta lie in (0, 1] |
| Metrics.FBetaInUnit | adaptive_machine_and_crowd/src/utils.py:73 | F-beta of a precision and a recall in (0, 1] has a non-zero denominator and lies in (0, 1] |
| Metrics.FallbackIffNoTruePositive | adaptive_machine_and_crowd/src/utils.py:50-78 | the metrics fail iff the ground truth is empty; otherwise they fall back to zero iff no zipped pair is a true positive, and the scores are proper fractions when they do not |
| Metrics.WorkedExample | adaptive_machine_and_crowd/src/utils.py:68-78 | one pair in each cell with `lr = 5` gives precision, recall and F-beta of one half, and a loss of 6/4 |
| Crowd.Vote | adaptive_machine_and_crowd/src/utils.py:38-39 | a worker votes 1 iff its Bernoulli draw falls below its accuracy on a positive item, or below one minus its accuracy on a negative item |
| Crowd.CrowdsourceItems | adaptive_machine_and_crowd/src/utils.py:26-43 | the nested loop returns one label per item, in order; label `i` is the `n // 2` aggregation of item `i`'s `n` votes |
| Crowd.VotesAt | adaptive_machine_and_crowd/src/utils.py:37-40 | vote `k` of an item is the vote cast with that item's `k`-th draw |
| Crowd.HalfIncludes | adaptive_machine_and_crowd/src/utils.py:41 | exactly `n // 2` votes of 1 already include the item |
| Crowd.TwoOfFiveIncludes | adaptive_machine_and_crowd/src/utils.py:41 | a 2-of-5 minority of votes of 1 includes the item |
| Crowd.ExcludedOnlyBelowHalf | adaptive_machine_and_crowd/src/utils.py:41 | an item is excluded iff fewer than `n // 2` votes are 1 |
| Crowd.FewVotesAlwaysInclude | adaptive_machine_and_crowd/src/utils.py:41 | with at most one vote per item, every item is included whatever the votes |
| Crowd.UnanimousTruthIsKept | adaptive_machine_and_crowd/src/utils.py:41 | `n >= 2` votes that all equal the ground truth aggregate to the ground truth |
| Crowd.PerfectWorkerVotesTruth | adaptive_machine_and_crowd/src/utils.py:38-39 | a worker from the accuracy range (1, 1) always votes the ground truth |
| Crowd.UniformMonotone | adaptive_machine_and_crowd/src/utils.py:38 | for a fixed draw, the worker accuracy `random.uniform` gives grows with either end of the accuracy range |
| Crowd.MoreAccurateWorkerVotesTruth | adaptive_machine_and_crowd/src/utils.py:38-39 | on the same draw, a worker from a higher accuracy range votes the ground truth whenever one from a lower range does |
| Crowd.MoreAccurateCrowdVotesTruth | adaptive_machine_and_crowd/src/utils.py:36-40 | on the same draws, a higher accuracy range gives an item no fewer 1-votes if it is positive and no more if it is negative |
| Crowd.MoreAccurateCrowdLabelsTruth | adaptive_machine_and_crowd/src/utils.py:35-42 | on the same draws, a crowd with a higher accuracy range labels an item correctly whenever a crowd with a lower range does |
| Crowd.PerfectCrowdReproducesTruth | adaptive_machine_and_crowd/src/utils.py:34-43 | a perfectly accurate crowd with at least two votes per item returns the ground truth of every item |
| Crowd.SingleVoteIncludesNegative | adaptive_machine_and_crowd/src/utils.py:41 | with one vote per item, even a perfect crowd includes a negative item |
| Sampling.SampleSubset | adaptive_machine_and_crowd/src/utils.py:122 | every entry sampled without replacement is an entry of the population |
| Sampling.SampleDistinct | adaptive_machine_and_crowd/src/utils.py:114-115 | sampling without replacement from distinct entries returns distinct entries |
| Sampling.RandomSampling | adaptive_machine_and_crowd/src/utils.py:121-124 | succeeds iff `n` is positive and at most the pool size; asking for more is the `random.sample` error, asking for none is the IndexError of indexing `X` with an empty float array; a result is `n` distinct pool indices |
| Sampling.MultiArgmax | adaptive_machine_and_crowd/src/utils.py:139 | fails iff the values are empty or fewer than `n`; otherwise returns `n` indices into the values |
| Sampling.MultiArgmaxTop | adaptive_machine_and_crowd/src/utils.py:139 | the chosen indices are distinct, and no index left out holds a larger value than any chosen one |
| Sampling.Uncertainty | adaptive_machine_and_crowd/src/utils.py:130 | the two-class uncertainty is one minus the larger class probability: the smaller of `p` and `1 - p`, in [0, 0.5] |
| Sampling.Uncertainties | adaptive_machine_and_crowd/src/utils.py:130 | one uncertainty per pool row, that of the row's include-probability |
| Sampling.ObjectiveAwareSampling | adaptive_machine_and_crowd/src/utils.py:128-141 | succeeds iff the pool is non-empty and holds at least `n` rows; then returns `n` distinct pool indices |
| Sampling.WeightsWithoutOthers | adaptive_machine_and_crowd/src/utils.py:136-137 | with no other learners the weights are the plain uncertainties |
| Sampling.WeightAtMostUncertainty | adaptive_machine_and_crowd/src/utils.py:131-135 | weighting by the other learners' include-probabilities never raises a row's uncertainty and never makes it negative |
| Sampling.MixSampling | adaptive_machine_and_crowd/src/utils.py:145-163 | the random branch succeeds iff `n` is positive and below the pool size, and asking it for none is an IndexError; the other branch succeeds iff the pool is non-empty and holds at least `n` rows; a result has `n` distinct pool indices |
| Sampling.MixRandomBranchSkipsLastRow | adaptive_machine_and_crowd/src/utils.py:150-151 | the random branch returns distinct indices and never the last pool row |
| Sampling.MixRandomBranchCannotTakeWholePool | adaptive_machine_and_crowd/src/utils.py:151 | asking the random branch for the whole pool fails, while `random_sampling` serves the same request |
| Sampling.EmptyRequestFailsOnlyWhenRandom | adaptive_machine_and_crowd/src/utils.py:121-124 | on a non-empty pool, asking for no rows fails in `random_sampling` and in the random branch of `mix_sampling`, but `objective_aware_sampling` returns the empty batch |
| Sampling.MixExploitBranch | adaptive_machine_and_crowd/src/utils.py:152-161 | when the coin says exploit, `mix_sampling` is `objective_aware_sampling` |
| Sampling.LabelSumZeroIffAllZero | adaptive_machine_and_crowd/src/utils.py:112 | the column sum of an item's predicate labels is 0 iff every predicate label of the item is 0 |
| Sampling.InitTrainingDataIdx | adaptive_machine_and_crowd/src/utils.py:108-117 | succeeds iff there is at least one predicate column, at least `init_train_size // 2` positives and as many all-negative items; then returns twice that many indices. Without predicate columns the sum of no arrays is a plain bool, and `.nonzero()` on it is an AttributeError |
| Sampling.SampleKept | adaptive_machine_and_crowd/src/utils.py:114-115 | sampling from the positions a mask keeps gives distinct positions whose mask entry is true |
| Sampling.InitTrainingDataIdxHalves | adaptive_machine_and_crowd/src/utils.py:108-117 | the first half holds distinct positive items, and the second half distinct items negative on every predicate |
| Sampling.InitTrainingDataIdxDisjoint | adaptive_machine_and_crowd/src/utils.py:108-117 | when every positive item is positive on some predicate, the whole initial training set has no repeated item |
| ActiveLearning.ActiveLearnerQuery | machine_and_crowd_annotate/src/active_learning.py:11-17 | only `objective_aware_sampling` receives the other learners, so `mix_sampling` fails with a TypeError; random succeeds iff `n` is positive and fits the pool, objective-aware iff the pool is non-empty and `n` fits; a result has `n` distinct pool indices |
| ActiveLearning.OthersReachOnlyObjectiveAware | machine_and_crowd_annotate/src/active_learning.py:12-15 | for every strategy but objective-aware, the query does not depend on the other learners |
| ActiveLearning.AdmittedCount | machine_and_crowd_annotate/src/active_learning.py:153-159 | the admitted negatives are exactly those before the first negative whose positive-share test fails: every admitted one passed its test, and the next one fails it |
| ActiveLearning.AdmitNegativesInOrder | machine_and_crowd_annotate/src/active_learning.py:150-161 | the undersampling loop over the queried negatives yields the positives followed by the admitted prefix, and discards the rest; a zero training size is a ZeroDivisionError |
| ActiveLearning.AdmitNegativesSplitsInOrder | machine_and_crowd_annotate/src/active_learning.py:153-161 | the kept indices start with every positive, in order, and the admitted and discarded negatives are together the queried negatives in query order |
| ActiveLearning.UndersamplePartition | machine_and_crowd_annotate/src/active_learning.py:142-161 | the kept and the discarded indices are together a permutation of the queried ones |
| ActiveLearning.UndersampleKeepsPositives | machine_and_crowd_annotate/src/active_learning.py:142-161 | every queried positive is kept, and every discarded index points at a negative pool item; the result is an IndexError iff a queried index is outside the pool |
| ActiveLearning.FusedAppend | machine_and_crowd_annotate/src/active_learning.py:242-243 | one more learner multiplies the fused include-probability by its own |
| ActiveLearning.ScaledFused | machine_and_crowd_annotate/src/active_learning.py:241-243 | one round of the `proba_in *=` loop turns the fused probabilities of the learners so far into those of one learner more |
| ActiveLearning.FuseAll | machine_and_crowd_annotate/src/active_learning.py:241-243 | starting from ones and multiplying in each learner's include-probability leaves every row at the product over all learners |
| ActiveLearning.PredictThresholdMonotone | machine_and_crowd_annotate/src/active_learning.py:248-252 | raising the threshold never excludes an item that a lower threshold includes |
| ActiveLearning.FusionIsConjunctive | machine_and_crowd_annotate/src/active_learning.py:240-252 | one learner sure that an item fails its predicate excludes it at any threshold below 1; an item every learner is sure of is included at any non-negative threshold |
| ActiveLearning.GridShape | machine_and_crowd_annotate/src/active_learning.py:226 | the threshold grid has 23 strictly rising values from 0.5, all below 0.95 |
| ActiveLearning.FirstArgmin | machine_and_crowd_annotate/src/active_learning.py:237 | `min` over the grid's items picks a least loss, and the first one in grid order |
| ActiveLearning.ThresholdLoss | machine_and_crowd_annotate/src/active_learning.py:229-233 | one round of the grid loop gives the loss of the labels predicted at that threshold, or a ZeroDivisionError when there are no labels |
| ActiveLearning.SearchThreshold | machine_and_crowd_annotate/src/active_learning.py:226-237 | the grid loop succeeds iff there are labels and settles on the fitted threshold; otherwise it stops at the first grid value |
| ActiveLearning.FittedThresholdMinimisesLoss | machine_and_crowd_annotate/src/active_learning.py:226-237 | the fitted threshold is a grid value in [0.5, 0.95) whose loss no grid value beats, and every earlier grid value has a strictly larger loss |
| ActiveLearning.Others | machine_and_crowd_annotate/src/active_learning.py:190 | the other learners' keys are exactly the predicates other than the queried one |
| ActiveLearning.Learner.constructor | machine_and_crowd_annotate/src/active_learning.py:120-140 | the learner keeps its threshold, strategy, pool and initial training set, and its estimator is fitted on that training set; the pool rows and labels it is given are paired, and stay so |
| ActiveLearning.Learner.Fit | machine_and_crowd_annotate/src/active_learning.py:223 | the training set is replaced and the estimator refitted on it; the pool and settings are unchanged |
| ActiveLearning.Learner.Undersample | machine_and_crowd_annotate/src/active_learning.py:142-161 | undersampling yields the positives and admitted negatives, and the discarded negatives, as the properties above describe |
| ActiveLearning.ScreeningActiveLearner.constructor | machine_and_crowd_annotate/src/active_learning.py:167-177 | the predicates are the learners' keys, each once, and every parameter but `seed` is kept |
| ActiveLearning.ScreeningActiveLearner.SelectPredicate | machine_and_crowd_annotate/src/active_learning.py:179-185 | succeeds iff there are one or two predicates, and then returns one of them; otherwise it is a ValueError |
| ActiveLearning.ScreeningActiveLearner.SelectPredicateAlternates | machine_and_crowd_annotate/src/active_learning.py:182-183 | with two predicates the rounds alternate between them with period two, starting with the first |
| ActiveLearning.ScreeningActiveLearner.EstimatorsOfAt | machine_and_crowd_annotate/src/active_learning.py:242-243 | entry `k` of the fused classifiers is the estimator of the `k`-th predicate's learner |
| ActiveLearning.ScreeningActiveLearner.PredictProba | machine_and_crowd_annotate/src/active_learning.py:240-246 | row `i` is `(1 - p, p)`, where `p` is the product of every learner's include-probability for item `i` |
| ActiveLearning.ScreeningActiveLearner.Predict | machine_and_crowd_annotate/src/active_learning.py:248-252 | an item is excluded iff its fused exclusion probability exceeds `pOut` |
| ActiveLearning.ScreeningActiveLearner.FitMeta | machine_and_crowd_annotate/src/active_learning.py:225-238 | succeeds iff there are labels, and then sets `pOut` to the first grid threshold of least screening loss; without labels it fails with `pOut` at 0.5 |
| ActiveLearning.ScreeningActiveLearner.Query | machine_and_crowd_annotate/src/active_learning.py:187-197 | the predicate's learner queries its pool with the other learners' estimators, and the queried batch is undersampled; an unknown predicate is a KeyError |
| ActiveLearning.ScreeningActiveLearner.Teach | machine_and_crowd_annotate/src/active_learning.py:199-223 | on success, the queried rows join the training set with their crowd labels, the queried and discarded rows leave the pool, and the estimator is refitted; it fails iff the predicate is unknown or an index is out of range, and then nothing changes; the pool rows and labels stay paired |
| ActiveLearning.TeachKeepsPoolPaired | machine_and_crowd_annotate/src/active_learning.py:209-210 | deleting the same positions from the pool rows and the pool labels keeps them paired |
| ActiveLearning.TeachKeepsTrainingPaired | machine_and_crowd_annotate/src/active_learning.py:201-207 | the new training rows and labels stay paired, and they end with the queried rows and their crowd labels |

## Left out

- Randomness: `random.sample`, `np.random.choice`, `random.uniform`, `np.random.binomial` and the seed are not modelled as generators. Their draws are inputs: `pick`, the crowd's `draws` and the mixing `coin`. The coin appears only in `Sampling.MixSampling`: the learner's query dispatch cannot run `mix_sampling`, so `ActiveLearnerQuery` and `Query` take no coin. The model states what holds for every draw.
- Sampling.SampleFrom: the order in which `random.sample` and `np.random.choice` visit the population is a chosen model, not theirs. Only distinctness, membership and size are meant to carry over.
- Crowd.Vote: `random.uniform` is modelled as `lo + (hi - lo) * u` on exact reals.
- Floating point: probabilities, the loss, the scores and the threshold grid are exact reals. The grid is the 23 values `0.5 + 0.02 k`. The float rounding of `np.arange(0.5, 0.95, 0.02)` and the float ties in `min` and `multi_argmax` are not modelled.
- Sampling.MultiArgmax: among equal values, which index `np.argpartition` picks is not modelled. The model picks the first largest value first and promises only the set property of the top `n`. The order of the returned indices is also not modelled.
- Sampling.MixSampling: `classifier_uncertainty` is computed on the whole pool before the coin is tossed. The scikit-learn error on an empty pool is not modelled.
- ActiveLearning.ScreeningActiveLearner.FitMeta: the class inherits its metrics from the annotate package's own `utils`, which is not part of this model. `fit_meta` unpacks four values from it (machine_and_crowd_annotate/src/active_learning.py:233), so that version presumably returns four with the loss last. The model uses the loss of `compute_screening_metrics` from `adaptive_machine_and_crowd/src/utils.py` in its place. The `print` of the threshold is left out.
- ActiveLearning.ScreeningActiveLearner.FitMeta: the grid loop is `SearchThreshold`, which keeps the threshold in a local, and `FitMeta` assigns `pOut` once at the end. `predict` inside the loop reads only that threshold, so no caller can tell the two apart.
- ActiveLearning.ScreeningActiveLearner.Teach: it requires the predicate's pool rows and labels to be paired, as `setup_active_learner` creates them. Indices are checked against the pool rows.
- ActiveLearning.ScreeningActiveLearner.Teach: negative indices, which numpy counts from the end, are not modelled. Indices are natural numbers.
- ActiveLearning.ScreeningActiveLearner.Teach: the model follows NumPy 1.19 and later for `np.delete`, where an index outside the pool is an IndexError. In that NumPy, `np.delete` also rejects a float index array with an IndexError. `np.concatenate` produces one when the kept or the discard list is empty. That failure is not modelled: the model treats both lists as integer indices, as `teach` intends.
- ActiveLearning.ScreeningActiveLearner.Teach: the class takes `crowdsource_items` from the annotate package's own `utils.CrowdSimulator` (machine_and_crowd_annotate/src/active_learning.py:6, used at :203), which is not part of this model. The model uses `crowdsource_items` from `adaptive_machine_and_crowd/src/utils.py` in its place.
- ActiveLearning.Learner.Undersample: negative indices are not modelled. A queried index outside the pool is an IndexError.
- ActiveLearning.Learner: modAL's `ActiveLearner` is folded into `Learner`. Its training set, estimator and strategy are the learner's fields. The estimator is seen only through its training algorithm (`Trainer`) and the include-probability of the fitted classifier (`Classifier`).
- ActiveLearning.Learner: the fields `seed`, `X_test`, `y_test` and `p_out` are never read by the modelled code and are left out.
- ActiveLearning.ScreeningActiveLearner: the field `seed` (machine_and_crowd_annotate/src/active_learning.py:169) is never read by the modelled code and is left out.
- ActiveLearning.ScreeningActiveLearner.PredictProba: with no predicate at all, numpy's `np.ones` row of ones is the empty product 1. This matches the model.
- Crowd.CrowdsourceItems: with `n <= 1` the rule `count(1) >= n // 2` includes every item. The model keeps this, as stated by `Crowd.FewVotesAlwaysInclude`.
- `ChoosePredicateMixin` is not modelled. It is commented out of the class hierarchy, and the active class uses the plain `select_predicate`.
- Not modelled: the TF-IDF `Vectorizer`, `load_data` (CSV input), `transform_print`, `compute_tpr_tnr` (scikit-learn's confusion matrix) and the experiment driver in `experiment_handler.py` and `main.py`.
- The grid-search code in `teach` is commented out in the source and is not modelled.
