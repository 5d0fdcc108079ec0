# synt trainer, modelled in Dafny

This project models `train` from the synt sentiment package. `train`
trains a Naive Bayes sentiment classifier from counts kept in Redis and
stores the trained classifier back in Redis under its name. One run does
the following:

1. It records the requested sample count under `training_sample_count`.
2. It stops without training when a key named like the classifier
   already exists.
3. It fetches the training samples and has the `RedisManager` count
   features, build frequency distributions and score the features.
4. When `best_features` is truthy, it has the manager select and return
   the best feature names.
5. It reads the processed negative and positive sample counts and builds
   the label totals (`label_freqdist`).
6. It unpickles the conditional frequency distribution `label_fd` and
   builds one present/absent count table per (label, feature name) pair
   (`feature_freqdist`).
7. It wraps every count table in an expected-likelihood estimate
   (`ELEProbDist`) and stores the `NaiveBayesClassifier` built from them.

The project has five modules:

- `Wrappers`: `Option` and `Result`.
- `Nltk`: frequency distributions are integer maps read with a default
  of 0; incrementing by 0 writes nothing, as in NLTK 2. The estimator and
  the classifier are recorded symbolically: the counts and the bin count
  they were built from.
- `Redis`: the database is a `map` from key to `Value`, held by the class
  `Manager`.
  - `Set`, `Get` and `StoreClassifier` change or read it concretely.
  - The counting and selection collaborators are opaque functions of the
    database, gathered in `Collaborators`.
  - A ghost call log records which collaborators a run invoked.
- `Trainer`: `TrainRun` states a whole run as a function of the database
  before the run, built from `Prepare` (counting and selection) and
  `Finish` (tables, estimates and store).
  - The method `Train` performs the run step by step on a `Manager` and
    is proved to agree with `TrainRun`.
  - Its nested loops are `BuildFeatureFreqDist` and `CountRow`; they are
    proved to build the closed-form table `FeatureFreqDist`.
  - The loop over the table's items is `BuildFeatureProbDist`.
- `TrainerProperties`: lemmas about runs and about the feature table.

## Model

| member | source | states |
|---|---|---|
| Redis.Manager.Set | synt/trainer.py:19 | the key holds the new value afterwards; every other key reads back as before |
| Redis.Manager.Get | synt/trainer.py:39 | a stored key gives its value; a missing key gives `None` |
| Redis.Manager.GetSamples | synt/trainer.py:25 | returns the corpus reader's samples for the database file and count, leaves the store alone and logs the call |
| Redis.Manager.StoreFeatureCounts | synt/trainer.py:27 | the store becomes the collaborator's result for the samples and process count; the call is logged |
| Redis.Manager.StoreFreqdists | synt/trainer.py:28 | the store becomes the collaborator's result; the call is logged |
| Redis.Manager.StoreFeatureScores | synt/trainer.py:29 | the store becomes the collaborator's result; the call is logged |
| Redis.Manager.StoreBestFeatures | synt/trainer.py:33 | the store becomes the collaborator's result for the requested amount; the call is logged |
| Redis.Manager.GetBestFeatures | synt/trainer.py:34 | returns the collaborator's feature names for the current store, leaves the store alone and logs the call |
| Redis.Manager.PickleLoad | synt/trainer.py:43 | returns the collaborator's conditional frequency distribution for the key, leaves the store alone and logs the call |
| Redis.Manager.StoreClassifier | synt/trainer.py:68 | the classifier is stored under its name and the rest of the database is unchanged; the store is logged |
| Trainer.ParseCount | synt/trainer.py:39-41 | `int(...)` of a read-back count succeeds exactly for a numeric value and returns that number; a missing key and a non-numeric value give their distinct errors |
| Trainer.LabelFreqDist | synt/trainer.py:36-41 | the label totals read the two processed counts for `negative` and `positive` and 0 for every other label; a label is a key exactly when its count is non-zero |
| Trainer.LabelProbDist | synt/trainer.py:56-57 | the label estimate is built over the label totals with the default bin count, and fails with `NoLabelBins` exactly when the totals sum to 0 |
| Trainer.CountRow | synt/trainer.py:48-53 | one pass over `best_words` for one label adds that label's row of the closed-form table, present = occurrence count and absent = label total minus it, and leaves the other labels' rows alone |
| Trainer.BuildFeatureFreqDist | synt/trainer.py:45-53 | the nested loop fails with `BestWordsNone` exactly when `best_words` is `None` and there is at least one label; otherwise it builds the closed-form table whatever order the labels are visited in |
| Trainer.BuildFeatureProbDist | synt/trainer.py:59-63 | `feature_probdist` has exactly the keys of `feature_freqdist`, and each entry is the estimate of that key's counts over 2 bins |
| Trainer.PrepareStep | synt/trainer.py:25-34 | samples are fetched, counted and scored in order; the store and the returned `best_words` match `Prepare`; selection runs only when `best_features` is non-zero |
| Trainer.Visit | synt/trainer.py:50-53 | one pass of the inner loop body adds the occurrence count to the entry's present count and the label total minus it to its absent count, creating the entry if needed; every other entry is unchanged |
| Trainer.Classifier | synt/trainer.py:65 | the classifier's label estimate is the one given, and its feature estimates have exactly the table's keys, each over 2 bins of that key's counts |
| Trainer.TrainRun | synt/trainer.py:6-68 | the reference definition of a run; a run ends `Trained` exactly when it calls `store_classifier`, and then a pickled classifier is under its name |
| Trainer.FinishStep | synt/trainer.py:36-68 | reading the totals, unpickling `label_fd`, building both tables and storing the classifier leaves the outcome, database and call log that `Finish` gives |
| Trainer.Train | synt/trainer.py:6-68 | a whole call leaves the outcome, database and call log that `TrainRun` gives for the database as the manager found it |
| Trainer.FinishCalls | synt/trainer.py:36-68 | the last stage does not depend on which calls came before it; it only appends its own |
| TrainerProperties.ListedOnce | synt/trainer.py:49 | a feature name listed once in a list without repeats is visited exactly once |
| TrainerProperties.FeatureTableKeys | synt/trainer.py:47-53 | `feature_freqdist` has an entry for exactly every pair of a label of `label_fd` and a name in `best_words` |
| TrainerProperties.FeatureTableCounts | synt/trainer.py:48-53 | each entry holds, per visit, the label's occurrence count of the feature as present and the label total minus it as absent; present plus absent is the visit count times the label total |
| TrainerProperties.Conservation | synt/trainer.py:48-53 | when `best_words` has no repeats, present is the occurrence count and present plus absent is exactly the label's total |
| TrainerProperties.RepeatedNameDoubles | synt/trainer.py:49-53 | a feature name listed twice is counted twice: present plus absent is twice the label total |
| TrainerProperties.AbsentSign | synt/trainer.py:50-51 | an entry's absent count is non-negative exactly when the feature's occurrence count does not exceed the label total |
| TrainerProperties.AbsentCountsNonNegative | synt/trainer.py:48-53 | every absent count in the table is non-negative if and only if no label's occurrence count of a listed feature exceeds that label's total |
| TrainerProperties.UnknownLabelNegativeAbsent | synt/trainer.py:40-51 | a label of `label_fd` other than `negative` and `positive` has total 0, so any feature it saw gets a negative absent count |
| TrainerProperties.GuardSkips | synt/trainer.py:18-25 | a run stops as already trained exactly when the name is a stored key or is `training_sample_count` itself; it then has only recorded the sample count and called nothing; otherwise the first call fetches samples |
| TrainerProperties.RunLeavesName | synt/trainer.py:19-68 | every run that does not fail leaves a key under the classifier's name |
| TrainerProperties.RetrainIsNoOp | synt/trainer.py:19-23 | training again under the same name, with any sample count and any other arguments, after a run that did not fail stops as already trained, calls nothing, and changes only the recorded sample count |
| TrainerProperties.FailureStoresNoClassifier | synt/trainer.py:39-68 | a failed run stores no classifier: the database is what counting and selection left, and no store call is made |
| TrainerProperties.NegativeCountRequired | synt/trainer.py:39-43 | a missing or non-numeric `negative_processed` makes the run fail with the matching error before `label_fd` is unpickled |
| TrainerProperties.NoBestFeatures | synt/trainer.py:31-57 | with `best_features` 0 no selection is made, and the run fails with `BestWordsNone` exactly when `label_fd` has a label; it trains exactly when there is no label and the label totals do not sum to 0 |
| TrainerProperties.TrainedClassifier | synt/trainer.py:36-68 | when the label totals sum to 0 the run fails with `NoLabelBins` and stores nothing; otherwise it stores, under the classifier's name only, a classifier whose label estimate is over the label totals and whose feature estimates cover exactly the labels crossed with `best_words`, each over 2 bins of its table entry |
| TrainerProperties.UnknownLabelStillStored | synt/trainer.py:40-68 | when the label totals do not sum to 0, a label of `label_fd` outside `negative` and `positive` is still trained and stored: it is absent from the label estimate and its features carry negative absent counts |

## Left out

- The `RedisManager` collaborators are opaque functions of the database: `store_feature_counts`, `store_freqdists`, `store_feature_scores`, `store_best_features`, `get_best_features` and `pickle_load`. Their code is not part of this model.
- `get_samples` is the corpus reader, a module function imported beside `RedisManager` (line 3). Its code is not part of this model: it is an opaque function of the corpus file and the count, assumed not to touch Redis. `Redis.Manager.GetSamples` is a `Manager` method only so that its call is logged.
- The program is taken to run under Python 2, as NLTK 2 requires: the Redis client then returns `str` keys, so the guard `classifier in m.r.keys()` (line 21) compares names as modelled. Under Python 3 the keys would be bytes and the guard would never hold.
- `purge`: its only effect is inside the `RedisManager` constructor, which is not part of this model. `Train` takes the manager as already constructed.
- NLTK's code is not part of this model. `Nltk.Inc` and `Trainer.LabelProbDist` follow NLTK 2: `inc` by 0 does nothing, and an estimate with no bin count over a total count of 0 raises `ValueError`. The feature estimates are given 2 bins and have at most 2 keys, so they never raise.
- Pickling is not modelled: a stored classifier is the value `Pickled(c)`.
- The floating-point internals of `ELEProbDist` and `NaiveBayesClassifier` are not modelled. The model records only which counts and which bin count each is built from.
- The informational `print` and the example block run as a script are I/O and are left out.
- `best_features` is an integer; a falsy value is 0. A `None` argument is not modelled separately.
- Any other exception a collaborator can raise (a Redis connection error, a missing `label_fd`) is not modelled. The errors modelled are the three that `train` raises itself and the `ValueError` of the label estimate.
- `Redis.Manager.StoreClassifier`: its code is not part of this model. It is taken to be a single write of the pickled classifier under its name that touches no other key. `TrainerProperties.RunLeavesName` and `TrainerProperties.RetrainIsNoOp` depend on this.
- With `best_features` 0 (lines 31-34), `best_words` stays `None`, and iterating it at line 49 fails as soon as `label_fd` has a label: no run without selection trains on all features. See `TrainerProperties.NoBestFeatures`.
- A failed run is not undone: `training_sample_count` was written at line 19, and the collaborators called before line 39 have made their writes. See `TrainerProperties.FailureStoresNoClassifier`.
