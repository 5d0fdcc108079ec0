/**
  The `train` function of the trainer: it records the requested sample
  count, refuses to retrain a classifier whose name is already stored,
  runs the counting and feature-selection collaborators, builds the label
  totals and the per-(label, feature) present/absent count table, turns
  every count table into an expected-likelihood estimate and stores the
  resulting Naive Bayes classifier under its name.

  `TrainRun` states what a run does, stage by stage, as a function of the
  database before the run; the method `Train` does it step by step and is
  proved to agree with `TrainRun`.
*/
module Trainer {
  import opened Wrappers
  import opened Nltk
  import opened Redis

  const SampleCountKey := "training_sample_count"
  const NegativeKey := "negative_processed"
  const PositiveKey := "positive_processed"
  const LabelFdKey := "label_fd"
  const Negative := "negative"
  const Positive := "positive"
  /** Every per-(label, feature) distribution is over {present, absent}. */
  const FeatureBins: nat := 2

  /** The exceptions `train` can raise itself. */
  datatype TrainError =
    | CountMissing(key: string)      // `int(None)`: the key is not in the database
    | CountNotInteger(key: string)   // `int(...)` of a value that is not a number
    | BestWordsNone                  // iterating `best_words` while it is `None`
    | NoLabelBins                    // `ELEProbDist` of label totals whose total count is 0

  datatype Outcome = AlreadyTrained | Trained | Failed(error: TrainError)

  /** The end of a run: how it ended, the database, the collaborators called. */
  datatype Run = Run(outcome: Outcome, kv: Kv, calls: seq<Call>)

  /** The database after counting and selection, and `best_words`. */
  datatype Prepared = Prepared(kv: Kv, calls: seq<Call>, bestWords: Option<seq<string>>)

  type FeatureTable = map<(string, string), FreqDist<bool>>

  /** `int(v)` for a value read back from the database under `key`. */
  function ParseCount(v: Option<Value>, key: string): (r: Result<int, TrainError>)
    ensures r.Success? <==> v.Some? && v.value.Num?
    ensures r.Success? ==> r.value == v.value.n
    ensures v.None? ==> r == Failure(CountMissing(key))
    ensures v.Some? && !v.value.Num? ==> r == Failure(CountNotInteger(key))
  {
    match v
    case None => Failure(CountMissing(key))
    case Some(Num(n)) => Success(n)
    case Some(_) => Failure(CountNotInteger(key))
  }

  /** `label_freqdist`: the two processed-sample totals, and 0 for any other label.
      A label whose total is 0 is not a key, since `inc` by 0 does nothing. */
  function LabelFreqDist(neg: int, pos: int): (fd: FreqDist<string>)
    ensures fd.Keys == (if neg != 0 then {Negative} else {}) + (if pos != 0 then {Positive} else {})
    ensures Count(fd, Negative) == neg && Count(fd, Positive) == pos
    ensures forall lbl :: lbl != Negative && lbl != Positive ==> Count(fd, lbl) == 0
  {
    Inc(Inc(map[], Negative, neg), Positive, pos)
  }

  /** The counts a (label, feature) entry holds after `times` visits:
      `trues` present and `total - trues` absent per visit; a count that
      stays 0 is never written. */
  function FeatureEntry(times: nat, trues: int, total: int): FreqDist<bool> {
    Inc(Inc(map[], true, times * trues), false, times * (total - trues))
  }

  /** Every (label, feature name) pair: the keys the nested loop touches. */
  function Pairs(labels: set<string>, words: seq<string>): (s: set<(string, string)>)
    ensures forall k :: k in s <==> k.0 in labels && k.1 in words
  {
    set lbl, fname | lbl in labels && fname in words :: (lbl, fname)
  }

  /** `feature_freqdist` as the nested loop leaves it, for the labels in `labels`
      and the feature names in `words` (a name listed twice is visited twice). */
  function FeatureFreqDist(labels: set<string>, words: seq<string>, cfd: CondFreqDist,
                           totals: FreqDist<string>): FeatureTable
  {
    map k | k in Pairs(labels, words) ::
      FeatureEntry(multiset(words)[k.1], CondCount(cfd, k.0, k.1), Count(totals, k.0))
  }

  /** `feature_probdist`: one estimate over two bins per count table. */
  function FeatureProbDist(ffd: FeatureTable): map<(string, string), EleProbDist<bool>> {
    map k | k in ffd :: EleProbDist(ffd[k], Some(FeatureBins))
  }

  /**
    `ELEProbDist(label_freqdist)`. Without a bin count the estimator takes
    the number of labels as its bin count, and it raises `ValueError` when
    N(), the sum of the distribution's counts, is 0.
  */
  function LabelProbDist(neg: int, pos: int): (r: Result<EleProbDist<string>, TrainError>)
    ensures var fd := LabelFreqDist(neg, pos);
            r.Success? <==> Count(fd, Negative) + Count(fd, Positive) != 0
    ensures r.Success? ==> r.value == EleProbDist(LabelFreqDist(neg, pos), None)
    ensures r.Failure? ==> r.error == NoLabelBins
  {
    if neg + pos == 0 then Failure(NoLabelBins) else Success(EleProbDist(LabelFreqDist(neg, pos), None))
  }

  /** `NaiveBayesClassifier(label_probdist, feature_probdist)` for the label estimate
      `prior` and the feature table `ffd`. */
  function Classifier(prior: EleProbDist<string>, ffd: FeatureTable): (c: NaiveBayes)
    ensures c.labelProbdist == prior
    ensures c.featureProbdist.Keys == ffd.Keys
    ensures forall k :: k in c.featureProbdist ==> c.featureProbdist[k] == EleProbDist(ffd[k], Some(FeatureBins))
  {
    NaiveBayes(prior, FeatureProbDist(ffd))
  }

  /** Counting, scoring and (when `bestFeatures` is truthy) selection. */
  function Prepare(kv: Kv, env: Collaborators, db: string, samples: int,
                   bestFeatures: int, processes: int): Prepared
  {
    var batch := env.getSamples(db, samples);
    var counted := env.storeFeatureScores(env.storeFreqdists(env.storeFeatureCounts(kv, batch, processes)));
    var calls := [SamplesFetched(db, samples), FeatureCountsStored(processes), FreqdistsStored, FeatureScoresStored];
    if bestFeatures != 0 then
      var selected := env.storeBestFeatures(counted, bestFeatures);
      Prepared(selected, calls + [BestFeaturesStored(bestFeatures), BestFeaturesRead],
               Some(env.getBestFeatures(selected)))
    else
      Prepared(counted, calls, None)
  }

  /** Everything from reading the label totals to storing the classifier. */
  function Finish(p: Prepared, env: Collaborators, classifier: string): Run {
    match ParseCount(Lookup(p.kv, NegativeKey), NegativeKey)
    case Failure(e) => Run(Failed(e), p.kv, p.calls)
    case Success(neg) =>
      match ParseCount(Lookup(p.kv, PositiveKey), PositiveKey)
      case Failure(e) => Run(Failed(e), p.kv, p.calls)
      case Success(pos) =>
        var totals := LabelFreqDist(neg, pos);
        var cfd := env.pickleLoad(p.kv, LabelFdKey);
        var calls := p.calls + [PickleLoaded(LabelFdKey)];
        if p.bestWords.None? && cfd.Keys != {} then
          Run(Failed(BestWordsNone), p.kv, calls)
        else
          var ffd := FeatureFreqDist(cfd.Keys, p.bestWords.GetOr([]), cfd, totals);
          match LabelProbDist(neg, pos)
          case Failure(e) => Run(Failed(e), p.kv, calls)
          case Success(prior) =>
            Run(Trained, p.kv[classifier := Pickled(Classifier(prior, ffd))], calls + [ClassifierStored(classifier)])
  }

  /** `Finish` depends on the calls made before it only by appending to them. */
  lemma FinishCalls(p: Prepared, env: Collaborators, classifier: string)
    ensures var run := Finish(p, env, classifier);
            var alone := Finish(Prepared(p.kv, [], p.bestWords), env, classifier);
            run.outcome == alone.outcome && run.kv == alone.kv && run.calls == p.calls + alone.calls
  {
  }

  /** A whole call of `train`, from the database as the manager found it. */
  function TrainRun(kv: Kv, env: Collaborators, db: string, samples: int, classifier: string,
                    bestFeatures: int, processes: int): (r: Run)
    ensures r.outcome == Trained <==> ClassifierStored(classifier) in r.calls
    ensures r.outcome == Trained ==> classifier in r.kv && r.kv[classifier].Pickled?
  {
    var recorded := kv[SampleCountKey := Num(samples)];
    if classifier in recorded then Run(AlreadyTrained, recorded, [])
    else Finish(Prepare(recorded, env, db, samples, bestFeatures, processes), env, classifier)
  }

  /** Visiting an entry once more adds one more visit's counts. */
  lemma EntryStep(m: nat, t: int, total: int)
    ensures FeatureEntry(m + 1, t, total)
            == Inc(Inc(if m == 0 then map[] else FeatureEntry(m, t, total), true, t), false, total - t)
  {
    assert (m + 1) * t == m * t + t;
    assert (m + 1) * (total - t) == m * (total - t) + (total - t);
  }

  /** A row over `prefix + [w]` has the keys of the row over `prefix`, and `(lbl, w)`. */
  lemma RowKeysStep(lbl: string, prefix: seq<string>, w: string, cfd: CondFreqDist, totals: FreqDist<string>)
    ensures FeatureFreqDist({lbl}, prefix + [w], cfd, totals).Keys
            == FeatureFreqDist({lbl}, prefix, cfd, totals).Keys + {(lbl, w)}
  {
    assert Pairs({lbl}, prefix + [w]) == Pairs({lbl}, prefix) + {(lbl, w)};
  }

  /** The entry of `(lbl, w)` after one more visit of it. */
  lemma RowVisitedStep(lbl: string, prefix: seq<string>, w: string, cfd: CondFreqDist, totals: FreqDist<string>)
    ensures var row := FeatureFreqDist({lbl}, prefix, cfd, totals);
            var t := CondCount(cfd, lbl, w);
            var prior := if (lbl, w) in row then row[(lbl, w)] else map[];
            FeatureFreqDist({lbl}, prefix + [w], cfd, totals)[(lbl, w)]
              == Inc(Inc(prior, true, t), false, Count(totals, lbl) - t)
  {
    assert multiset(prefix + [w]) == multiset(prefix) + multiset{w};
    var m := multiset(prefix)[w];
    assert (lbl, w) in FeatureFreqDist({lbl}, prefix, cfd, totals) <==> m != 0;
    EntryStep(m, CondCount(cfd, lbl, w), Count(totals, lbl));
  }

  /** The entries of the other features are not affected by visiting `(lbl, w)`. */
  lemma RowOtherStep(lbl: string, prefix: seq<string>, w: string, k: (string, string), cfd: CondFreqDist,
                     totals: FreqDist<string>)
    requires k in FeatureFreqDist({lbl}, prefix, cfd, totals) && k != (lbl, w)
    ensures k in FeatureFreqDist({lbl}, prefix + [w], cfd, totals)
    ensures FeatureFreqDist({lbl}, prefix + [w], cfd, totals)[k] == FeatureFreqDist({lbl}, prefix, cfd, totals)[k]
  {
    assert multiset(prefix + [w])[k.1] == multiset(prefix)[k.1];
  }

  /** One more visit of `(lbl, w)` extends the row of `lbl` by `w`. */
  lemma RowStep(lbl: string, prefix: seq<string>, w: string, cfd: CondFreqDist, totals: FreqDist<string>)
    ensures FeatureFreqDist({lbl}, prefix + [w], cfd, totals)
            == Visit(FeatureFreqDist({lbl}, prefix, cfd, totals), lbl, w, cfd, totals)
  {
    var row := FeatureFreqDist({lbl}, prefix, cfd, totals);
    var next := FeatureFreqDist({lbl}, prefix + [w], cfd, totals);
    RowKeysStep(lbl, prefix, w, cfd, totals);
    RowVisitedStep(lbl, prefix, w, cfd, totals);
    forall k | k in row && k != (lbl, w)
      ensures next[k] == row[k]
    {
      RowOtherStep(lbl, prefix, w, k, cfd, totals);
    }
  }

  /** Updating a key of the right operand of a map union. */
  lemma UpdateRight<K, V>(a: map<K, V>, b: map<K, V>, k: K, v: V)
    requires k !in a
    ensures (k in a + b) == (k in b)
    ensures k in b ==> (a + b)[k] == b[k]
    ensures (a + b)[k := v] == a + b[k := v]
  {
  }

  /** One pass of the inner loop body: `(lbl, w)` gets `trues` more present and
      `total - trues` more absent, starting from an empty table if it had none. */
  function Visit(table: FeatureTable, lbl: string, w: string, cfd: CondFreqDist, totals: FreqDist<string>)
    : (r: FeatureTable)
    ensures (lbl, w) in r
    ensures var prior := if (lbl, w) in table then table[(lbl, w)] else map[];
            var t := CondCount(cfd, lbl, w);
            && Count(r[(lbl, w)], true) == Count(prior, true) + t
            && Count(r[(lbl, w)], false) == Count(prior, false) + (Count(totals, lbl) - t)
    ensures forall k :: k != (lbl, w) ==> (k in r <==> k in table)
    ensures forall k :: k in table && k != (lbl, w) ==> r[k] == table[k]
  {
    var t := CondCount(cfd, lbl, w);
    var prior := if (lbl, w) in table then table[(lbl, w)] else map[];
    table[(lbl, w) := Inc(Inc(prior, true, t), false, Count(totals, lbl) - t)]
  }

  /** The row of `lbl` as the inner loop builds it, one visit of a feature name at a time. */
  function RowByVisits(lbl: string, words: seq<string>, cfd: CondFreqDist, totals: FreqDist<string>): FeatureTable
    decreases |words|
  {
    if words == [] then map[]
    else Visit(RowByVisits(lbl, words[..|words| - 1], cfd, totals), lbl, words[|words| - 1], cfd, totals)
  }

  /** The row over one more feature name is the previous row with that name visited once more. */
  lemma RowByVisitsStep(lbl: string, words: seq<string>, j: nat, cfd: CondFreqDist, totals: FreqDist<string>)
    requires j < |words|
    ensures RowByVisits(lbl, words[..j + 1], cfd, totals)
            == Visit(RowByVisits(lbl, words[..j], cfd, totals), lbl, words[j], cfd, totals)
  {
    assert words[..j + 1][..j] == words[..j];
  }

  /** One iteration of the inner loop, on a table whose other rows belong to other labels. */
  lemma VisitStep(r: FeatureTable, ffd: FeatureTable, lbl: string, words: seq<string>, j: nat,
                  prior: FreqDist<bool>, fd: FreqDist<bool>, cfd: CondFreqDist, totals: FreqDist<string>)
    requires j < |words|
    requires (lbl, words[j]) !in ffd
    requires r == ffd + RowByVisits(lbl, words[..j], cfd, totals)
    requires prior == if (lbl, words[j]) in r then r[(lbl, words[j])] else map[]
    requires fd == Inc(Inc(prior, true, CondCount(cfd, lbl, words[j])), false,
                       Count(totals, lbl) - CondCount(cfd, lbl, words[j]))
    ensures r[(lbl, words[j]) := fd] == ffd + RowByVisits(lbl, words[..j + 1], cfd, totals)
  {
    UpdateRight(ffd, RowByVisits(lbl, words[..j], cfd, totals), (lbl, words[j]), fd);
    RowByVisitsStep(lbl, words, j, cfd, totals);
  }

  /** Visiting the feature names one by one yields the closed form of the row. */
  lemma {:induction false} RowByVisitsClosed(lbl: string, words: seq<string>, cfd: CondFreqDist,
                                             totals: FreqDist<string>)
    ensures RowByVisits(lbl, words, cfd, totals) == FeatureFreqDist({lbl}, words, cfd, totals)
    decreases |words|
  {
    if words == [] {
      assert FeatureFreqDist({lbl}, words, cfd, totals) == map[];
    } else {
      var prefix, w := words[..|words| - 1], words[|words| - 1];
      assert words == prefix + [w];
      RowByVisitsClosed(lbl, prefix, cfd, totals);
      RowStep(lbl, prefix, w, cfd, totals);
    }
  }

  /** Adding a finished row for a new label to the table. */
  lemma {:induction false} TableJoin(done: set<string>, lbl: string, words: seq<string>,
                                     cfd: CondFreqDist, totals: FreqDist<string>)
    requires lbl !in done
    ensures FeatureFreqDist(done, words, cfd, totals) + FeatureFreqDist({lbl}, words, cfd, totals)
            == FeatureFreqDist(done + {lbl}, words, cfd, totals)
  {
  }

  /**
    The inner loop `for fname in best_words` for one label: each visit adds
    the label's occurrence count of `fname` as present and the rest of the
    label's `samples` as absent.
  */
  method CountRow(ffd: FeatureTable, lbl: string, samples: int, words: seq<string>, cfd: CondFreqDist,
                  totals: FreqDist<string>)
    returns (r: FeatureTable)
    requires samples == Count(totals, lbl)
    requires forall k :: k in ffd ==> k.0 != lbl
    ensures r == ffd + FeatureFreqDist({lbl}, words, cfd, totals)
  {
    r := ffd;
    var j := 0;
    while j < |words|
      invariant 0 <= j <= |words|
      invariant r == ffd + RowByVisits(lbl, words[..j], cfd, totals)
    {
      var fname := words[j];
      var trues := CondCount(cfd, lbl, fname);
      var falses := samples - trues;
      var prior := if (lbl, fname) in r then r[(lbl, fname)] else map[];
      var fd := Inc(prior, true, trues);
      fd := Inc(fd, false, falses);
      VisitStep(r, ffd, lbl, words, j, prior, fd, cfd, totals);
      r := r[(lbl, fname) := fd];
      j := j + 1;
    }
    assert words[..j] == words;
    RowByVisitsClosed(lbl, words, cfd, totals);
  }

  /**
    The nested loop over `conditional_fd.conditions()` and `best_words`.
    The labels are visited in whatever order the set is iterated; the
    result does not depend on it. `best_words` being `None` raises on the
    first label, so not at all when there is no label.
  */
  method BuildFeatureFreqDist(labels: set<string>, bestWords: Option<seq<string>>, cfd: CondFreqDist,
                              totals: FreqDist<string>)
    returns (r: Result<FeatureTable, TrainError>)
    ensures bestWords.None? && labels != {} ==> r == Failure(BestWordsNone)
    ensures bestWords.Some? || labels == {} ==>
              r == Success(FeatureFreqDist(labels, bestWords.GetOr([]), cfd, totals))
  {
    var ffd: FeatureTable := map[];
    var remaining := labels;
    while remaining != {}
      invariant remaining <= labels
      invariant bestWords.Some? || remaining == labels
      invariant ffd == FeatureFreqDist(labels - remaining, bestWords.GetOr([]), cfd, totals)
      decreases remaining
    {
      var lbl :| lbl in remaining;
      var samples := Count(totals, lbl);
      if bestWords.None? {
        return Failure(BestWordsNone);
      }
      var words := bestWords.value;
      ghost var done := labels - remaining;
      assert forall k :: k in ffd ==> k.0 != lbl;
      ffd := CountRow(ffd, lbl, samples, words, cfd, totals);
      TableJoin(done, lbl, words, cfd, totals);
      remaining := remaining - {lbl};
      assert labels - remaining == done + {lbl};
    }
    assert labels - remaining == labels;
    r := Success(ffd);
  }

  /** The loop over `feature_freqdist.items()` that builds `feature_probdist`. */
  method BuildFeatureProbDist(ffd: FeatureTable) returns (fpd: map<(string, string), EleProbDist<bool>>)
    ensures fpd == FeatureProbDist(ffd)
  {
    fpd := map[];
    var remaining := ffd.Keys;
    while remaining != {}
      invariant remaining <= ffd.Keys
      invariant fpd.Keys == ffd.Keys - remaining
      invariant forall k :: k in fpd ==> fpd[k] == EleProbDist(ffd[k], Some(FeatureBins))
      decreases remaining
    {
      var k :| k in remaining;
      fpd := fpd[k := EleProbDist(ffd[k], Some(FeatureBins))];
      remaining := remaining - {k};
    }
    assert fpd == FeatureProbDist(ffd);
  }

  /** Lines 25-34 of `train`: fetch the samples, count, score, and select when asked to. */
  method PrepareStep(m: Manager, db: string, samples: int, bestFeatures: int, processes: int)
    returns (bestWords: Option<seq<string>>)
    modifies m
    ensures var p := Prepare(old(m.kv), m.env, db, samples, bestFeatures, processes);
            m.kv == p.kv && m.calls == old(m.calls) + p.calls && bestWords == p.bestWords
  {
    var batch := m.GetSamples(db, samples);
    m.StoreFeatureCounts(batch, processes);
    m.StoreFreqdists();
    m.StoreFeatureScores();

    bestWords := None;
    if bestFeatures != 0 {
      m.StoreBestFeatures(bestFeatures);
      var words := m.GetBestFeatures();
      bestWords := Some(words);
    }
  }

  /** Lines 36-68 of `train`: the label totals, the two tables, the estimates and the store. */
  method FinishStep(m: Manager, bestWords: Option<seq<string>>, classifier: string) returns (outcome: Outcome)
    modifies m
    ensures var run := Finish(Prepared(old(m.kv), [], bestWords), m.env, classifier);
            outcome == run.outcome && m.kv == run.kv && m.calls == old(m.calls) + run.calls
  {
    var negRaw := m.Get(NegativeKey);
    var posRaw := m.Get(PositiveKey);
    var neg := ParseCount(negRaw, NegativeKey);
    if neg.Failure? {
      return Failed(neg.error);
    }
    var pos := ParseCount(posRaw, PositiveKey);
    if pos.Failure? {
      return Failed(pos.error);
    }
    var labelFreqdist := LabelFreqDist(neg.value, pos.value);

    var conditionalFd := m.PickleLoad(LabelFdKey);
    var featureFreqdist := BuildFeatureFreqDist(conditionalFd.Keys, bestWords, conditionalFd, labelFreqdist);
    if featureFreqdist.Failure? {
      return Failed(featureFreqdist.error);
    }

    var labelProbdist := LabelProbDist(neg.value, pos.value);
    if labelProbdist.Failure? {
      return Failed(labelProbdist.error);
    }
    var featureProbdist := BuildFeatureProbDist(featureFreqdist.value);
    m.StoreClassifier(classifier, NaiveBayes(labelProbdist.value, featureProbdist));
    assert m.calls == old(m.calls) + [PickleLoaded(LabelFdKey), ClassifierStored(classifier)];
    outcome := Trained;
  }

  /**
    `train(db, samples, classifier, best_features, processes, purge)` on the
    manager `m`, as constructed by `RedisManager(purge=purge)`.
    `best_features` is falsy exactly when it is 0.
  */
  method Train(m: Manager, db: string, samples: int, classifier: string, bestFeatures: int, processes: int)
    returns (outcome: Outcome)
    modifies m
    ensures var run := TrainRun(old(m.kv), m.env, db, samples, classifier, bestFeatures, processes);
            outcome == run.outcome && m.kv == run.kv && m.calls == old(m.calls) + run.calls
  {
    m.Set(SampleCountKey, Num(samples));
    if classifier in m.kv {
      return AlreadyTrained;
    }
    var bestWords := PrepareStep(m, db, samples, bestFeatures, processes);
    ghost var prepared := Prepare(old(m.kv)[SampleCountKey := Num(samples)], m.env, db, samples, bestFeatures, processes);
    outcome := FinishStep(m, bestWords, classifier);
    FinishCalls(prepared, m.env, classifier);
    ghost var alone := Finish(Prepared(prepared.kv, [], bestWords), m.env, classifier);
    assert m.calls == old(m.calls) + prepared.calls + alone.calls;
  }
}
