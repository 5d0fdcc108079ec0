/**
  What `train` guarantees, stated over `TrainRun` and the count tables it
  builds: the conservation rule of the present/absent table and where it
  breaks, its key set, the idempotence guard, and how a run ends.
*/
module TrainerProperties {
  import opened Wrappers
  import opened Nltk
  import opened Redis
  import opened Trainer

  predicate NoDuplicates(s: seq<string>) {
    forall i, j :: 0 <= i < j < |s| ==> s[i] != s[j]
  }

  /** A name listed once is visited once. */
  lemma {:induction false} ListedOnce(words: seq<string>, fname: string)
    requires NoDuplicates(words) && fname in words
    ensures multiset(words)[fname] == 1
  {
    assert words == [words[0]] + words[1..];
    if words[0] == fname {
      assert fname !in words[1..];
    } else {
      ListedOnce(words[1..], fname);
    }
  }

  /** The table has an entry for exactly the pairs (label of `labels`, name of `words`). */
  lemma FeatureTableKeys(labels: set<string>, words: seq<string>, cfd: CondFreqDist, totals: FreqDist<string>,
                         lbl: string, fname: string)
    ensures (lbl, fname) in FeatureFreqDist(labels, words, cfd, totals) <==> lbl in labels && fname in words
  {
  }

  /** The present count is the conditional count and the absent count the rest of the label
      total, each taken once per time the name is listed. */
  lemma FeatureTableCounts(labels: set<string>, words: seq<string>, cfd: CondFreqDist, totals: FreqDist<string>,
                           lbl: string, fname: string)
    requires lbl in labels && fname in words
    ensures var e := FeatureFreqDist(labels, words, cfd, totals)[(lbl, fname)];
            var times := multiset(words)[fname];
            && times >= 1
            && Count(e, true) == times * CondCount(cfd, lbl, fname)
            && Count(e, false) == times * (Count(totals, lbl) - CondCount(cfd, lbl, fname))
            && Count(e, true) + Count(e, false) == times * Count(totals, lbl)
  {
    var times := multiset(words)[fname];
    var t := CondCount(cfd, lbl, fname);
    var total := Count(totals, lbl);
    assert times * t + times * (total - t) == times * total;
  }

  /** Conservation: with `best_words` free of repeats, every entry's present count is the
      conditional count and present + absent is the label total. */
  lemma Conservation(labels: set<string>, words: seq<string>, cfd: CondFreqDist, totals: FreqDist<string>,
                     lbl: string, fname: string)
    requires NoDuplicates(words)
    requires lbl in labels && fname in words
    ensures var e := FeatureFreqDist(labels, words, cfd, totals)[(lbl, fname)];
            && Count(e, true) == CondCount(cfd, lbl, fname)
            && Count(e, true) + Count(e, false) == Count(totals, lbl)
  {
    ListedOnce(words, fname);
    FeatureTableCounts(labels, words, cfd, totals, lbl, fname);
  }

  /** A name listed twice in `best_words` doubles its entry, so conservation needs the list
      to be free of repeats. */
  lemma RepeatedNameDoubles(lbl: string, fname: string, cfd: CondFreqDist, totals: FreqDist<string>)
    ensures var e := FeatureFreqDist({lbl}, [fname, fname], cfd, totals)[(lbl, fname)];
            Count(e, true) + Count(e, false) == 2 * Count(totals, lbl)
  {
    assert multiset([fname, fname])[fname] == 2;
    FeatureTableCounts({lbl}, [fname, fname], cfd, totals, lbl, fname);
  }

  /** One entry's absent count is non-negative exactly when its conditional count does
      not exceed its label total. */
  lemma AbsentSign(labels: set<string>, words: seq<string>, cfd: CondFreqDist, totals: FreqDist<string>,
                   lbl: string, fname: string)
    requires lbl in labels && fname in words
    ensures Count(FeatureFreqDist(labels, words, cfd, totals)[(lbl, fname)], false) >= 0
            <==> CondCount(cfd, lbl, fname) <= Count(totals, lbl)
  {
    FeatureTableCounts(labels, words, cfd, totals, lbl, fname);
    var times := multiset(words)[fname];
    var d := Count(totals, lbl) - CondCount(cfd, lbl, fname);
    if d < 0 {
      assert times * d <= d;
    }
  }

  /** No absent count is negative exactly when no conditional count exceeds its label total;
      the code never checks this. */
  lemma AbsentCountsNonNegative(labels: set<string>, words: seq<string>, cfd: CondFreqDist,
                                totals: FreqDist<string>)
    ensures (forall k :: k in FeatureFreqDist(labels, words, cfd, totals) ==>
               Count(FeatureFreqDist(labels, words, cfd, totals)[k], false) >= 0)
        <==> (forall lbl, fname :: lbl in labels && fname in words ==>
               CondCount(cfd, lbl, fname) <= Count(totals, lbl))
  {
    var table := FeatureFreqDist(labels, words, cfd, totals);
    if forall k :: k in table ==> Count(table[k], false) >= 0 {
      forall lbl, fname | lbl in labels && fname in words
        ensures CondCount(cfd, lbl, fname) <= Count(totals, lbl)
      {
        AbsentSign(labels, words, cfd, totals, lbl, fname);
      }
    }
    if forall lbl, fname :: lbl in labels && fname in words ==> CondCount(cfd, lbl, fname) <= Count(totals, lbl) {
      forall k | k in table
        ensures Count(table[k], false) >= 0
      {
        AbsentSign(labels, words, cfd, totals, k.0, k.1);
      }
    }
  }

  /** A condition label other than `negative` and `positive` has label total 0, so any
      feature it was counted with gets a negative absent count. */
  lemma UnknownLabelNegativeAbsent(labels: set<string>, words: seq<string>, cfd: CondFreqDist,
                                   neg: int, pos: int, lbl: string, fname: string)
    requires lbl in labels && fname in words
    requires lbl != Negative && lbl != Positive
    requires CondCount(cfd, lbl, fname) > 0
    ensures Count(FeatureFreqDist(labels, words, cfd, LabelFreqDist(neg, pos))[(lbl, fname)], false) < 0
  {
    FeatureTableCounts(labels, words, cfd, LabelFreqDist(neg, pos), lbl, fname);
    var times := multiset(words)[fname];
    var t: int := CondCount(cfd, lbl, fname);
    assert times * (0 - t) < 0;
  }

  /** The guard: a run stops right after recording the sample count exactly when the
      classifier name is a key by then, and then calls no collaborator. */
  lemma GuardSkips(kv: Kv, env: Collaborators, db: string, samples: int, classifier: string,
                   bestFeatures: int, processes: int)
    ensures var run := TrainRun(kv, env, db, samples, classifier, bestFeatures, processes);
            run.outcome == AlreadyTrained <==> classifier in kv || classifier == SampleCountKey
    ensures var run := TrainRun(kv, env, db, samples, classifier, bestFeatures, processes);
            run.outcome == AlreadyTrained ==> run.kv == kv[SampleCountKey := Num(samples)] && run.calls == []
    ensures var run := TrainRun(kv, env, db, samples, classifier, bestFeatures, processes);
            run.outcome != AlreadyTrained ==> |run.calls| > 0 && run.calls[0] == SamplesFetched(db, samples)
  {
  }

  /** A run that does not fail leaves the classifier name in the database. */
  lemma {:induction false} RunLeavesName(kv: Kv, env: Collaborators, db: string, samples: int, classifier: string,
                                         bestFeatures: int, processes: int)
    requires !TrainRun(kv, env, db, samples, classifier, bestFeatures, processes).outcome.Failed?
    ensures classifier in TrainRun(kv, env, db, samples, classifier, bestFeatures, processes).kv
  {
    var recorded := kv[SampleCountKey := Num(samples)];
    if classifier !in recorded {
      var p := Prepare(recorded, env, db, samples, bestFeatures, processes);
      assert TrainRun(kv, env, db, samples, classifier, bestFeatures, processes) == Finish(p, env, classifier);
    }
  }

  /** Training again under a name a previous run stored or found changes nothing but the
      recorded sample count, and calls no collaborator. */
  lemma RetrainIsNoOp(kv: Kv, env: Collaborators, db: string, samples: int, classifier: string,
                      bestFeatures: int, processes: int,
                      db2: string, samples2: int, bestFeatures2: int, processes2: int)
    requires !TrainRun(kv, env, db, samples, classifier, bestFeatures, processes).outcome.Failed?
    ensures var first := TrainRun(kv, env, db, samples, classifier, bestFeatures, processes);
            var second := TrainRun(first.kv, env, db2, samples2, classifier, bestFeatures2, processes2);
            && second.outcome == AlreadyTrained
            && second.kv == first.kv[SampleCountKey := Num(samples2)]
            && second.calls == []
  {
    RunLeavesName(kv, env, db, samples, classifier, bestFeatures, processes);
  }

  /** A failing run never stores a classifier: the database is as the counting and
      selection collaborators left it. */
  lemma FailureStoresNoClassifier(kv: Kv, env: Collaborators, db: string, samples: int, classifier: string,
                                  bestFeatures: int, processes: int)
    requires TrainRun(kv, env, db, samples, classifier, bestFeatures, processes).outcome.Failed?
    ensures var run := TrainRun(kv, env, db, samples, classifier, bestFeatures, processes);
            && run.kv == Prepare(kv[SampleCountKey := Num(samples)], env, db, samples, bestFeatures, processes).kv
            && ClassifierStored(classifier) !in run.calls
  {
    var p := Prepare(kv[SampleCountKey := Num(samples)], env, db, samples, bestFeatures, processes);
    assert ClassifierStored(classifier) !in p.calls;
  }

  /** A missing or non-numeric `negative_processed` fails the run before anything is loaded. */
  lemma NegativeCountRequired(kv: Kv, env: Collaborators, db: string, samples: int, classifier: string,
                              bestFeatures: int, processes: int)
    requires classifier !in kv && classifier != SampleCountKey
    requires var p := Prepare(kv[SampleCountKey := Num(samples)], env, db, samples, bestFeatures, processes);
             !(NegativeKey in p.kv && p.kv[NegativeKey].Num?)
    ensures var p := Prepare(kv[SampleCountKey := Num(samples)], env, db, samples, bestFeatures, processes);
            var run := TrainRun(kv, env, db, samples, classifier, bestFeatures, processes);
            && run.outcome == Failed(if NegativeKey in p.kv then CountNotInteger(NegativeKey) else CountMissing(NegativeKey))
            && PickleLoaded(LabelFdKey) !in run.calls
  {
    var p := Prepare(kv[SampleCountKey := Num(samples)], env, db, samples, bestFeatures, processes);
    assert PickleLoaded(LabelFdKey) !in p.calls;
  }

  /** With `best_features` falsy there is no selection and `best_words` stays `None`: the run
      fails as soon as there is a label to iterate over, and trains only without labels (and
      with label totals that do not sum to 0). */
  lemma NoBestFeatures(kv: Kv, env: Collaborators, db: string, samples: int, classifier: string,
                       processes: int, neg: int, pos: int)
    requires classifier !in kv && classifier != SampleCountKey
    requires var p := Prepare(kv[SampleCountKey := Num(samples)], env, db, samples, 0, processes);
             Lookup(p.kv, NegativeKey) == Some(Num(neg)) && Lookup(p.kv, PositiveKey) == Some(Num(pos))
    ensures var p := Prepare(kv[SampleCountKey := Num(samples)], env, db, samples, 0, processes);
            var run := TrainRun(kv, env, db, samples, classifier, 0, processes);
            && BestFeaturesStored(0) !in run.calls && BestFeaturesRead !in run.calls
            && (run.outcome == Failed(BestWordsNone) <==> env.pickleLoad(p.kv, LabelFdKey) != map[])
            && (run.outcome == Trained <==> env.pickleLoad(p.kv, LabelFdKey) == map[] && neg + pos != 0)
  {
    var p := Prepare(kv[SampleCountKey := Num(samples)], env, db, samples, 0, processes);
    assert BestFeaturesStored(0) !in p.calls && BestFeaturesRead !in p.calls;
  }

  /** Once the totals are read and `best_words` is selected, the run fails exactly when the
      label totals sum to 0 (the label estimate has no bin), leaving the database as counting
      and selection left it. Otherwise it stores, under the classifier name and nowhere else,
      the classifier built from the label totals and one two-bin estimate per (condition
      label, selected feature) pair. */
  lemma TrainedClassifier(kv: Kv, env: Collaborators, db: string, samples: int, classifier: string,
                          bestFeatures: int, processes: int, neg: int, pos: int)
    requires classifier !in kv && classifier != SampleCountKey
    requires var p := Prepare(kv[SampleCountKey := Num(samples)], env, db, samples, bestFeatures, processes);
             Lookup(p.kv, NegativeKey) == Some(Num(neg)) && Lookup(p.kv, PositiveKey) == Some(Num(pos))
    requires bestFeatures != 0
    ensures var p := Prepare(kv[SampleCountKey := Num(samples)], env, db, samples, bestFeatures, processes);
            var words := env.getBestFeatures(p.kv);
            var cfd := env.pickleLoad(p.kv, LabelFdKey);
            var run := TrainRun(kv, env, db, samples, classifier, bestFeatures, processes);
            neg + pos == 0 ==> run.outcome == Failed(NoLabelBins) && run.kv == p.kv
    ensures var p := Prepare(kv[SampleCountKey := Num(samples)], env, db, samples, bestFeatures, processes);
            var words := env.getBestFeatures(p.kv);
            var cfd := env.pickleLoad(p.kv, LabelFdKey);
            var run := TrainRun(kv, env, db, samples, classifier, bestFeatures, processes);
            neg + pos != 0 ==>
            && run.outcome == Trained
            && run.calls[|run.calls| - 1] == ClassifierStored(classifier)
            && (forall k :: k != classifier ==> Lookup(run.kv, k) == Lookup(p.kv, k))
            && classifier in run.kv && run.kv[classifier].Pickled?
            && run.kv[classifier].c.labelProbdist == EleProbDist(LabelFreqDist(neg, pos), None)
            && (forall lbl, fname :: (lbl, fname) in run.kv[classifier].c.featureProbdist
                  <==> lbl in cfd && fname in words)
            && (forall k :: k in run.kv[classifier].c.featureProbdist ==>
                  run.kv[classifier].c.featureProbdist[k]
                    == EleProbDist(FeatureFreqDist(cfd.Keys, words, cfd, LabelFreqDist(neg, pos))[k], Some(2)))
  {
  }

  /** Nothing checks that the labels of the prior and of the feature table agree: a
      condition label other than `negative` and `positive` is trained and stored, and its
      entries carry a negative absent count wherever it was counted with a selected feature,
      provided the label totals do not sum to 0. */
  lemma UnknownLabelStillStored(kv: Kv, env: Collaborators, db: string, samples: int, classifier: string,
                                bestFeatures: int, processes: int, neg: int, pos: int, lbl: string, fname: string)
    requires classifier !in kv && classifier != SampleCountKey
    requires var p := Prepare(kv[SampleCountKey := Num(samples)], env, db, samples, bestFeatures, processes);
             Lookup(p.kv, NegativeKey) == Some(Num(neg)) && Lookup(p.kv, PositiveKey) == Some(Num(pos))
    requires bestFeatures != 0
    requires var p := Prepare(kv[SampleCountKey := Num(samples)], env, db, samples, bestFeatures, processes);
             && lbl in env.pickleLoad(p.kv, LabelFdKey) && fname in env.getBestFeatures(p.kv)
             && CondCount(env.pickleLoad(p.kv, LabelFdKey), lbl, fname) > 0
    requires lbl != Negative && lbl != Positive
    ensures var run := TrainRun(kv, env, db, samples, classifier, bestFeatures, processes);
            run.outcome == Trained <==> neg + pos != 0
    ensures var run := TrainRun(kv, env, db, samples, classifier, bestFeatures, processes);
            neg + pos != 0 ==>
            && classifier in run.kv && run.kv[classifier].Pickled?
            && lbl !in run.kv[classifier].c.labelProbdist.freqdist
            && (lbl, fname) in run.kv[classifier].c.featureProbdist
            && Count(run.kv[classifier].c.featureProbdist[(lbl, fname)].freqdist, false) < 0
  {
    var p := Prepare(kv[SampleCountKey := Num(samples)], env, db, samples, bestFeatures, processes);
    var cfd := env.pickleLoad(p.kv, LabelFdKey);
    var words := env.getBestFeatures(p.kv);
    TrainedClassifier(kv, env, db, samples, classifier, bestFeatures, processes, neg, pos);
    UnknownLabelNegativeAbsent(cfd.Keys, words, cfd, neg, pos, lbl, fname);
  }
}
