/**
  The Redis database the trainer works against, reached through a
  `RedisManager`. The database is a map from key to value. The manager's
  own operations (parallel counting, frequency distributions, feature
  scoring, best-feature selection, unpickling) are not part of this model:
  each is an opaque function of the database contents, gathered in
  `Collaborators`. Only `store_classifier` is given a meaning, namely that
  the pickled classifier is written under its name.
*/
module Redis {
  import opened Wrappers
  import opened Nltk

  /** What a key can hold, as far as the trainer can tell. */
  datatype Value =
    | Num(n: int)              // a value `int(...)` parses to `n`
    | Blob(tag: string)        // any other content; `int(...)` raises on it
    | Pickled(c: NaiveBayes)   // a stored classifier

  type Kv = map<string, Value>

  /** A labelled training sample as delivered by the corpus reader. */
  datatype Sample = Sample(lbl: string, features: set<string>)

  /** The collaborators `train` calls, one entry per call site. */
  datatype Call =
    | SamplesFetched(db: string, count: int)
    | FeatureCountsStored(processes: int)
    | FreqdistsStored
    | FeatureScoresStored
    | BestFeaturesStored(amount: int)
    | BestFeaturesRead
    | PickleLoaded(key: string)
    | ClassifierStored(name: string)

  /** The effects and results of the collaborators whose code is not modelled. */
  datatype Collaborators = Collaborators(
    getSamples: (string, int) -> seq<Sample>,   // the corpus reader: of the corpus file and count only
    storeFeatureCounts: (Kv, seq<Sample>, int) -> Kv,
    storeFreqdists: Kv -> Kv,
    storeFeatureScores: Kv -> Kv,
    storeBestFeatures: (Kv, int) -> Kv,
    getBestFeatures: Kv -> seq<string>,
    pickleLoad: (Kv, string) -> CondFreqDist)

  /** `r.get(key)`: the stored value, or `None` for a missing key. */
  function Lookup(kv: Kv, key: string): Option<Value> {
    if key in kv then Some(kv[key]) else None
  }

  /**
    A `RedisManager` together with its connection `r`. `kv` is the content
    of the database; `calls` logs which collaborators have been invoked, so
    that what a run does NOT do can be stated.
  */
  class Manager {
    var kv: Kv
    ghost var calls: seq<Call>
    const env: Collaborators

    constructor (kv0: Kv, env: Collaborators)
      ensures this.kv == kv0 && this.env == env && calls == []
    {
      this.kv := kv0;
      this.env := env;
      calls := [];
    }

    /** `r.set(key, v)` */
    method Set(key: string, v: Value)
      modifies this`kv
      ensures key in kv && kv[key] == v
      ensures forall k :: k != key ==> Lookup(kv, k) == Lookup(old(kv), k)
      ensures kv == old(kv)[key := v]
    {
      kv := kv[key := v];
    }

    /** `r.get(key)` */
    method Get(key: string) returns (v: Option<Value>)
      ensures key in kv ==> v == Some(kv[key])
      ensures key !in kv ==> v == None
    {
      v := if key in kv then Some(kv[key]) else None;
    }

    /** `get_samples(db, count)`, the corpus reader, which is not a manager method: it is
        one here only so that its call is logged. The database is not touched. */
    method GetSamples(db: string, count: int) returns (batch: seq<Sample>)
      modifies this`calls
      ensures batch == env.getSamples(db, count)
      ensures calls == old(calls) + [SamplesFetched(db, count)]
    {
      batch := env.getSamples(db, count);
      calls := calls + [SamplesFetched(db, count)];
    }

    method StoreFeatureCounts(batch: seq<Sample>, processes: int)
      modifies this
      ensures kv == env.storeFeatureCounts(old(kv), batch, processes)
      ensures calls == old(calls) + [FeatureCountsStored(processes)]
    {
      kv := env.storeFeatureCounts(kv, batch, processes);
      calls := calls + [FeatureCountsStored(processes)];
    }

    method StoreFreqdists()
      modifies this
      ensures kv == env.storeFreqdists(old(kv))
      ensures calls == old(calls) + [FreqdistsStored]
    {
      kv := env.storeFreqdists(kv);
      calls := calls + [FreqdistsStored];
    }

    method StoreFeatureScores()
      modifies this
      ensures kv == env.storeFeatureScores(old(kv))
      ensures calls == old(calls) + [FeatureScoresStored]
    {
      kv := env.storeFeatureScores(kv);
      calls := calls + [FeatureScoresStored];
    }

    method StoreBestFeatures(amount: int)
      modifies this
      ensures kv == env.storeBestFeatures(old(kv), amount)
      ensures calls == old(calls) + [BestFeaturesStored(amount)]
    {
      kv := env.storeBestFeatures(kv, amount);
      calls := calls + [BestFeaturesStored(amount)];
    }

    method GetBestFeatures() returns (words: seq<string>)
      modifies this`calls
      ensures words == env.getBestFeatures(kv)
      ensures calls == old(calls) + [BestFeaturesRead]
    {
      words := env.getBestFeatures(kv);
      calls := calls + [BestFeaturesRead];
    }

    method PickleLoad(key: string) returns (cfd: CondFreqDist)
      modifies this`calls
      ensures cfd == env.pickleLoad(kv, key)
      ensures calls == old(calls) + [PickleLoaded(key)]
    {
      cfd := env.pickleLoad(kv, key);
      calls := calls + [PickleLoaded(key)];
    }

    /** `store_classifier(name, c)`: the pickled classifier goes under `name`. */
    method StoreClassifier(name: string, c: NaiveBayes)
      modifies this
      ensures kv == old(kv)[name := Pickled(c)]
      ensures calls == old(calls) + [ClassifierStored(name)]
    {
      kv := kv[name := Pickled(c)];
      calls := calls + [ClassifierStored(name)];
    }
  }
}
