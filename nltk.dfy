/**
  The parts of NLTK that `train` relies on, at the level of detail the
  trainer observes: frequency distributions are sparse integer maps read
  with a default of 0, and the estimator and the classifier are recorded
  symbolically (which counts and which bin count they were built from),
  since their floating-point internals belong to the library.
*/
module Nltk {
  import opened Wrappers

  /** A `FreqDist`: outcome -> count; an outcome that is not a key has count 0. */
  type FreqDist<K> = map<K, int>

  /** A `ConditionalFreqDist`: condition (label) -> feature -> occurrence count. */
  type CondFreqDist = map<string, map<string, nat>>

  /** `fd[k]`: the stored count, or 0 for an outcome never incremented. */
  function Count<K>(fd: FreqDist<K>, k: K): int {
    if k in fd then fd[k] else 0
  }

  /** `fd.inc(k, n)`: add `n` to the count of `k`, leaving every other count alone.
      An increment by 0 does nothing at all, so it does not make `k` a key. */
  function Inc<K>(fd: FreqDist<K>, k: K, n: int): FreqDist<K> {
    if n == 0 then fd else fd[k := Count(fd, k) + n]
  }

  /** `cfd[lbl][fname]`: 0 when the label or the feature was never counted. */
  function CondCount(cfd: CondFreqDist, lbl: string, fname: string): nat {
    if lbl in cfd && fname in cfd[lbl] then cfd[lbl][fname] else 0
  }

  /** `ELEProbDist(freqdist, bins)`: the expected-likelihood estimate of `freqdist`
      over `bins` outcomes (`None`: the library's default bin count). */
  datatype EleProbDist<K> = EleProbDist(freqdist: FreqDist<K>, bins: Option<nat>)

  /** `NaiveBayesClassifier(label_probdist, feature_probdist)`. */
  datatype NaiveBayes = NaiveBayes(
    labelProbdist: EleProbDist<string>,
    featureProbdist: map<(string, string), EleProbDist<bool>>)
}
