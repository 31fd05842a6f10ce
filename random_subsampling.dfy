/** Random subsampling: n_iter independent shuffles, each cut into a test part of
    int(n * test_size) rows and a training part of the rest, with one
    (y_real, y_pred) pair per shuffle. */
module RandomSubsampling {
  import opened Common
  import opened Indices
  import opened Dataset

  const IterMessage: string := "Il numero di iterazioni (n_iter) deve essere un intero positivo."
  const TestSizeMessage: string := "test_size deve essere compreso tra 0 e 1."

  /** The validated constructor arguments. */
  datatype Config = Config(nIter: nat, testSize: real)

  predicate Valid(cfg: Config)
  {
    cfg.nIter > 0 && 0.0 < cfg.testSize <= 1.0
  }

  /** The constructor: n_iter must be positive, then test_size must lie in (0, 1]. */
  function New(nIter: int, testSize: real): (r: Result<Config>)
    ensures nIter <= 0 ==> r == Err(ValueError(IterMessage))
    ensures nIter > 0 && !(0.0 < testSize <= 1.0) ==> r == Err(ValueError(TestSizeMessage))
    ensures nIter > 0 && 0.0 < testSize <= 1.0 ==> r == Ok(Config(nIter, testSize))
    ensures r.Ok? ==> Valid(r.value)
  {
    if nIter <= 0 then Err(ValueError(IterMessage))
    else if !(0.0 < testSize <= 1.0) then Err(ValueError(TestSizeMessage))
    else Ok(Config(nIter, testSize))
  }

  /** int(n_samples * test_size): the number of rows put in the test part. */
  function TestCount(n: nat, testSize: real): int
  {
    Trunc(n as real * testSize)
  }

  /** With a valid test_size the test part takes between 0 and n rows, and at least
      one as soon as n * test_size reaches 1. */
  lemma TestCountBounds(n: nat, testSize: real)
    requires 0.0 < testSize <= 1.0
    ensures 0 <= TestCount(n, testSize) <= n
    ensures n as real * testSize >= 1.0 ==> TestCount(n, testSize) >= 1
  {
    ScaleWithin(n as real, testSize, n as real * testSize);
  }

  /** Two rows with test_size 0.5 leave exactly one row for testing. */
  lemma ExampleTwoRows()
    ensures TestCount(2, 0.5) == 1
  {
    TestCountBounds(2, 0.5);
  }

  /** One iteration on the shuffle perm: the first TestCount positions are tested,
      the classifier is fitted on the rest. */
  function SubsampleTrial(cfg: Config, classify: Classifier, k: int, data: seq<Row>,
                          labels: seq<Label>, perm: seq<nat>): Trial
    requires Valid(cfg) && |labels| == |data| && IsPermutation(perm, |data|)
  {
    var c := TestCount(|data|, cfg.testSize);
    TestCountBounds(|data|, cfg.testSize);
    SplitTrial(classify, k, data, labels, perm[c..], perm[..c])
  }

  /** The test and training positions of one shuffle are disjoint, cover every row,
      and the test part has TestCount rows. */
  lemma SubsamplePartition(perm: seq<nat>, n: nat, testSize: real)
    requires IsPermutation(perm, n) && 0.0 < testSize <= 1.0
    ensures var c := TestCount(n, testSize);
      && 0 <= c <= n
      && |perm[..c]| == c && |perm[c..]| == n - c
      && Elements(perm[..c]) !! Elements(perm[c..])
      && Elements(perm[..c]) + Elements(perm[c..]) == RangeSet(n)
  {
    TestCountBounds(n, testSize);
    CutPermutation(perm, n, TestCount(n, testSize));
  }

  /** y_real holds the labels of the test positions in shuffled order, and a
      classifier that answers once per row makes y_pred just as long. */
  lemma SubsampleTrialShape(cfg: Config, classify: Classifier, k: int, data: seq<Row>,
                            labels: seq<Label>, perm: seq<nat>)
    requires Valid(cfg) && |labels| == |data| && IsPermutation(perm, |data|)
    ensures var c, t := TestCount(|data|, cfg.testSize), SubsampleTrial(cfg, classify, k, data, labels, perm);
      && 0 <= c <= |data| && |t.yReal| == c
      && (forall i :: 0 <= i < c ==> t.yReal[i] == labels[perm[i]])
      && (ClassifierKeepsLength(classify) ==> |t.yPred| == c)
  {
    TestCountBounds(|data|, cfg.testSize);
  }

  /** generate_splits: one trial per iteration, each on its own shuffle (the
      permutations np.random.permutation draws, taken as an input). */
  method GenerateSplits(cfg: Config, classify: Classifier, k: int, data: seq<Row>,
                        labels: seq<Label>, perms: seq<seq<nat>>) returns (results: seq<Trial>)
    requires Valid(cfg) && |labels| == |data|
    requires |perms| == cfg.nIter
    requires forall i :: 0 <= i < |perms| ==> IsPermutation(perms[i], |data|)
    ensures |results| == cfg.nIter
    ensures forall i :: 0 <= i < |results| ==> results[i] == SubsampleTrial(cfg, classify, k, data, labels, perms[i])
  {
    results := [];
    for it := 0 to cfg.nIter
      invariant |results| == it
      invariant forall i :: 0 <= i < it ==> results[i] == SubsampleTrial(cfg, classify, k, data, labels, perms[i])
    {
      var n := |data|;
      var nTest := TestCount(n, cfg.testSize);
      TestCountBounds(n, cfg.testSize);
      var shuffled := perms[it];
      var testIndices, trainIndices := shuffled[..nTest], shuffled[nTest..];
      var yReal := Select(labels, testIndices);
      var yPred := classify(k, Select(data, trainIndices), Select(labels, trainIndices), Select(data, testIndices));
      results := results + [Trial(yReal, yPred)];
    }
  }
}
