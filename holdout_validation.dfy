/** Holdout validation: one shuffle, the first int(n * test_size) positions for
    testing and the rest for training, then the share of correct test predictions. */
module HoldoutValidation {
  import opened Common
  import opened Indices
  import opened Dataset

  /** A slice bound c of a sequence of length n, as Python resolves it: negative
      bounds count from the end, and bounds are clamped to [0, n]. */
  function SliceBound(c: int, n: nat): (b: nat)
    ensures b <= n
    ensures 0 <= c <= n ==> b == c
    ensures c > n ==> b == n
    ensures c < 0 ==> b as int == Max(0, n + c)
  {
    if c < 0 then Max(0, n + c) else Min(c, n)
  }

  /** int(len(data) * test_size); the class does not validate test_size. */
  function TestCount(n: nat, testSize: real): int
  {
    Trunc(n as real * testSize)
  }

  /** The position at which the shuffle is cut. */
  function Cut(n: nat, testSize: real): (c: nat)
    ensures c <= n
  {
    SliceBound(TestCount(n, testSize), n)
  }

  /** For a test_size in [0, 1] the cut is the truncated product itself. */
  lemma CutInRange(n: nat, testSize: real)
    requires 0.0 <= testSize <= 1.0
    ensures Cut(n, testSize) == TestCount(n, testSize)
    ensures (Cut(n, testSize) as real) <= n as real * testSize < (Cut(n, testSize) as real) + 1.0
  {
    ScaleWithin(n as real, testSize, n as real * testSize);
  }

  /** A test_size of -0.25 on four rows: int(-1.0) is -1, and indices[:-1] leaves
      three rows for testing. */
  lemma ExampleNegativeTestSize()
    ensures TestCount(4, -0.25) == -1 && Cut(4, -0.25) == 3
  {
  }

  /** split: (training rows, test rows) of the shuffle perm. */
  function Split<T>(data: seq<T>, perm: seq<nat>, testSize: real): (r: (seq<T>, seq<T>))
    requires IsPermutation(perm, |data|)
    ensures |r.0| + |r.1| == |data|
    ensures |r.1| == Cut(|data|, testSize)
  {
    var c := Cut(|data|, testSize);
    CutPermutation(perm, |data|, c);
    (Select(data, perm[c..]), Select(data, perm[..c]))
  }

  /** Whatever test_size is, the test and training positions are disjoint and
      together cover every row. */
  lemma SplitPartition(perm: seq<nat>, n: nat, testSize: real)
    requires IsPermutation(perm, n)
    ensures var c := Cut(n, testSize);
      && Elements(perm[..c]) !! Elements(perm[c..])
      && Elements(perm[..c]) + Elements(perm[c..]) == RangeSet(n)
  {
    CutPermutation(perm, n, Cut(n, testSize));
  }

  /** The test rows are the first rows of the shuffle, the training rows the others,
      each in shuffled order. */
  lemma SplitRows<T>(data: seq<T>, perm: seq<nat>, testSize: real)
    requires IsPermutation(perm, |data|)
    ensures var c, r := Cut(|data|, testSize), Split(data, perm, testSize);
      && (forall i :: 0 <= i < c ==> r.1[i] == data[perm[i]])
      && (forall i :: 0 <= i < |data| - c ==> r.0[i] == data[perm[c + i]])
  {
  }

  /** evaluate: fit on the training rows, predict the test rows and return the share
      of predictions equal to the target (NaN for an empty test part). The model is
      taken as the function from (training rows, training labels, test rows) to
      predictions. */
  function Evaluate(model: Model, data: seq<Sample>, perm: seq<nat>, testSize: real): (a: Float)
    requires ModelKeepsLength(model) && IsPermutation(perm, |data|)
    ensures a.NaN? <==> Cut(|data|, testSize) == 0
    ensures a.Value? ==> InUnit(a.v)
  {
    var (train, test) := Split(data, perm, testSize);
    var predictions := model(Features(train), Labels(train), Features(test));
    MatchRate(predictions, Labels(test))
  }

  /** A model that predicts every test target scores 1, and only such a model does. */
  lemma EvaluatePerfect(model: Model, data: seq<Sample>, perm: seq<nat>, testSize: real)
    requires ModelKeepsLength(model) && IsPermutation(perm, |data|) && Cut(|data|, testSize) > 0
    ensures var (train, test) := Split(data, perm, testSize);
      Evaluate(model, data, perm, testSize) == Value(1.0)
      <==> model(Features(train), Labels(train), Features(test)) == Labels(test)
  {
  }
}
