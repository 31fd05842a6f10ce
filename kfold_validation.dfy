/** K-fold cross validation of a model: the K-fold split over rows that carry
    their target, then one accuracy per fold and the mean of those accuracies. */
module KFoldValidation {
  import opened Common
  import opened Indices
  import opened Dataset
  import opened KFold

  /** split: the K-fold split of the whole rows; the target column plays no part
      in it. */
  method Split(k: int, data: seq<Sample>, perm: seq<nat>) returns (r: Result<seq<Fold<Sample>>>)
    requires IsPermutation(perm, |data|)
    ensures k == 0 ==> r == Err(ZeroDivisionError)
    ensures k < 0 ==> r == Ok([])
    ensures k > 0 ==> r.Ok? && |r.value| == k
    ensures k > 0 ==> forall i :: 0 <= i < k ==> r.value[i] == FoldAt(data, perm, k, i)
  {
    r := KFold.Split(k, data, perm);
  }

  /** The share of a fold's test rows whose prediction, from the model fitted on the
      fold's training rows, equals the target; NaN for an empty test part. */
  function FoldAccuracy(model: Model, fold: Fold<Sample>): (a: Float)
    requires ModelKeepsLength(model)
    ensures a.NaN? <==> |fold.test| == 0
    ensures a.Value? ==> InUnit(a.v)
  {
    var predictions := model(Features(fold.train), Labels(fold.train), Features(fold.test));
    MatchRate(predictions, Labels(fold.test))
  }

  /** The per-fold accuracies, in fold order. */
  function FoldAccuracies(model: Model, data: seq<Sample>, perm: seq<nat>, k: nat): (xs: seq<Float>)
    requires ModelKeepsLength(model) && IsPermutation(perm, |data|) && k > 0
    ensures |xs| == k
  {
    seq(k, i requires 0 <= i < k => FoldAccuracy(model, FoldAt(data, perm, k, i)))
  }

  /** evaluate: fit and score the model on every fold and return numpy's mean of
      the accuracies (NaN when there is no fold). The model is taken as the
      function from (training rows, training labels, test rows) to predictions. */
  method Evaluate(k: int, model: Model, data: seq<Sample>, perm: seq<nat>) returns (r: Result<Float>)
    requires ModelKeepsLength(model) && IsPermutation(perm, |data|)
    ensures k == 0 ==> r == Err(ZeroDivisionError)
    ensures k < 0 ==> r == Ok(NaN)
    ensures k > 0 ==> r == Ok(MeanF(FoldAccuracies(model, data, perm, k)))
  {
    var folds := Split(k, data, perm);
    if folds.Err? {
      return Err(folds.error);
    }
    var accuracies: seq<Float> := [];
    for i := 0 to |folds.value|
      invariant |accuracies| == i
      invariant forall j :: 0 <= j < i ==> accuracies[j] == FoldAccuracy(model, folds.value[j])
    {
      var fold := folds.value[i];
      var predictions := model(Features(fold.train), Labels(fold.train), Features(fold.test));
      var accuracy := MatchRate(predictions, Labels(fold.test));
      accuracies := accuracies + [accuracy];
    }
    if k > 0 {
      assert accuracies == FoldAccuracies(model, data, perm, k);
    }
    return Ok(MeanF(accuracies));
  }

  /** With between 1 and n folds every fold tests at least one row, so the mean
      accuracy is a number in [0, 1]; with more folds than rows every test part is
      empty and the mean is NaN. */
  lemma EvaluateRange(model: Model, data: seq<Sample>, perm: seq<nat>, k: nat)
    requires ModelKeepsLength(model) && IsPermutation(perm, |data|) && k > 0
    ensures k <= |data| ==> var m := MeanF(FoldAccuracies(model, data, perm, k)); m.Value? && InUnit(m.v)
    ensures k > |data| ==> MeanF(FoldAccuracies(model, data, perm, k)) == NaN
  {
    var xs := FoldAccuracies(model, data, perm, k);
    FoldSizeZero(|data|, k);
    if k <= |data| {
      forall i | 0 <= i < k ensures xs[i].Value? && InUnit(xs[i].v) {
        FoldSizes(data, perm, k, i);
      }
      MeanFInUnit(xs);
    } else {
      FoldSizes(data, perm, k, 0);
      assert xs[0].NaN?;
    }
  }
}
