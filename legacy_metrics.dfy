/** The older metrics calculator of the validation package: accuracy and error rate
    from element-wise agreement, sensitivity from true positives and false
    negatives, and two aggregation modes, "holdout" (first trial only) and
    "Leave-p-out Cross Validation" (per-trial means, but pooled sensitivity). */
module LegacyMetrics {
  import opened Common
  import opened Dataset
  import opened Metrics

  const HoldoutMethod: string := "holdout"
  const LeavePOutMethod: string := "Leave-p-out Cross Validation"
  const UnsupportedMethod: string := "Metodo non supportato. Usa 'holdout' o 'Leave-p-out Cross Validation'."

  /** Both sides of every trial are arrays of the same length. */
  predicate ElementWise(input: seq<Trial>)
  {
    forall i :: 0 <= i < |input| ==> |input[i].yReal| == |input[i].yPred|
  }

  /** The three values reported per trial; accuracy and error rate are numpy means
      and so NaN for empty arrays. */
  datatype LegacyReport = LegacyReport(accuracy: Float, errorRate: Float, sensitivity: real)

  /** 1 - x on a numpy float: NaN stays NaN. */
  function OneMinus(x: Float): (r: Float)
    ensures r.NaN? <==> x.NaN?
    ensures r.Value? ==> r.v + x.v == 1.0
  {
    match x
    case NaN => NaN
    case Value(v) => Value(1.0 - v)
  }

  /** 1 - mean(y_real == y_pred): the share of disagreeing positions. */
  function LegacyErrorRate(yReal: seq<Label>, yPred: seq<Label>): (r: Float)
    requires |yReal| == |yPred|
    ensures r.NaN? <==> |yReal| == 0
    ensures r.Value? ==> r.v == 1.0 - MatchRate(yReal, yPred).v
    ensures r.Value? ==> InUnit(r.v) && (r.v == 0.0 <==> yReal == yPred)
  {
    OneMinus(MatchRate(yReal, yPred))
  }

  /** The error rate is the share of disagreeing positions. */
  lemma LegacyErrorIsMismatchRate(yReal: seq<Label>, yPred: seq<Label>)
    requires |yReal| == |yPred| > 0
    ensures LegacyErrorRate(yReal, yPred).v == Mismatches(yReal, yPred) as real / (|yReal| as real)
  {
    MatchesPlusMismatches(yReal, yPred);
    ComplementShare(Matches(yReal, yPred) as real, Mismatches(yReal, yPred) as real,
                    |yReal| as real, LegacyErrorRate(yReal, yPred).v);
  }

  /** True positives of one trial. */
  function TruePositives(t: Trial): nat
  {
    PairCount(t.yReal, t.yPred, Min(|t.yReal|, |t.yPred|), 1, 1)
  }

  /** False negatives of one trial. */
  function FalseNegatives(t: Trial): nat
  {
    PairCount(t.yReal, t.yPred, Min(|t.yReal|, |t.yPred|), 1, 0)
  }

  /** TP / (TP + FN), or 0 when the trial has no actual positive. */
  function LegacySensitivity(t: Trial): (r: real)
    ensures InUnit(r)
    ensures TruePositives(t) == 0 ==> r == 0.0
  {
    PairCountsTotal(t.yReal, t.yPred, Min(|t.yReal|, |t.yPred|));
    Ratio(TruePositives(t), TruePositives(t) + FalseNegatives(t))
  }

  /** The older sensitivity agrees with the newer calculator's. */
  lemma SensitivitiesAgree(t: Trial)
    ensures LegacySensitivity(t) == Sensitivity(ConfusionMatrix(t.yReal, t.yPred))
  {
  }

  /** _calculate_metrics on one (y_real, y_pred) pair. */
  function TrialMetrics(t: Trial): (r: LegacyReport)
    requires |t.yReal| == |t.yPred|
    ensures r.accuracy.NaN? <==> |t.yReal| == 0
    ensures r.accuracy.Value? ==> r.errorRate.Value? && r.accuracy.v + r.errorRate.v == 1.0
    ensures InUnit(r.sensitivity)
  {
    LegacyReport(MatchRate(t.yReal, t.yPred), LegacyErrorRate(t.yReal, t.yPred), LegacySensitivity(t))
  }

  /** True positives summed over all trials. */
  function TotalTruePositives(input: seq<Trial>): nat
  {
    if |input| == 0 then 0
    else TotalTruePositives(input[..|input| - 1]) + TruePositives(input[|input| - 1])
  }

  /** False negatives summed over all trials. */
  function TotalFalseNegatives(input: seq<Trial>): nat
  {
    if |input| == 0 then 0
    else TotalFalseNegatives(input[..|input| - 1]) + FalseNegatives(input[|input| - 1])
  }

  /** One metric of every trial, in trial order. */
  function Accuracies(input: seq<Trial>): (xs: seq<Float>)
    requires ElementWise(input)
    ensures |xs| == |input|
  {
    seq(|input|, i requires 0 <= i < |input| => TrialMetrics(input[i]).accuracy)
  }

  function ErrorRates(input: seq<Trial>): (xs: seq<Float>)
    requires ElementWise(input)
    ensures |xs| == |input|
  {
    seq(|input|, i requires 0 <= i < |input| => TrialMetrics(input[i]).errorRate)
  }

  /** The Leave-p-out report: accuracy and error rate are numpy means of the
      per-trial values, while sensitivity is recomputed from the pooled counts. */
  function PooledReport(input: seq<Trial>): LegacyReport
    requires ElementWise(input)
  {
    var tp, fn := TotalTruePositives(input), TotalFalseNegatives(input);
    LegacyReport(MeanF(Accuracies(input)), MeanF(ErrorRates(input)), PooledSensitivity(tp, fn))
  }

  /** total_tp / (total_tp + total_fn), or 0 without any actual positive. */
  function PooledSensitivity(tp: nat, fn: nat): (r: real)
    ensures InUnit(r)
    ensures tp == 0 ==> r == 0.0
  {
    Ratio(tp, tp + fn)
  }

  /** The calculator's answer for a method name: "holdout" reports the first trial,
      "Leave-p-out Cross Validation" the pooled report, any other name is an error;
      both modes index the first trial and fail on an empty input. */
  method CalculateMetrics(input: seq<Trial>, methodName: string) returns (r: Result<LegacyReport>)
    requires |input| > 0 ==> |input[0].yReal| == |input[0].yPred|
    requires methodName == LeavePOutMethod ==> ElementWise(input)
    ensures methodName != HoldoutMethod && methodName != LeavePOutMethod ==> r == Err(ValueError(UnsupportedMethod))
    ensures (methodName == HoldoutMethod || methodName == LeavePOutMethod) && |input| == 0 ==> r == Err(IndexError)
    ensures methodName == HoldoutMethod && |input| > 0 ==> r == Ok(TrialMetrics(input[0]))
    ensures methodName == LeavePOutMethod && |input| > 0 ==> r == Ok(PooledReport(input))
  {
    if methodName == HoldoutMethod {
      if |input| == 0 {
        return Err(IndexError);
      }
      return Ok(TrialMetrics(input[0]));
    } else if methodName == LeavePOutMethod {
      r := LeavePOutMetrics(input);
    } else {
      return Err(ValueError(UnsupportedMethod));
    }
  }

  /** The Leave-p-out branch: one report per trial and running totals of true
      positives and false negatives; the per-key means index the first report and
      so fail on an empty input. */
  method LeavePOutMetrics(input: seq<Trial>) returns (r: Result<LegacyReport>)
    requires ElementWise(input)
    ensures |input| == 0 ==> r == Err(IndexError)
    ensures |input| > 0 ==> r == Ok(PooledReport(input))
  {
    var metricsList: seq<LegacyReport> := [];
    var totalTp, totalFn := 0, 0;
    for i := 0 to |input|
      invariant |metricsList| == i
      invariant forall j :: 0 <= j < i ==> metricsList[j] == TrialMetrics(input[j])
      invariant totalTp == TotalTruePositives(input[..i])
      invariant totalFn == TotalFalseNegatives(input[..i])
    {
      metricsList := metricsList + [TrialMetrics(input[i])];
      TotalsAppend(input, i);
      totalTp := totalTp + TruePositives(input[i]);
      totalFn := totalFn + FalseNegatives(input[i]);
    }
    if |metricsList| == 0 {
      return Err(IndexError);
    }
    assert input[..|input|] == input;
    var accuracies := seq(|metricsList|, j requires 0 <= j < |metricsList| => metricsList[j].accuracy);
    var errorRates := seq(|metricsList|, j requires 0 <= j < |metricsList| => metricsList[j].errorRate);
    ReportColumns(input, metricsList, accuracies, errorRates);
    return Ok(LegacyReport(MeanF(accuracies), MeanF(errorRates), PooledSensitivity(totalTp, totalFn)));
  }

  /** Counting one more trial adds its true positives and false negatives. */
  lemma TotalsAppend(input: seq<Trial>, i: nat)
    requires i < |input|
    ensures TotalTruePositives(input[..i + 1]) == TotalTruePositives(input[..i]) + TruePositives(input[i])
    ensures TotalFalseNegatives(input[..i + 1]) == TotalFalseNegatives(input[..i]) + FalseNegatives(input[i])
  {
    assert input[..i + 1][..i] == input[..i];
  }

  /** The per-key lists read off the collected per-trial reports. */
  lemma ReportColumns(input: seq<Trial>, reports: seq<LegacyReport>, accuracies: seq<Float>, errorRates: seq<Float>)
    requires ElementWise(input) && |reports| == |input|
    requires forall j :: 0 <= j < |input| ==> reports[j] == TrialMetrics(input[j])
    requires |accuracies| == |errorRates| == |reports|
    requires forall j :: 0 <= j < |reports| ==> accuracies[j] == reports[j].accuracy && errorRates[j] == reports[j].errorRate
    ensures accuracies == Accuracies(input) && errorRates == ErrorRates(input)
  {
  }

  /** On a single trial the Leave-p-out mode reports what the holdout mode does. */
  lemma PooledSingle(t: Trial)
    requires |t.yReal| == |t.yPred|
    ensures PooledReport([t]) == TrialMetrics(t)
  {
    assert [t][..0] == [];
    assert TotalTruePositives([t]) == TruePositives(t);
    assert TotalFalseNegatives([t]) == FalseNegatives(t);
    assert Accuracies([t]) == [TrialMetrics(t).accuracy];
    assert ErrorRates([t]) == [TrialMetrics(t).errorRate];
    MeanFSingleton(TrialMetrics(t).accuracy);
    MeanFSingleton(TrialMetrics(t).errorRate);
  }

  /** With every trial non-empty, the Leave-p-out accuracy and error rate are rates
      that add up to 1. */
  lemma PooledAccuracyError(input: seq<Trial>)
    requires ElementWise(input) && |input| > 0
    requires forall i :: 0 <= i < |input| ==> |input[i].yReal| > 0
    ensures var r := PooledReport(input);
      && r.accuracy.Value? && r.errorRate.Value?
      && InUnit(r.accuracy.v) && r.accuracy.v + r.errorRate.v == 1.0
  {
    var acc, err := Accuracies(input), ErrorRates(input);
    assert AllValues(acc) && AllValues(err);
    var a, e := ValuesOf(acc), ValuesOf(err);
    forall i | 0 <= i < |e| ensures e[i] == -1.0 * a[i] + 1.0 && InUnit(a[i]) {
      var m := TrialMetrics(input[i]);
      assert a[i] == m.accuracy.v && e[i] == m.errorRate.v;
    }
    MeanInUnit(a);
    MeanComplement(a, e);
  }

  lemma ExampleHoldoutMatches()
    ensures MatchRate([1, 0, 1, 1, 0], [1, 0, 1, 0, 0]) == Value(0.8)
  {
    var a, b := [1, 0, 1, 1, 0], [1, 0, 1, 0, 0];
    assert a[..4][..3] == a[..3] && b[..4][..3] == b[..3];
    assert Matches(a[..3], b[..3]) == 3;
    assert Matches(a, b) == 4;
  }

  /** The pair y_real = [1, 0, 1, 1, 0], y_pred = [1, 0, 1, 0, 0] in holdout mode:
      accuracy 0.8, error rate 0.2, sensitivity 2/3. */
  lemma ExampleHoldout()
    ensures TrialMetrics(Trial([1, 0, 1, 1, 0], [1, 0, 1, 0, 0]))
            == LegacyReport(Value(0.8), Value(0.2), 2.0 / 3.0)
  {
    var t := Trial([1, 0, 1, 1, 0], [1, 0, 1, 0, 0]);
    ExampleHoldoutCounts();
    ExampleHoldoutRates();
    assert ConfusionMatrix(t.yReal, t.yPred).tp == TruePositives(t);
    assert ConfusionMatrix(t.yReal, t.yPred).fn == FalseNegatives(t);
    ExampleHoldoutMatches();
  }
}
