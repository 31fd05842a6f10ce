/** The metrics calculator of the metrics package: confusion counts per
    (y_real, y_pred) pair, six rates derived from them, and the plain per-trial
    mean of each rate. */
module Metrics {
  import opened Common
  import opened Dataset

  /** True positives, true negatives, false positives, false negatives. */
  datatype Counts = Counts(tp: nat, tn: nat, fp: nat, fn: nat)

  function Total(c: Counts): nat
  {
    c.tp + c.tn + c.fp + c.fn
  }

  /** A label the confusion counts recognise. */
  predicate Binary(x: Label)
  {
    x == 0 || x == 1
  }

  /** How many of the first n zipped pairs are (r, p). */
  function PairCount(yReal: seq<Label>, yPred: seq<Label>, n: nat, r: Label, p: Label): (c: nat)
    requires n <= |yReal| && n <= |yPred|
    ensures c <= n
  {
    if n == 0 then 0
    else PairCount(yReal, yPred, n - 1, r, p) + (if yReal[n - 1] == r && yPred[n - 1] == p then 1 else 0)
  }

  /** Every pair (0/1, 0/1) falls in exactly one of the four counts; any other pair in none. */
  lemma {:induction false} PairCountsTotal(yReal: seq<Label>, yPred: seq<Label>, n: nat)
    requires n <= |yReal| && n <= |yPred|
    ensures var t := PairCount(yReal, yPred, n, 1, 1) + PairCount(yReal, yPred, n, 0, 0)
                   + PairCount(yReal, yPred, n, 0, 1) + PairCount(yReal, yPred, n, 1, 0);
      && t <= n
      && (t == n <==> forall i :: 0 <= i < n ==> Binary(yReal[i]) && Binary(yPred[i]))
  {
    if n > 0 {
      PairCountsTotal(yReal, yPred, n - 1);
    }
  }

  /** The four counts over zip(y_real, y_pred): the longer list is cut to the shorter. */
  function ConfusionMatrix(yReal: seq<Label>, yPred: seq<Label>): (c: Counts)
    ensures Total(c) <= Min(|yReal|, |yPred|)
    ensures Total(c) == Min(|yReal|, |yPred|) <==>
      forall i :: 0 <= i < Min(|yReal|, |yPred|) ==> Binary(yReal[i]) && Binary(yPred[i])
  {
    var n := Min(|yReal|, |yPred|);
    PairCountsTotal(yReal, yPred, n);
    Counts(PairCount(yReal, yPred, n, 1, 1), PairCount(yReal, yPred, n, 0, 0),
           PairCount(yReal, yPred, n, 0, 1), PairCount(yReal, yPred, n, 1, 0))
  }

  /** num / den, or 0.0 when den is 0. */
  function Ratio(num: nat, den: nat): (r: real)
    requires num <= den
    ensures InUnit(r)
    ensures num == 0 ==> r == 0.0
    ensures den > 0 ==> (r == 1.0 <==> num == den)
  {
    if den > 0 then
      var q := (num as real) / (den as real);
      Fraction(num as real, den as real, q);
      q
    else 0.0
  }

  /** Two ratios over the same positive denominator whose numerators fill it add up to 1. */
  lemma RatiosComplement(a: nat, b: nat, den: nat)
    requires den > 0 && a + b == den
    ensures Ratio(a, den) + Ratio(b, den) == 1.0
  {
    var x, y, d := a as real, b as real, den as real;
    assert Ratio(a, den) == x / d && Ratio(b, den) == y / d;
    assert x / d + y / d == (x + y) / d;
    Fraction(x + y, d, (x + y) / d);
  }

  /** Share of the counted pairs that are true positives or true negatives; 0 when none is counted. */
  function AccuracyRate(c: Counts): (r: real)
    ensures InUnit(r)
    ensures c.tp + c.tn == 0 ==> r == 0.0
    ensures Total(c) > 0 ==> (r == 1.0 <==> c.fp + c.fn == 0)
  {
    Ratio(c.tp + c.tn, Total(c))
  }

  /** Share of the counted pairs that are false positives or false negatives; 0 when none is counted. */
  function ErrorRate(c: Counts): (r: real)
    ensures InUnit(r)
    ensures Total(c) > 0 ==> r == 1.0 - AccuracyRate(c)
    ensures Total(c) == 0 ==> r == 0.0
  {
    if Total(c) > 0 then RatiosComplement(c.tp + c.tn, c.fp + c.fn, Total(c)); Ratio(c.fp + c.fn, Total(c))
    else Ratio(c.fp + c.fn, Total(c))
  }

  /** True positive rate: the share of actual positives predicted positive. */
  function Sensitivity(c: Counts): (r: real)
    ensures InUnit(r)
    ensures c.tp == 0 ==> r == 0.0
    ensures c.tp + c.fn > 0 ==> (r == 1.0 <==> c.fn == 0)
  {
    Ratio(c.tp, c.tp + c.fn)
  }

  /** True negative rate: the share of actual negatives predicted negative. */
  function Specificity(c: Counts): (r: real)
    ensures InUnit(r)
    ensures c.tn == 0 ==> r == 0.0
    ensures c.tn + c.fp > 0 ==> (r == 1.0 <==> c.fp == 0)
  {
    Ratio(c.tn, c.tn + c.fp)
  }

  /** root returns the non-negative square root of x. */
  ghost predicate IsRootAt(root: real -> real, x: real)
  {
    root(x) >= 0.0 && root(x) * root(x) == x
  }

  /** sensitivity * specificity, the square of the G-mean. */
  function RatesProduct(c: Counts): real
  {
    Sensitivity(c) * Specificity(c)
  }

  /** sqrt(sensitivity * specificity), with the square root given as a parameter. */
  function GeometricMean(c: Counts, root: real -> real): real
  {
    root(RatesProduct(c))
  }

  /** (sensitivity + specificity) / 2: the mean of the two rates, between them. */
  function AreaUnderCurve(c: Counts): (r: real)
    ensures InUnit(r)
    ensures Sensitivity(c) <= Specificity(c) ==> Sensitivity(c) <= r <= Specificity(c)
    ensures Specificity(c) <= Sensitivity(c) ==> Specificity(c) <= r <= Sensitivity(c)
  {
    (Sensitivity(c) + Specificity(c)) / 2.0
  }

  lemma ProductPositive(a: real, b: real)
    requires a > 0.0 && b > 0.0
    ensures a * b > 0.0
  {
    assert a * b > 0.0 * b;
  }

  /** For non-negative x and y, x * x <= y * y implies x <= y. */
  lemma SquareMonotone(x: real, y: real)
    requires 0.0 <= x && 0.0 <= y && x * x <= y * y
    ensures x <= y
  {
    if x > y {
      assert (x - y) * (x + y) == x * x - y * y;
      ProductPositive(x - y, x + y);
      assert false;
    }
  }

  /** The product of two rates in [0, 1] is in [0, 1] and at least the square of the smaller. */
  lemma ProductOfRates(s: real, p: real)
    requires InUnit(s) && InUnit(p)
    ensures InUnit(s * p)
    ensures s <= p ==> s * s <= s * p
    ensures p <= s ==> p * p <= s * p
  {
    assert s * p <= s * 1.0;
    assert s * p >= 0.0 * p;
    if s <= p {
      assert s * s <= s * p;
    } else {
      assert p * p <= s * p;
    }
  }

  /** The product of two numbers is at most the square of their mean. */
  lemma ProductBelowMeanSquare(s: real, p: real)
    ensures s * p <= ((s + p) / 2.0) * ((s + p) / 2.0)
  {
    var a := (s + p) / 2.0;
    var q := (s - p) * (s - p);
    SquarePositive(s - p, q);
    assert a * a - s * p == q / 4.0;
  }

  /** A non-negative square root of s * p is at most the mean of s and p. */
  lemma RootBelowMean(s: real, p: real, g: real)
    requires 0.0 <= s && 0.0 <= p && g >= 0.0 && g * g == s * p
    ensures g <= (s + p) / 2.0
  {
    var a := (s + p) / 2.0;
    ProductBelowMeanSquare(s, p);
    assert g * g <= a * a;
    SquareMonotone(g, a);
  }

  /** A non-negative square root of the product of two rates is at least the smaller rate. */
  lemma RootAboveMin(s: real, p: real, g: real)
    requires InUnit(s) && InUnit(p) && g >= 0.0 && g * g == s * p
    ensures Min2(s, p) <= g
  {
    ProductOfRates(s, p);
    if s <= p {
      assert s * s <= g * g;
      SquareMonotone(s, g);
    } else {
      assert p * p <= g * g;
      SquareMonotone(p, g);
    }
  }

  /** The arithmetic-geometric mean inequality for two rates: the non-negative
      square root of their product lies between the smaller one and their mean. */
  lemma RootBetween(s: real, p: real, x: real, root: real -> real)
    requires InUnit(s) && InUnit(p) && x == s * p && IsRootAt(root, x)
    ensures InUnit(root(x)) && Min2(s, p) <= root(x) <= (s + p) / 2.0
  {
    RootBelowMean(s, p, root(x));
    RootAboveMin(s, p, root(x));
  }

  /** The G-mean lies in [0, 1], between the smaller rate and the AUC. */
  lemma GeometricMeanBounds(c: Counts, root: real -> real)
    requires IsRootAt(root, RatesProduct(c))
    ensures var g, s, p := GeometricMean(c, root), Sensitivity(c), Specificity(c);
      InUnit(g) && Min2(s, p) <= g <= AreaUnderCurve(c)
  {
    RootBetween(Sensitivity(c), Specificity(c), RatesProduct(c), root);
  }

  function Min2(a: real, b: real): real
  {
    if a <= b then a else b
  }

  /** The six values one (y_real, y_pred) pair contributes. */
  datatype Report = Report(accuracy: real, errorRate: real, sensitivity: real,
                           specificity: real, geometricMean: real, areaUnderCurve: real)

  /** The keys of the returned dictionary. */
  datatype Key = AccuracyKey | ErrorRateKey | SensitivityKey | SpecificityKey | GeometricMeanKey | AreaUnderCurveKey

  function Get(r: Report, key: Key): real
  {
    match key
    case AccuracyKey => r.accuracy
    case ErrorRateKey => r.errorRate
    case SensitivityKey => r.sensitivity
    case SpecificityKey => r.specificity
    case GeometricMeanKey => r.geometricMean
    case AreaUnderCurveKey => r.areaUnderCurve
  }

  function TrialReport(t: Trial, root: real -> real): (r: Report)
    ensures InUnit(r.accuracy) && InUnit(r.errorRate) && InUnit(r.sensitivity)
    ensures InUnit(r.specificity) && InUnit(r.areaUnderCurve)
  {
    var c := ConfusionMatrix(t.yReal, t.yPred);
    Report(AccuracyRate(c), ErrorRate(c), Sensitivity(c), Specificity(c),
           GeometricMean(c, root), AreaUnderCurve(c))
  }

  /** One metric over all trials, in trial order. */
  function Column(input: seq<Trial>, root: real -> real, key: Key): (xs: seq<real>)
    ensures |xs| == |input|
  {
    seq(|input|, i requires 0 <= i < |input| => Get(TrialReport(input[i], root), key))
  }

  /** Extending the trials by one extends every column by that trial's value. */
  lemma ColumnAppend(input: seq<Trial>, root: real -> real, i: nat)
    requires i < |input|
    ensures forall key :: Column(input[..i + 1], root, key)
                          == Column(input[..i], root, key) + [Get(TrialReport(input[i], root), key)]
  {
    assert input[..i + 1] == input[..i] + [input[i]];
  }

  /** Each metric is the arithmetic mean of its per-trial values. */
  function Aggregate(input: seq<Trial>, root: real -> real): Report
    requires |input| > 0
  {
    Report(Mean(Column(input, root, AccuracyKey)), Mean(Column(input, root, ErrorRateKey)),
           Mean(Column(input, root, SensitivityKey)), Mean(Column(input, root, SpecificityKey)),
           Mean(Column(input, root, GeometricMeanKey)), Mean(Column(input, root, AreaUnderCurveKey)))
  }

  /** Collects the six per-trial values in order and returns their means; an empty
      input divides zero by zero. */
  method CalculateMetrics(input: seq<Trial>, root: real -> real) returns (r: Result<Report>)
    ensures |input| == 0 ==> r == Err(ZeroDivisionError)
    ensures |input| > 0 ==> r == Ok(Aggregate(input, root))
  {
    var accuracy, errorRate, sensitivity, specificity, geometricMean, auc := [], [], [], [], [], [];
    for i := 0 to |input|
      invariant accuracy == Column(input[..i], root, AccuracyKey)
      invariant errorRate == Column(input[..i], root, ErrorRateKey)
      invariant sensitivity == Column(input[..i], root, SensitivityKey)
      invariant specificity == Column(input[..i], root, SpecificityKey)
      invariant geometricMean == Column(input[..i], root, GeometricMeanKey)
      invariant auc == Column(input[..i], root, AreaUnderCurveKey)
    {
      var c := ConfusionMatrix(input[i].yReal, input[i].yPred);
      ColumnsStep(input, root, i, c, accuracy, errorRate, sensitivity, specificity, geometricMean, auc);
      accuracy := accuracy + [AccuracyRate(c)];
      errorRate := errorRate + [ErrorRate(c)];
      sensitivity := sensitivity + [Sensitivity(c)];
      specificity := specificity + [Specificity(c)];
      geometricMean := geometricMean + [GeometricMean(c, root)];
      auc := auc + [AreaUnderCurve(c)];
    }
    if |input| == 0 {
      return Err(ZeroDivisionError);
    }
    assert input[..|input|] == input;
    r := Ok(Report(Mean(accuracy), Mean(errorRate), Mean(sensitivity), Mean(specificity),
                   Mean(geometricMean), Mean(auc)));
  }

  /** One loop step of CalculateMetrics: appending the next trial's six values to
      the columns of the trials before it gives the columns one trial further. */
  lemma ColumnsStep(input: seq<Trial>, root: real -> real, i: nat, c: Counts,
                    accuracy: seq<real>, errorRate: seq<real>, sensitivity: seq<real>,
                    specificity: seq<real>, geometricMean: seq<real>, auc: seq<real>)
    requires i < |input| && c == ConfusionMatrix(input[i].yReal, input[i].yPred)
    requires accuracy == Column(input[..i], root, AccuracyKey)
    requires errorRate == Column(input[..i], root, ErrorRateKey)
    requires sensitivity == Column(input[..i], root, SensitivityKey)
    requires specificity == Column(input[..i], root, SpecificityKey)
    requires geometricMean == Column(input[..i], root, GeometricMeanKey)
    requires auc == Column(input[..i], root, AreaUnderCurveKey)
    ensures accuracy + [AccuracyRate(c)] == Column(input[..i + 1], root, AccuracyKey)
    ensures errorRate + [ErrorRate(c)] == Column(input[..i + 1], root, ErrorRateKey)
    ensures sensitivity + [Sensitivity(c)] == Column(input[..i + 1], root, SensitivityKey)
    ensures specificity + [Specificity(c)] == Column(input[..i + 1], root, SpecificityKey)
    ensures geometricMean + [GeometricMean(c, root)] == Column(input[..i + 1], root, GeometricMeanKey)
    ensures auc + [AreaUnderCurve(c)] == Column(input[..i + 1], root, AreaUnderCurveKey)
  {
    ColumnAppend(input, root, i);
  }

  /** Every per-trial value of a metric other than the G-mean lies in [0, 1]. */
  lemma ColumnInUnit(input: seq<Trial>, root: real -> real, key: Key)
    requires key != GeometricMeanKey
    ensures AllInUnit(Column(input, root, key))
  {
    forall i | 0 <= i < |input| ensures InUnit(Column(input, root, key)[i]) {
      var r := TrialReport(input[i], root);
      assert Column(input, root, key)[i] == Get(r, key);
    }
  }

  /** With a single trial the report is that trial's own metrics. */
  lemma AggregateSingle(t: Trial, root: real -> real)
    ensures Aggregate([t], root) == TrialReport(t, root)
  {
    var r := TrialReport(t, root);
    forall key ensures Mean(Column([t], root, key)) == Get(r, key) {
      assert Column([t], root, key) == [Get(r, key)];
      MeanSingleton(Get(r, key));
    }
    assert Aggregate([t], root).accuracy == Get(r, AccuracyKey);
    assert Aggregate([t], root).errorRate == Get(r, ErrorRateKey);
    assert Aggregate([t], root).sensitivity == Get(r, SensitivityKey);
    assert Aggregate([t], root).specificity == Get(r, SpecificityKey);
    assert Aggregate([t], root).geometricMean == Get(r, GeometricMeanKey);
    assert Aggregate([t], root).areaUnderCurve == Get(r, AreaUnderCurveKey);
  }

  /** The averaged accuracy, error rate, sensitivity, specificity and AUC are rates. */
  lemma AggregateInUnit(input: seq<Trial>, root: real -> real)
    requires |input| > 0
    ensures var a := Aggregate(input, root);
      InUnit(a.accuracy) && InUnit(a.errorRate) && InUnit(a.sensitivity)
      && InUnit(a.specificity) && InUnit(a.areaUnderCurve)
  {
    forall key | key != GeometricMeanKey ensures InUnit(Mean(Column(input, root, key))) {
      ColumnInUnit(input, root, key);
      MeanInUnit(Column(input, root, key));
    }
  }

  /** With a true square root on every trial's rate product, the averaged G-mean is a rate too. */
  lemma AggregateGeometricMeanInUnit(input: seq<Trial>, root: real -> real)
    requires |input| > 0
    requires forall i :: 0 <= i < |input| ==> IsRootAt(root, RatesProduct(ConfusionMatrix(input[i].yReal, input[i].yPred)))
    ensures InUnit(Aggregate(input, root).geometricMean)
  {
    var g := Column(input, root, GeometricMeanKey);
    forall i | 0 <= i < |g| ensures InUnit(g[i]) {
      GeometricMeanBounds(ConfusionMatrix(input[i].yReal, input[i].yPred), root);
    }
    MeanInUnit(g);
  }

  /** The i-th entry of every column is the i-th trial's value. */
  lemma ColumnAt(input: seq<Trial>, root: real -> real, i: nat)
    requires i < |input|
    ensures forall key :: Column(input, root, key)[i] == Get(TrialReport(input[i], root), key)
  {
  }

  /** Within one trial the AUC is the mean of sensitivity and specificity, and the
      error rate complements the accuracy once some pair is 0/1. */
  lemma TrialRelations(t: Trial, root: real -> real, accuracy: real, errorRate: real,
                       sensitivity: real, specificity: real, auc: real)
    requires var r := TrialReport(t, root);
      && accuracy == r.accuracy && errorRate == r.errorRate && sensitivity == r.sensitivity
      && specificity == r.specificity && auc == r.areaUnderCurve
    ensures auc == 0.5 * sensitivity + 0.5 * specificity
    ensures Total(ConfusionMatrix(t.yReal, t.yPred)) > 0 ==> errorRate == -1.0 * accuracy + 1.0
  {
  }

  /** The mean of a column whose entries are the halves of two others' sums. */
  lemma MeanHalves(s: seq<real>, p: seq<real>, u: seq<real>)
    requires |s| == |p| == |u| > 0
    requires forall i :: 0 <= i < |u| ==> u[i] == 0.5 * s[i] + 0.5 * p[i]
    ensures Mean(u) == (Mean(s) + Mean(p)) / 2.0
  {
    MeanPointwise(s, p, u, 0.5, 0.5);
  }

  /** Averaging keeps the AUC the mean of the averaged sensitivity and specificity. */
  lemma AggregateAreaUnderCurve(input: seq<Trial>, root: real -> real)
    requires |input| > 0
    ensures var a := Aggregate(input, root);
      a.areaUnderCurve == (a.sensitivity + a.specificity) / 2.0
  {
    var a, e := Column(input, root, AccuracyKey), Column(input, root, ErrorRateKey);
    var s, p := Column(input, root, SensitivityKey), Column(input, root, SpecificityKey);
    var u := Column(input, root, AreaUnderCurveKey);
    forall i | 0 <= i < |u| ensures u[i] == 0.5 * s[i] + 0.5 * p[i] {
      ColumnAt(input, root, i);
      TrialRelations(input[i], root, a[i], e[i], s[i], p[i], u[i]);
    }
    MeanHalves(s, p, u);
  }

  /** The mean of a column whose entries are one minus another's. */
  lemma MeanComplement(a: seq<real>, e: seq<real>)
    requires |a| == |e| > 0
    requires forall i :: 0 <= i < |e| ==> e[i] == -1.0 * a[i] + 1.0
    ensures Mean(a) + Mean(e) == 1.0
  {
    var ones := seq(|a|, i requires 0 <= i < |a| => 1.0);
    MeanPointwise(a, ones, e, -1.0, 1.0);
    SumConstant(ones, 1.0);
    Fraction(Sum(ones), |a| as real, Mean(ones));
  }

  /** When every trial has at least one 0/1 pair, the averaged accuracy and error
      rate add up to 1. */
  lemma AggregateAccuracyError(input: seq<Trial>, root: real -> real)
    requires |input| > 0
    requires forall i :: 0 <= i < |input| ==> Total(ConfusionMatrix(input[i].yReal, input[i].yPred)) > 0
    ensures Aggregate(input, root).accuracy + Aggregate(input, root).errorRate == 1.0
  {
    var a, e := Column(input, root, AccuracyKey), Column(input, root, ErrorRateKey);
    var s, p := Column(input, root, SensitivityKey), Column(input, root, SpecificityKey);
    var u := Column(input, root, AreaUnderCurveKey);
    forall i | 0 <= i < |e| ensures e[i] == -1.0 * a[i] + 1.0 {
      ColumnAt(input, root, i);
      TrialRelations(input[i], root, a[i], e[i], s[i], p[i], u[i]);
    }
    MeanComplement(a, e);
  }

  /** The 0/1 pairs on which the two sides agree are the true positives and negatives. */
  lemma {:induction false} DiagonalMatches(yReal: seq<Label>, yPred: seq<Label>, n: nat)
    requires n <= |yReal| && n <= |yPred|
    requires forall i :: 0 <= i < n ==> Binary(yReal[i]) && Binary(yPred[i])
    ensures PairCount(yReal, yPred, n, 1, 1) + PairCount(yReal, yPred, n, 0, 0) == Matches(yReal[..n], yPred[..n])
  {
    if n > 0 {
      DiagonalMatches(yReal, yPred, n - 1);
      MatchesPrefixStep(yReal, yPred, n);
      var x, y := yReal[n - 1], yPred[n - 1];
      assert PairCount(yReal, yPred, n, 1, 1) == PairCount(yReal, yPred, n - 1, 1, 1) + (if x == 1 && y == 1 then 1 else 0);
      assert PairCount(yReal, yPred, n, 0, 0) == PairCount(yReal, yPred, n - 1, 0, 0) + (if x == 0 && y == 0 then 1 else 0);
      assert Binary(x) && Binary(y);
    }
  }

  /** Counting matches over one more position of the common prefix. */
  lemma MatchesPrefixStep(yReal: seq<Label>, yPred: seq<Label>, n: nat)
    requires 0 < n <= |yReal| && n <= |yPred|
    ensures Matches(yReal[..n], yPred[..n])
      == Matches(yReal[..n - 1], yPred[..n - 1]) + (if yReal[n - 1] == yPred[n - 1] then 1 else 0)
  {
    var a, b := yReal[..n], yPred[..n];
    assert a[..n - 1] == yReal[..n - 1] && b[..n - 1] == yPred[..n - 1];
  }

  /** On equally long 0/1 labels the accuracy rate is the share of agreeing positions. */
  lemma AccuracyIsMatchRate(yReal: seq<Label>, yPred: seq<Label>)
    requires |yReal| == |yPred| > 0
    requires forall i :: 0 <= i < |yReal| ==> Binary(yReal[i]) && Binary(yPred[i])
    ensures MatchRate(yReal, yPred) == Value(AccuracyRate(ConfusionMatrix(yReal, yPred)))
  {
    var n := |yReal|;
    DiagonalMatches(yReal, yPred, n);
    assert yReal[..n] == yReal && yPred[..n] == yPred;
    var c := ConfusionMatrix(yReal, yPred);
    assert c.tp + c.tn == Matches(yReal, yPred) && Total(c) == n;
  }

  /** After the driver's 4 -> 1 mapping every label is 0 or 1, so every zipped
      position of a mapped trial is counted. */
  lemma BinaryTrialsCounted(ts: seq<Trial>, i: nat)
    requires i < |ts|
    ensures var t := BinaryTrials(ts)[i];
      Total(ConfusionMatrix(t.yReal, t.yPred)) == Min(|ts[i].yReal|, |ts[i].yPred|)
  {
    var t := BinaryTrials(ts)[i];
    assert forall j :: 0 <= j < Min(|t.yReal|, |t.yPred|) ==> Binary(t.yReal[j]) && Binary(t.yPred[j]);
  }

  /** Every mapped trial whose sides are non-empty counts at least one position. */
  lemma MappedCounted(ts: seq<Trial>)
    requires forall i :: 0 <= i < |ts| ==> |ts[i].yReal| > 0 && |ts[i].yPred| > 0
    ensures forall i :: 0 <= i < |ts| ==>
      Total(ConfusionMatrix(BinaryTrials(ts)[i].yReal, BinaryTrials(ts)[i].yPred)) > 0
  {
    forall i | 0 <= i < |ts|
      ensures Total(ConfusionMatrix(BinaryTrials(ts)[i].yReal, BinaryTrials(ts)[i].yPred)) > 0
    {
      BinaryTrialsCounted(ts, i);
    }
  }

  /** On the trials the driver passes, each with both sides non-empty, the averaged
      accuracy and error rate add up to 1. */
  lemma MappedAccuracyError(ts: seq<Trial>, root: real -> real)
    requires |ts| > 0
    requires forall i :: 0 <= i < |ts| ==> |ts[i].yReal| > 0 && |ts[i].yPred| > 0
    ensures Aggregate(BinaryTrials(ts), root).accuracy + Aggregate(BinaryTrials(ts), root).errorRate == 1.0
  {
    MappedCounted(ts);
    AggregateAccuracyError(BinaryTrials(ts), root);
  }

  /** On a mapped pair of equally long, non-empty label lists the newer accuracy is
      the older calculator's mean(y_real == y_pred). */
  lemma MappedAccuracyIsMatchRate(yReal: seq<Label>, yPred: seq<Label>)
    requires |yReal| == |yPred| > 0
    ensures var a, b := BinaryLabels(yReal), BinaryLabels(yPred);
      MatchRate(a, b) == Value(AccuracyRate(ConfusionMatrix(a, b)))
  {
    AccuracyIsMatchRate(BinaryLabels(yReal), BinaryLabels(yPred));
  }

  /** The example pair y_real = [1, 0, 1, 1, 0], y_pred = [1, 0, 1, 0, 0]. */
  lemma ExampleHoldoutCounts()
    ensures ConfusionMatrix([1, 0, 1, 1, 0], [1, 0, 1, 0, 0]) == Counts(2, 2, 0, 1)
  {
  }

  /** The rates of those counts: accuracy 0.8, error rate 0.2, sensitivity 2/3,
      specificity 1. */
  lemma ExampleHoldoutRates()
    ensures AccuracyRate(Counts(2, 2, 0, 1)) == 0.8
    ensures ErrorRate(Counts(2, 2, 0, 1)) == 0.2
    ensures Sensitivity(Counts(2, 2, 0, 1)) == 2.0 / 3.0
    ensures Specificity(Counts(2, 2, 0, 1)) == 1.0
  {
  }

  /** The sensitivity column holds each trial's sensitivity. */
  lemma SensitivityColumn(input: seq<Trial>, root: real -> real, i: nat)
    requires i < |input|
    ensures Column(input, root, SensitivityKey)[i] == Sensitivity(ConfusionMatrix(input[i].yReal, input[i].yPred))
  {
  }

  /** With two trials the reported sensitivity is the mean of their two sensitivities. */
  lemma TwoTrialSensitivity(input: seq<Trial>, root: real -> real, x: real, y: real)
    requires |input| == 2
    requires x == Sensitivity(ConfusionMatrix(input[0].yReal, input[0].yPred))
    requires y == Sensitivity(ConfusionMatrix(input[1].yReal, input[1].yPred))
    ensures Aggregate(input, root).sensitivity == (x + y) / 2.0
  {
    var s := Column(input, root, SensitivityKey);
    SensitivityColumn(input, root, 0);
    SensitivityColumn(input, root, 1);
    assert s == [s[0], s[1]];
    MeanPair(s[0], s[1]);
  }

  lemma ExampleFoundOne()
    ensures ConfusionMatrix([1], [1]) == Counts(1, 0, 0, 0)
  {
  }

  lemma ExampleFoundNone()
    ensures ConfusionMatrix([1, 1, 1], [0, 0, 0]) == Counts(0, 0, 0, 3)
  {
  }

  lemma ExamplePooled()
    ensures ConfusionMatrix([1, 1, 1, 1], [1, 0, 0, 0]) == Counts(1, 0, 0, 3)
  {
  }

  /** Rates are averaged per trial, not pooled: a trial with one true positive (such
      as ExampleFoundOne's) and a trial with three false negatives (such as
      ExampleFoundNone's) average a sensitivity of 1/2, while their pooled counts
      (ExamplePooled's) give 1/4. */
  lemma ExampleNotPooled(t0: Trial, t1: Trial, root: real -> real)
    requires ConfusionMatrix(t0.yReal, t0.yPred) == Counts(1, 0, 0, 0)
    requires ConfusionMatrix(t1.yReal, t1.yPred) == Counts(0, 0, 0, 3)
    ensures Aggregate([t0, t1], root).sensitivity == 0.5
    ensures Sensitivity(Counts(1, 0, 0, 3)) == 0.25
  {
    assert Sensitivity(Counts(1, 0, 0, 0)) == 1.0 && Sensitivity(Counts(0, 0, 0, 3)) == 0.0;
    TwoTrialSensitivity([t0, t1], root, 1.0, 0.0);
  }
}
