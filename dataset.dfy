/** The data the pipeline passes between its stages: feature rows, labels, the
    (y_real, y_pred) pair one split produces, and the classifier the resampling
    strategies drive, seen as a function. */
module Dataset {
  import opened Indices

  /** One row of the feature table. */
  type Row = seq<real>

  type Label = int

  /** Every row of a data frame has the frame's columns. */
  predicate Rectangular(rows: seq<Row>)
  {
    forall i, j :: 0 <= i < |rows| && 0 <= j < |rows| ==> |rows[i]| == |rows[j]|
  }

  /** pandas' DataFrame.empty: no rows, or rows without any column. */
  predicate EmptyFrame(rows: seq<Row>)
  {
    |rows| == 0 || |rows[0]| == 0
  }

  /** One row of a table that still holds its target column. */
  datatype Sample = Sample(features: Row, target: Label)

  /** The (y_real, y_pred) pair recorded for one train/test split. */
  datatype Trial = Trial(yReal: seq<Label>, yPred: seq<Label>)

  /** A classifier built with k neighbours, fitted on (training rows, training labels)
      and asked for one label per test row. */
  type Classifier = (int, seq<Row>, seq<Label>, seq<Row>) -> seq<Label>

  /** An already constructed model: fit on the training part, then predict the test rows. */
  type Model = (seq<Row>, seq<Label>, seq<Row>) -> seq<Label>

  /** The classifier answers with one label per test row. */
  ghost predicate ClassifierKeepsLength(c: Classifier)
  {
    forall k, x, y, t :: |c(k, x, y, t)| == |t|
  }

  ghost predicate ModelKeepsLength(m: Model)
  {
    forall x, y, t :: |m(x, y, t)| == |t|
  }

  /** data.drop(columns=[target]) */
  function Features(s: seq<Sample>): (r: seq<Row>)
  {
    seq(|s|, i requires 0 <= i < |s| => s[i].features)
  }

  /** data[target] */
  function Labels(s: seq<Sample>): (r: seq<Label>)
  {
    seq(|s|, i requires 0 <= i < |s| => s[i].target)
  }

  /** One strategy iteration: fit a fresh classifier on the training indices, predict
      the test indices, and pair the true test labels with the predictions. */
  function SplitTrial(classify: Classifier, k: int, data: seq<Row>, labels: seq<Label>,
                      trainIdx: seq<nat>, testIdx: seq<nat>): (t: Trial)
    requires |labels| == |data|
    requires Below(trainIdx, |data|) && Below(testIdx, |data|)
    ensures t.yReal == Select(labels, testIdx)
    ensures ClassifierKeepsLength(classify) ==> |t.yPred| == |t.yReal|
  {
    Trial(Select(labels, testIdx),
          classify(k, Select(data, trainIdx), Select(labels, trainIdx), Select(data, testIdx)))
  }

  /** The command-line driver's label mapping: 4 (malignant) is positive, any
      other label negative. */
  function BinaryLabel(x: Label): (b: Label)
    ensures b == 0 || b == 1
    ensures b == 1 <==> x == 4
  {
    if x == 4 then 1 else 0
  }

  function BinaryLabels(ys: seq<Label>): (r: seq<Label>)
    ensures |r| == |ys|
    ensures forall i :: 0 <= i < |ys| ==> (r[i] == 0 || r[i] == 1) && (r[i] == 1 <==> ys[i] == 4)
  {
    seq(|ys|, i requires 0 <= i < |ys| => BinaryLabel(ys[i]))
  }

  /** Maps both sides of every trial to {0, 1} before the metrics are computed. */
  function BinaryTrials(ts: seq<Trial>): (r: seq<Trial>)
    ensures |r| == |ts|
    ensures forall i :: 0 <= i < |ts| ==> |r[i].yReal| == |ts[i].yReal| && |r[i].yPred| == |ts[i].yPred|
    ensures forall i, j :: 0 <= i < |ts| && 0 <= j < |ts[i].yReal| ==>
      (r[i].yReal[j] == 0 || r[i].yReal[j] == 1) && (r[i].yReal[j] == 1 <==> ts[i].yReal[j] == 4)
    ensures forall i, j :: 0 <= i < |ts| && 0 <= j < |ts[i].yPred| ==>
      (r[i].yPred[j] == 0 || r[i].yPred[j] == 1) && (r[i].yPred[j] == 1 <==> ts[i].yPred[j] == 4)
  {
    seq(|ts|, i requires 0 <= i < |ts| => Trial(BinaryLabels(ts[i].yReal), BinaryLabels(ts[i].yPred)))
  }
}
