/** The k-nearest-neighbours classifier: it stores the training table on fit and
    labels each test row by majority vote among its k nearest training rows.
    Neighbours are ranked by squared Euclidean distance; the square root numpy
    takes is monotone and so does not change the ranking. */
module Knn {
  import opened Common
  import opened Indices
  import opened Dataset

  /** Squared Euclidean distance: the sum of squared coordinate differences. */
  function SqDistance(a: Row, b: Row): (d: real)
    requires |a| == |b|
    ensures d >= 0.0
  {
    if |a| == 0 then 0.0 else SqDistance(a[1..], b[1..]) + (a[0] - b[0]) * (a[0] - b[0])
  }

  lemma {:induction false} SqDistanceSymmetric(a: Row, b: Row)
    requires |a| == |b|
    ensures SqDistance(a, b) == SqDistance(b, a)
  {
    if |a| > 0 {
      SqDistanceSymmetric(a[1..], b[1..]);
    }
  }

  /** The distance is zero exactly between identical points. */
  lemma {:induction false} SqDistanceZero(a: Row, b: Row)
    requires |a| == |b|
    ensures SqDistance(a, b) == 0.0 <==> a == b
  {
    if |a| > 0 {
      SqDistanceZero(a[1..], b[1..]);
      var h := a[0] - b[0];
      var sq := h * h;
      assert SqDistance(a, b) == SqDistance(a[1..], b[1..]) + sq;
      SquarePositive(h, sq);
      assert a == b <==> h == 0.0 && a[1..] == b[1..] by {
        assert a == [a[0]] + a[1..] && b == [b[0]] + b[1..];
      }
    }
  }

  /** The distances from x to every training row, in training order. */
  function Distances(x: Row, train: seq<Row>): (d: seq<real>)
    requires forall r :: r in train ==> |r| == |x|
  {
    seq(|train|, i requires 0 <= i < |train| => SqDistance(x, train[i]))
  }

  /** s lists rows of d in order of non-decreasing distance. */
  predicate SortedBy(d: seq<real>, s: seq<nat>)
  {
    Below(s, |d|) && forall a, b :: 0 <= a < b < |s| ==> d[s[a]] <= d[s[b]]
  }

  /** Putting in front an index no farther than any of a sorted sequence keeps it sorted. */
  lemma SortedCons(d: seq<real>, x: nat, s: seq<nat>)
    requires x < |d| && x !in s
    requires SortedBy(d, s) && Distinct(s)
    requires forall e :: e in s ==> d[x] <= d[e]
    ensures Elements([x] + s) == Elements(s) + {x}
    ensures SortedBy(d, [x] + s) && Distinct([x] + s)
  {
    var r := [x] + s;
    assert forall b :: 0 < b < |r| ==> r[b] == s[b - 1];
  }

  /** The head of a distinct sorted sequence is no farther than any of its elements. */
  lemma HeadNearest(d: seq<real>, s: seq<nat>)
    requires |s| > 0 && SortedBy(d, s) && Distinct(s)
    ensures Elements(s) == {s[0]} + Elements(s[1..])
    ensures s[0] !in s[1..]
    ensures SortedBy(d, s[1..]) && Distinct(s[1..])
    ensures forall e :: e in s[1..] ==> d[s[0]] <= d[e]
  {
    assert s == [s[0]] + s[1..];
    forall e | e in s[1..] ensures d[s[0]] <= d[e] {
      var j :| 0 <= j < |s[1..]| && s[1..][j] == e;
      assert s[j + 1] == e;
    }
  }

  function InsertByKey(d: seq<real>, i: nat, s: seq<nat>): (r: seq<nat>)
    requires i < |d| && i !in s
    requires SortedBy(d, s) && Distinct(s)
    ensures |r| == |s| + 1 && Elements(r) == Elements(s) + {i}
    ensures SortedBy(d, r) && Distinct(r)
  {
    if |s| == 0 then [i]
    else if d[i] <= d[s[0]] then
      assert forall e :: e in s ==> d[i] <= d[e] by {
        HeadNearest(d, s);
      }
      SortedCons(d, i, s);
      [i] + s
    else
      HeadNearest(d, s);
      var rest := InsertByKey(d, i, s[1..]);
      assert forall e :: e in rest ==> d[s[0]] <= d[e] by {
        assert forall e :: e in rest ==> e in Elements(rest);
      }
      SortedCons(d, s[0], rest);
      [s[0]] + rest
  }

  function SortByKey(d: seq<real>, s: seq<nat>): (r: seq<nat>)
    requires Below(s, |d|) && Distinct(s)
    ensures |r| == |s| && Elements(r) == Elements(s)
    ensures SortedBy(d, r) && Distinct(r)
  {
    if |s| == 0 then []
    else
      var rest := SortByKey(d, s[1..]);
      assert s == [s[0]] + s[1..];
      assert s[0] !in Elements(s[1..]);
      InsertByKey(d, s[0], rest)
  }

  /** What np.argsort(distances) may return: every row index once, nearest first.
      Its default quicksort is not stable, so rows at equal distance may come in
      any order. */
  predicate IsArgSort(d: seq<real>, order: seq<nat>)
  {
    IsPermutation(order, |d|) && SortedBy(d, order)
  }

  /** One order np.argsort may return: insertion sort by distance. */
  function ArgSort(d: seq<real>): (r: seq<nat>)
    ensures IsArgSort(d, r)
  {
    SortByKey(d, Range(|d|))
  }

  /** len(range(n)[:k]): Python slicing takes min(k, n) elements for k >= 0, and
      drops the last -k elements for negative k. */
  function NeighbourCount(k: int, n: nat): (m: nat)
    ensures m <= n
    ensures k >= 0 ==> m == Min(k, n)
    ensures k < 0 ==> m == Max(0, n + k)
  {
    if k >= 0 then Min(k, n) else Max(0, n + k)
  }

  /** The first k entries of any argsort, argsort(distances)[:k], are NeighbourCount
      distinct rows, each no farther than every row left out. */
  lemma NearestRows(d: seq<real>, order: seq<nat>, k: int)
    requires IsArgSort(d, order)
    ensures var sel := order[..NeighbourCount(k, |d|)];
      && |sel| == NeighbourCount(k, |d|)
      && Distinct(sel) && Below(sel, |d|)
      && forall i: nat, j: nat :: i in sel && j < |d| && j !in sel ==> d[i] <= d[j]
  {
    var m := NeighbourCount(k, |d|);
    var sel := order[..m];
    forall i: nat, j: nat | i in sel && j < |d| && j !in sel ensures d[i] <= d[j] {
      PermutationCovers(order, |d|);
      assert j in Elements(order);
      var p :| 0 <= p < m && sel[p] == i;
      var q :| 0 <= q < |order| && order[q] == j;
      assert forall t :: 0 <= t < m ==> order[t] == sel[t];
      assert q >= m;
    }
  }

  /** The labels of the rows an argsort puts first, nearest first. */
  function NearestLabels(labels: seq<Label>, order: seq<nat>, m: nat): (v: seq<Label>)
    requires m <= |order| && Below(order, |labels|)
    ensures |v| == m
    ensures forall t :: 0 <= t < m ==> v[t] == labels[order[t]]
  {
    Select(labels, order[..m])
  }

  /** How often x occurs in s. */
  function Count<T(==)>(s: seq<T>, x: T): (c: nat)
    ensures c <= |s|
    ensures c > 0 <==> x in s
  {
    if |s| == 0 then 0
    else
      var m := |s| - 1;
      assert s == s[..m] + [s[m]];
      Count(s[..m], x) + (if s[m] == x then 1 else 0)
  }

  /** Scan for Counter.most_common(1): keeps the first label seen with the highest count. */
  function MostCommonFrom(votes: seq<Label>, i: nat, best: Label): (w: Label)
    requires i <= |votes| && best in votes
    requires forall j :: 0 <= j < i ==> Count(votes, votes[j]) <= Count(votes, best)
    ensures w in votes
    ensures forall j :: 0 <= j < |votes| ==> Count(votes, votes[j]) <= Count(votes, w)
    decreases |votes| - i
  {
    if i == |votes| then best
    else if Count(votes, votes[i]) > Count(votes, best) then MostCommonFrom(votes, i + 1, votes[i])
    else MostCommonFrom(votes, i + 1, best)
  }

  /** Counter(votes).most_common(1)[0][0]: a label with the highest count. */
  function MostCommon(votes: seq<Label>): (w: Label)
    requires |votes| > 0
    ensures IsMajority(votes, w)
  {
    var w := MostCommonFrom(votes, 1, votes[0]);
    assert forall l :: l in votes ==> Count(votes, l) <= Count(votes, w);
    w
  }

  /** p occurs among the votes and no label has more votes than p. */
  ghost predicate IsMajority(votes: seq<Label>, p: Label)
  {
    p in votes && forall l :: Count(votes, l) <= Count(votes, p)
  }

  /** The labels tied for the highest count. */
  function Winners(votes: seq<Label>): (t: set<Label>)
    requires |votes| > 0
    ensures forall p :: p in t <==> IsMajority(votes, p)
  {
    var top := Count(votes, MostCommon(votes));
    set l | l in votes && Count(votes, l) == top
  }

  /** When one label has strictly more votes than every other, it is the only
      label a prediction can return. */
  lemma UniqueWinner(votes: seq<Label>, w: Label)
    requires w in votes
    requires forall l :: l != w ==> Count(votes, l) < Count(votes, w)
    ensures forall p :: IsMajority(votes, p) <==> p == w
  {
    assert IsMajority(votes, w) by {
      forall l ensures Count(votes, l) <= Count(votes, w) {
        if l != w {
          assert Count(votes, l) < Count(votes, w);
        }
      }
    }
  }

  /** What _predict_single_point may return for x: a label with the highest count
      among the labels of the k nearest training rows, for some order argsort may
      produce. */
  ghost predicate IsPrediction(train: seq<Row>, labels: seq<Label>, k: int, x: Row, p: Label)
    requires |train| <= |labels| && forall r :: r in train ==> |r| == |x|
  {
    var d := Distances(x, train);
    exists order :: IsArgSort(d, order) && IsMajority(NearestLabels(labels, order, NeighbourCount(k, |d|)), p)
  }

  class KNN {
    var k: int
    var xTrain: Option<seq<Row>>
    var yTrain: Option<seq<Label>>

    constructor (k: int)
      ensures this.k == k && xTrain == None && yTrain == None
    {
      this.k := k;
      xTrain := None;
      yTrain := None;
    }

    /** Stores the training table and labels; nothing else changes. */
    method Fit(x: seq<Row>, y: seq<Label>)
      modifies this
      ensures xTrain == Some(x) && yTrain == Some(y) && k == old(k)
    {
      xTrain := Some(x);
      yTrain := Some(y);
    }

    /** What predicting x needs: a fitted model, a label for every training row,
        rows of x's width, and at least one neighbour after slicing with k. */
    predicate CanPredict(x: Row)
      reads this
    {
      && xTrain.Some? && yTrain.Some?
      && |xTrain.value| <= |yTrain.value|
      && (forall r :: r in xTrain.value ==> |r| == |x|)
      && NeighbourCount(k, |xTrain.value|) > 0
    }

    /** p is a label the fitted model may predict for x. */
    ghost predicate Predicts(x: Row, p: Label)
      reads this
      requires CanPredict(x)
    {
      IsPrediction(xTrain.value, yTrain.value, k, x, p)
    }

    /** Majority vote among the k nearest labels; a tie goes to any of the tied labels. */
    method PredictSinglePoint(x: Row) returns (predicted: Label)
      requires CanPredict(x)
      ensures Predicts(x, predicted)
    {
      var d := Distances(x, xTrain.value);
      var order := ArgSort(d);
      var votes := NearestLabels(yTrain.value, order, NeighbourCount(k, |d|));
      var best := MostCommon(votes);
      var tied := Winners(votes);
      if |tied| > 1 {
        predicted :| predicted in tied;
      } else {
        predicted := best;
      }
      assert IsArgSort(d, order) && IsMajority(votes, predicted);
    }

    /** One prediction per test row, in the test rows' order. */
    method Predict(xTest: seq<Row>) returns (preds: seq<Label>)
      requires forall i :: 0 <= i < |xTest| ==> CanPredict(xTest[i])
      ensures |preds| == |xTest|
      ensures forall i :: 0 <= i < |xTest| ==> Predicts(xTest[i], preds[i])
    {
      preds := [];
      for i := 0 to |xTest|
        invariant |preds| == i
        invariant forall j :: 0 <= j < i ==> Predicts(xTest[j], preds[j])
      {
        var p := PredictSinglePoint(xTest[i]);
        PredictsAppend(xTest, preds, p);
        preds := preds + [p];
      }
    }

    /** Appending the prediction for the next row keeps every earlier one. */
    lemma PredictsAppend(xs: seq<Row>, ps: seq<Label>, p: Label)
      requires |ps| < |xs| && forall j :: 0 <= j < |xs| ==> CanPredict(xs[j])
      requires forall j :: 0 <= j < |ps| ==> Predicts(xs[j], ps[j])
      requires Predicts(xs[|ps|], p)
      ensures forall j :: 0 <= j <= |ps| ==> Predicts(xs[j], (ps + [p])[j])
    {
    }
  }

  const ExampleTrain: seq<Row> := [[1.0, 1.0], [2.0, 3.0], [3.0, 2.0], [6.0, 8.0]]

  const ExampleLabels: seq<Label> := [0, 1, 1, 0]

  const ExampleDistances: seq<real> := [4.5, 0.5, 0.5, 42.5]

  lemma ExampleDistancesFrom()
    ensures Distances([2.5, 2.5], ExampleTrain) == ExampleDistances
  {
    var x: Row := [2.5, 2.5];
    forall i | 0 <= i < 4 ensures SqDistance(x, ExampleTrain[i]) == ExampleDistances[i] {
      var r := ExampleTrain[i];
      assert x[1..] == [2.5] && r[1..] == [r[1]] && r[1..][1..] == [] && x[1..][1..] == [];
    }
  }

  /** Row 3 is the farthest, so every argsort of the example puts it last. */
  lemma ExampleFarthestLast(order: seq<nat>)
    requires IsArgSort(ExampleDistances, order)
    ensures order[3] == 3
  {
    var d := ExampleDistances;
    PermutationCovers(order, 4);
    assert 3 in Elements(order);
    var q :| 0 <= q < 4 && order[q] == 3;
    assert d[order[q]] <= d[order[3]];
  }

  /** How often l occurs in a sequence of three labels. */
  lemma CountThree(v: seq<Label>, l: Label)
    requires |v| == 3
    ensures Count(v, l) == (if v[0] == l then 1 else 0) + (if v[1] == l then 1 else 0) + (if v[2] == l then 1 else 0)
  {
    assert v[..2][..1] == [v[0]] && [v[0]][..0] == [];
    assert v[..2] == [v[0], v[1]];
  }

  /** Whatever order argsort returns, the three nearest labels are two 1s and one 0. */
  lemma ExampleVotes(order: seq<nat>)
    requires IsArgSort(ExampleDistances, order)
    ensures forall p :: IsMajority(NearestLabels(ExampleLabels, order, 3), p) ==> p == 1
  {
    var v := NearestLabels(ExampleLabels, order, 3);
    ExampleFarthestLast(order);
    PermutationCovers(order, 4);
    assert 0 in Elements(order);
    var q :| 0 <= q < 4 && order[q] == 0;
    assert forall t :: 0 <= t < 3 ==> (v[t] == 0 <==> t == q) && (v[t] == 1 <==> t != q);
    CountThree(v, 0);
    CountThree(v, 1);
    assert Count(v, 0) == 1 && Count(v, 1) == 2;
  }

  /** The example of the unit tests: with k = 3 and training rows (1,1)->0, (2,3)->1,
      (3,2)->1, (6,8)->0, the only prediction for (2.5, 2.5) is label 1. */
  lemma ExamplePrediction()
    ensures forall p :: IsPrediction(ExampleTrain, ExampleLabels, 3, [2.5, 2.5], p) ==> p == 1
  {
    ExampleDistancesFrom();
    forall p | IsPrediction(ExampleTrain, ExampleLabels, 3, [2.5, 2.5], p) ensures p == 1 {
      var order :| IsArgSort(ExampleDistances, order) && IsMajority(NearestLabels(ExampleLabels, order, 3), p);
      ExampleVotes(order);
    }
  }
}
