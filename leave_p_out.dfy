/** Leave-p-out cross validation: every combination of p row indices, in the
    order itertools.combinations yields them, is tested once against a classifier
    with k = 3 fitted on the remaining rows. */
module LeavePOut {
  import opened Common
  import opened Indices
  import opened Dataset

  const PositiveMessage: string := "Il valore di 'p' deve essere positivo."
  const TooLargeMessage: string := "Il valore di 'p' non può essere maggiore del numero totale di campioni nel dataset."
  const EmptyTrainingMessage: string := "Il training set è vuoto. Riduci il valore di 'p'."

  /** The number of neighbours of every classifier the strategy builds. */
  const Neighbours: int := 3

  /** The validated constructor argument. */
  datatype Config = Config(p: nat)

  predicate Valid(cfg: Config)
  {
    cfg.p > 0
  }

  /** The constructor: p must be positive. */
  function New(p: int): (r: Result<Config>)
    ensures p <= 0 ==> r == Err(ValueError(PositiveMessage))
    ensures p > 0 ==> r == Ok(Config(p))
    ensures r.Ok? ==> Valid(r.value)
  {
    if p <= 0 then Err(ValueError(PositiveMessage)) else Ok(Config(p))
  }

  /** Pascal's rule: the number of ways to pick p of m items. */
  function Binomial(m: nat, p: nat): nat
  {
    if p == 0 then 1
    else if m == 0 then 0
    else Binomial(m - 1, p - 1) + Binomial(m - 1, p)
  }

  /** There is no way to pick more items than there are. */
  lemma {:induction false} BinomialTooMany(m: nat, p: nat)
    requires p > m
    ensures Binomial(m, p) == 0
  {
    if m > 0 {
      BinomialTooMany(m - 1, p - 1);
      BinomialTooMany(m - 1, p);
    }
  }

  /** There is at least one way to pick at most m of m items. */
  lemma {:induction false} BinomialPositive(m: nat, p: nat)
    requires p <= m
    ensures Binomial(m, p) >= 1
  {
    if p > 0 {
      BinomialPositive(m - 1, p - 1);
    }
  }

  /** Picking all items, or one item, of m. */
  lemma {:induction false} BinomialEdges(m: nat)
    ensures Binomial(m, m) == 1
    ensures Binomial(m, 1) == m
  {
    if m > 0 {
      BinomialEdges(m - 1);
      BinomialTooMany(m - 1, m);
    }
  }

  /** c is a p-combination of [lo..n): p strictly increasing values in that range. */
  predicate IsCombination(c: seq<nat>, lo: nat, n: nat, p: nat)
  {
    |c| == p && StrictlyIncreasing(c) && forall i :: 0 <= i < |c| ==> lo <= c[i] < n
  }

  /** Puts x in front of every combination. */
  function Prepend(x: nat, cs: seq<seq<nat>>): (r: seq<seq<nat>>)
    ensures |r| == |cs| && forall i :: 0 <= i < |cs| ==> r[i] == [x] + cs[i]
  {
    seq(|cs|, i requires 0 <= i < |cs| => [x] + cs[i])
  }

  /** itertools.combinations(range(lo, n), p): the combinations that take lo come
      first, then those that skip it. */
  function Choose(lo: nat, n: nat, p: nat): seq<seq<nat>>
    decreases n - lo
  {
    if p == 0 then [[]]
    else if lo >= n then []
    else Prepend(lo, Choose(lo + 1, n, p - 1)) + Choose(lo + 1, n, p)
  }

  /** There are Binomial(n - lo, p) combinations. */
  lemma {:induction false} ChooseCount(lo: nat, n: nat, p: nat)
    requires lo <= n
    ensures |Choose(lo, n, p)| == Binomial(n - lo, p)
    decreases n - lo
  {
    if p > 0 && lo < n {
      ChooseCount(lo + 1, n, p - 1);
      ChooseCount(lo + 1, n, p);
    }
  }

  /** Everything Choose yields is a p-combination of [lo..n). */
  lemma {:induction false} ChooseSound(lo: nat, n: nat, p: nat)
    requires lo <= n
    ensures forall i :: 0 <= i < |Choose(lo, n, p)| ==> IsCombination(Choose(lo, n, p)[i], lo, n, p)
    decreases n - lo
  {
    if p > 0 && lo < n {
      var taking, skipping := Choose(lo + 1, n, p - 1), Choose(lo + 1, n, p);
      ChooseSound(lo + 1, n, p - 1);
      ChooseSound(lo + 1, n, p);
      var cs := Choose(lo, n, p);
      assert cs == Prepend(lo, taking) + skipping;
      forall i | 0 <= i < |cs| ensures IsCombination(cs[i], lo, n, p) {
        if i < |taking| {
          var x := taking[i];
          assert cs[i] == [lo] + x;
          assert forall j :: 0 < j < |cs[i]| ==> cs[i][j] == x[j - 1];
        } else {
          assert cs[i] == skipping[i - |taking|];
        }
      }
    }
  }

  /** Every p-combination of [lo..n) is among those Choose yields. */
  lemma {:induction false} ChooseComplete(lo: nat, n: nat, p: nat, c: seq<nat>)
    requires lo <= n && IsCombination(c, lo, n, p)
    ensures c in Choose(lo, n, p)
    decreases n - lo
  {
    if p == 0 {
      assert c == [];
    } else {
      assert lo <= c[0] < n;
      var taking, skipping := Choose(lo + 1, n, p - 1), Choose(lo + 1, n, p);
      assert Choose(lo, n, p) == Prepend(lo, taking) + skipping;
      if c[0] == lo {
        var rest := c[1..];
        assert IsCombination(rest, lo + 1, n, p - 1) by {
          assert forall j :: 0 <= j < |rest| ==> rest[j] == c[j + 1];
        }
        ChooseComplete(lo + 1, n, p - 1, rest);
        var j :| 0 <= j < |taking| && taking[j] == rest;
        assert Prepend(lo, taking)[j] == c;
      } else {
        assert IsCombination(c, lo + 1, n, p);
        ChooseComplete(lo + 1, n, p, c);
      }
    }
  }

  /** Lexicographic order on index sequences. */
  predicate LexLess(a: seq<nat>, b: seq<nat>)
    decreases |a|
  {
    |a| > 0 && |b| > 0 && (a[0] < b[0] || (a[0] == b[0] && LexLess(a[1..], b[1..])))
  }

  /** Strictly increasing in lexicographic order. */
  predicate LexSorted(cs: seq<seq<nat>>)
  {
    forall i, j :: 0 <= i < j < |cs| ==> LexLess(cs[i], cs[j])
  }

  lemma {:induction false} LexLessDiffers(a: seq<nat>, b: seq<nat>)
    requires LexLess(a, b)
    ensures a != b
    decreases |a|
  {
    if a[0] == b[0] && !(a[0] < b[0]) {
      LexLessDiffers(a[1..], b[1..]);
    }
  }

  /** Choose yields the combinations in strictly increasing lexicographic order, so
      none of them twice. */
  lemma {:induction false} ChooseOrdered(lo: nat, n: nat, p: nat)
    requires lo <= n
    ensures LexSorted(Choose(lo, n, p))
    decreases n - lo
  {
    if p > 0 && lo < n {
      var taking, skipping := Choose(lo + 1, n, p - 1), Choose(lo + 1, n, p);
      ChooseOrdered(lo + 1, n, p - 1);
      ChooseOrdered(lo + 1, n, p);
      ChooseSound(lo + 1, n, p);
      var cs := Choose(lo, n, p);
      assert cs == Prepend(lo, taking) + skipping;
      assert LexSorted(taking) && LexSorted(skipping);
      var t := |taking|;
      forall i, j | 0 <= i < j < |cs| ensures LexLess(cs[i], cs[j]) {
        if j < t {
          assert cs[i] == [lo] + taking[i] && cs[j] == [lo] + taking[j];
          assert cs[i][1..] == taking[i] && cs[j][1..] == taking[j];
          assert LexLess(taking[i], taking[j]);
        } else if i < t {
          assert cs[i] == [lo] + taking[i];
          assert IsCombination(skipping[j - t], lo + 1, n, p);
          assert cs[j] == skipping[j - t];
          assert cs[i][0] < cs[j][0];
        } else {
          assert cs[i] == skipping[i - t] && cs[j] == skipping[j - t];
          assert LexLess(skipping[i - t], skipping[j - t]);
        }
      }
    }
  }

  /** The combinations of [0..n) are pairwise different. */
  lemma ChooseDistinct(n: nat, p: nat)
    ensures Distinct(Choose(0, n, p))
  {
    var cs := Choose(0, n, p);
    ChooseOrdered(0, n, p);
    assert LexSorted(cs);
    forall i, j | 0 <= i < j < |cs| ensures cs[i] != cs[j] {
      assert LexLess(cs[i], cs[j]);
      LexLessDiffers(cs[i], cs[j]);
    }
  }

  /** np.setdiff1d(arange(n), test): the rows a combination leaves for training. */
  function TrainIndices(n: nat, test: seq<nat>): (train: seq<nat>)
    ensures Below(train, n)
  {
    var train := SetDiff1d(Range(n), test);
    assert forall i :: 0 <= i < |train| ==> train[i] in Range(n);
    train
  }

  /** The training part of a p-combination of [0..n) is the ascending list of the
      other n - p rows. */
  lemma TrainComplement(n: nat, p: nat, test: seq<nat>)
    requires IsCombination(test, 0, n, p)
    ensures var train := TrainIndices(n, test);
      && |train| == n - p && StrictlyIncreasing(train) && Below(train, n)
      && forall v: nat :: v in train <==> v < n && v !in test
  {
    RangeIsPermutation(n);
    IncreasingIsDistinct(test);
    SetDiffOfPermutation(Range(n), test, n);
  }

  /** One combination: fit on the other rows, predict the p chosen ones. */
  function LeavePOutTrial(classify: Classifier, data: seq<Row>, labels: seq<Label>, test: seq<nat>): Trial
    requires |labels| == |data| && Below(test, |data|)
  {
    var train := TrainIndices(|data|, test);
    SplitTrial(classify, Neighbours, data, labels, train, test)
  }

  /** All trials, one per combination, in combination order. */
  function LeavePOutTrials(classify: Classifier, data: seq<Row>, labels: seq<Label>, p: nat): (ts: seq<Trial>)
    requires |labels| == |data|
    ensures |ts| == |Choose(0, |data|, p)|
  {
    var cs := Choose(0, |data|, p);
    ChooseSound(0, |data|, p);
    seq(|cs|, i requires 0 <= i < |cs| => LeavePOutTrial(classify, data, labels, cs[i]))
  }

  /** There are C(n, p) trials; each tests p rows with their true labels and, for a
      classifier that answers once per row, as many predictions. */
  lemma LeavePOutTrialsShape(classify: Classifier, data: seq<Row>, labels: seq<Label>, p: nat)
    requires |labels| == |data|
    ensures var ts := LeavePOutTrials(classify, data, labels, p);
      && |ts| == Binomial(|data|, p)
      && forall i :: 0 <= i < |ts| ==>
           && IsCombination(Choose(0, |data|, p)[i], 0, |data|, p)
           && ts[i].yReal == Select(labels, Choose(0, |data|, p)[i])
           && |ts[i].yReal| == p
           && (ClassifierKeepsLength(classify) ==> |ts[i].yPred| == p)
  {
    ChooseCount(0, |data|, p);
    ChooseSound(0, |data|, p);
  }

  /** The four-row table of the unit tests: two rows out gives 6 trials, one row out 4. */
  lemma ExampleFourRows()
    ensures Binomial(4, 2) == 6 && Binomial(4, 1) == 4
  {
    BinomialEdges(4);
    BinomialEdges(3);
    BinomialEdges(2);
  }

  /** The training frame of a p-combination is empty exactly when it keeps no row
      (p = n) or the table has no column. */
  lemma TrainingFrameEmpty(data: seq<Row>, p: nat, test: seq<nat>)
    requires Rectangular(data) && 0 < p <= |data| && IsCombination(test, 0, |data|, p)
    ensures EmptyFrame(Select(data, TrainIndices(|data|, test))) <==> p == |data| || |data[0]| == 0
  {
    var train := TrainIndices(|data|, test);
    TrainComplement(|data|, p, test);
    if |train| > 0 {
      assert Select(data, train)[0] == data[train[0]];
    }
  }

  /** generate_splits: p above the row count is refused at once; a training part
      without rows (p = n) or without columns is refused at the first
      combination; otherwise one trial per combination. */
  method GenerateSplits(cfg: Config, classify: Classifier, data: seq<Row>, labels: seq<Label>)
    returns (r: Result<seq<Trial>>)
    requires Valid(cfg) && |labels| == |data| && Rectangular(data)
    ensures cfg.p > |data| ==> r == Err(ValueError(TooLargeMessage))
    ensures cfg.p <= |data| && (cfg.p == |data| || |data[0]| == 0) ==> r == Err(ValueError(EmptyTrainingMessage))
    ensures cfg.p < |data| && |data[0]| > 0 ==> r == Ok(LeavePOutTrials(classify, data, labels, cfg.p))
  {
    var n := |data|;
    if cfg.p > n {
      return Err(ValueError(TooLargeMessage));
    }
    var indices := Range(n);
    var combos := Choose(0, n, cfg.p);
    ChooseSound(0, n, cfg.p);
    ChooseCount(0, n, cfg.p);
    BinomialPositive(n, cfg.p);
    var results: seq<Trial> := [];
    for i := 0 to |combos|
      invariant |results| == i
      invariant forall j :: 0 <= j < i ==> results[j] == LeavePOutTrial(classify, data, labels, combos[j])
      invariant i > 0 ==> cfg.p < n && |data[0]| > 0
    {
      var testIndices := combos[i];
      var trainIndices := SetDiff1d(indices, testIndices);
      assert trainIndices == TrainIndices(n, testIndices);
      var trainData, testData := Select(data, trainIndices), Select(data, testIndices);
      TrainingFrameEmpty(data, cfg.p, testIndices);
      if EmptyFrame(trainData) {
        return Err(ValueError(EmptyTrainingMessage));
      }
      var yPred := classify(Neighbours, trainData, Select(labels, trainIndices), testData);
      results := results + [Trial(Select(labels, testIndices), yPred)];
    }
    ResultsAreTrials(classify, data, labels, cfg.p, results);
    return Ok(results);
  }

  /** The trials collected one per combination are LeavePOutTrials. */
  lemma ResultsAreTrials(classify: Classifier, data: seq<Row>, labels: seq<Label>, p: nat, results: seq<Trial>)
    requires |labels| == |data|
    requires var cs := Choose(0, |data|, p);
      && (forall j :: 0 <= j < |cs| ==> Below(cs[j], |data|))
      && |results| == |cs|
      && forall j :: 0 <= j < |cs| ==> results[j] == LeavePOutTrial(classify, data, labels, cs[j])
    ensures results == LeavePOutTrials(classify, data, labels, p)
  {
  }
}
