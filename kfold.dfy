/** K-fold splitting: the shuffled row indices are cut into n_splits consecutive
    blocks of n // n_splits positions; each block is tested once, with every other
    row (sorted by numpy's setdiff1d) used for training. */
module KFold {
  import opened Common
  import opened Indices

  /** One (training rows, test rows) pair. */
  datatype Fold<T> = Fold(train: seq<T>, test: seq<T>)

  /** Multiplying by the same non-negative factor keeps the order. */
  lemma MulMonotone(a: nat, b: nat, c: nat)
    requires a <= b
    ensures a * c <= b * c
  {
    assert b * c == a * c + (b - a) * c;
  }

  /** The blocks before block k end by position k * fs. */
  lemma BlockFits(n: nat, fs: nat, k: nat, i: nat)
    requires k * fs <= n && i < k
    ensures i * fs + fs == (i + 1) * fs <= n
  {
    MulMonotone(i + 1, k, fs);
  }

  /** n // n_splits blocks of that size fit in n positions. */
  lemma FoldSizeFits(n: nat, k: nat)
    requires k > 0
    ensures k * (n / k) <= n
    ensures n - k * (n / k) < k
  {
  }

  /** With at most n folds every block has a row; with more, none has. */
  lemma FoldSizeZero(n: nat, k: nat)
    requires k > 0
    ensures n / k == 0 <==> n < k
  {
    FoldSizeFits(n, k);
    if n / k > 0 {
      MulMonotone(1, n / k, k);
      assert k * (n / k) == (n / k) * k;
    }
  }

  /** shuffled_indices[i * fs : (i + 1) * fs]: the i-th test block. */
  function TestBlock(perm: seq<nat>, fs: nat, i: nat): (b: seq<nat>)
    requires (i + 1) * fs <= |perm|
    ensures |b| == fs
  {
    assert i * fs + fs == (i + 1) * fs;
    perm[i * fs..(i + 1) * fs]
  }

  /** np.setdiff1d(shuffled_indices, test_indices): the i-th training part. */
  function TrainPart(perm: seq<nat>, fs: nat, i: nat): seq<nat>
    requires (i + 1) * fs <= |perm|
  {
    SetDiff1d(perm, TestBlock(perm, fs, i))
  }

  /** Each block is a set of fs distinct row indices. */
  lemma BlockIndices(perm: seq<nat>, n: nat, fs: nat, i: nat)
    requires IsPermutation(perm, n) && (i + 1) * fs <= n
    ensures Distinct(TestBlock(perm, fs, i)) && Below(TestBlock(perm, fs, i), n)
    ensures |Elements(TestBlock(perm, fs, i))| == fs
  {
    var lo := i * fs;
    assert lo + fs == (i + 1) * fs;
    PermutationSlice(perm, n, lo, lo + fs);
  }

  /** Two different blocks share no row. */
  lemma BlocksDisjoint(perm: seq<nat>, n: nat, fs: nat, i: nat, j: nat)
    requires IsPermutation(perm, n) && i < j
    requires (i + 1) * fs <= n && (j + 1) * fs <= n
    ensures Elements(TestBlock(perm, fs, i)) !! Elements(TestBlock(perm, fs, j))
  {
    MulMonotone(i + 1, j, fs);
    var bi, bj := TestBlock(perm, fs, i), TestBlock(perm, fs, j);
    forall a, b | 0 <= a < fs && 0 <= b < fs ensures bi[a] != bj[b] {
      assert bi[a] == perm[i * fs + a] && bj[b] == perm[j * fs + b];
      assert i * fs + a < j * fs + b;
    }
  }

  /** The training part of block i is the ascending list of the n - fs rows outside it. */
  lemma TrainPartComplement(perm: seq<nat>, n: nat, fs: nat, i: nat)
    requires IsPermutation(perm, n) && (i + 1) * fs <= n
    ensures var train := TrainPart(perm, fs, i);
      && |train| == n - fs && StrictlyIncreasing(train) && Below(train, n)
      && forall v: nat :: v in train <==> v < n && v !in TestBlock(perm, fs, i)
  {
    BlockIndices(perm, n, fs, i);
    SetDiffOfPermutation(perm, TestBlock(perm, fs, i), n);
  }

  /** The last n - k * fs shuffled indices are in no test block. */
  lemma RemainderNeverTested(perm: seq<nat>, n: nat, fs: nat, k: nat, i: nat)
    requires IsPermutation(perm, n) && k * fs <= n && i < k && (i + 1) * fs <= n
    ensures forall v :: v in perm[k * fs..] ==> v !in TestBlock(perm, fs, i)
  {
    BlockFits(n, fs, k, i);
    var b, rest := TestBlock(perm, fs, i), perm[k * fs..];
    forall a, c | 0 <= a < fs && 0 <= c < |rest| ensures b[a] != rest[c] {
      assert b[a] == perm[i * fs + a] && rest[c] == perm[k * fs + c];
      assert i * fs + a < (i + 1) * fs <= k * fs + c;
    }
  }

  /** The i-th fold on the rows of data: training rows and test rows. */
  function FoldAt<T>(data: seq<T>, perm: seq<nat>, k: nat, i: nat): Fold<T>
    requires IsPermutation(perm, |data|) && 0 < k && i < k
  {
    var fs := |data| / k;
    FoldSizeFits(|data|, k);
    BlockFits(|data|, fs, k, i);
    TrainPartComplement(perm, |data|, fs, i);
    BlockIndices(perm, |data|, fs, i);
    Fold(Select(data, TrainPart(perm, fs, i)), Select(data, TestBlock(perm, fs, i)))
  }

  /** Every fold tests n // k rows and trains on the other n - n // k. */
  lemma FoldSizes<T>(data: seq<T>, perm: seq<nat>, k: nat, i: nat)
    requires IsPermutation(perm, |data|) && 0 < k && i < k
    ensures |FoldAt(data, perm, k, i).test| == |data| / k
    ensures |FoldAt(data, perm, k, i).train| == |data| - |data| / k
  {
    FoldSizeFits(|data|, k);
    BlockFits(|data|, |data| / k, k, i);
    TrainPartComplement(perm, |data|, |data| / k, i);
  }

  /** split: n_splits = 0 divides by zero; a negative n_splits gives no fold (an
      empty range); otherwise one fold per block, in block order. The shuffle is
      the input perm. */
  method Split<T>(nSplits: int, data: seq<T>, perm: seq<nat>) returns (r: Result<seq<Fold<T>>>)
    requires IsPermutation(perm, |data|)
    ensures nSplits == 0 ==> r == Err(ZeroDivisionError)
    ensures nSplits < 0 ==> r == Ok([])
    ensures nSplits > 0 ==> r.Ok? && |r.value| == nSplits
    ensures nSplits > 0 ==> forall i :: 0 <= i < nSplits ==> r.value[i] == FoldAt(data, perm, nSplits, i)
  {
    if nSplits == 0 {
      return Err(ZeroDivisionError);
    }
    var folds: seq<Fold<T>> := [];
    if nSplits > 0 {
      var foldSize := |data| / nSplits;
      FoldSizeFits(|data|, nSplits);
      for i := 0 to nSplits
        invariant |folds| == i
        invariant forall j :: 0 <= j < i ==> folds[j] == FoldAt(data, perm, nSplits, j)
      {
        BlockFits(|data|, foldSize, nSplits, i);
        var testIndices := perm[i * foldSize..(i + 1) * foldSize];
        var trainIndices := SetDiff1d(perm, testIndices);
        TrainPartComplement(perm, |data|, foldSize, i);
        BlockIndices(perm, |data|, foldSize, i);
        folds := folds + [Fold(Select(data, trainIndices), Select(data, testIndices))];
      }
    }
    return Ok(folds);
  }
}
