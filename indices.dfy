/** Row-index bookkeeping shared by the resampling strategies: permutations of
    [0..n), positional selection (pandas iloc) and numpy's setdiff1d. */
module Indices {
  import opened Common

  /** [0, 1, ..., n-1] (numpy arange). */
  function Range(n: nat): (r: seq<nat>)
    ensures |r| == n && forall i :: 0 <= i < n ==> r[i] == i
  {
    seq(n, i requires 0 <= i < n => i)
  }

  function Elements<T>(s: seq<T>): set<T>
  {
    set x | x in s
  }

  /** The index set {0, ..., n-1}. */
  function RangeSet(n: nat): (r: set<nat>)
    ensures forall v: nat :: v in r <==> v < n
  {
    var r := Elements(Range(n));
    assert forall v: nat :: v in r <==> v < n by {
      forall v: nat ensures v in r <==> v < n {
        if v < n {
          assert Range(n)[v] == v;
        }
      }
    }
    r
  }

  predicate Distinct<T(==)>(s: seq<T>)
  {
    forall i, j :: 0 <= i < j < |s| ==> s[i] != s[j]
  }

  predicate Below(s: seq<nat>, n: nat)
  {
    forall i :: 0 <= i < |s| ==> s[i] < n
  }

  predicate StrictlyIncreasing(s: seq<nat>)
  {
    forall i, j :: 0 <= i < j < |s| ==> s[i] < s[j]
  }

  /** What np.random.permutation(n) may return: each of 0..n-1 exactly once. */
  predicate IsPermutation(perm: seq<nat>, n: nat)
  {
    |perm| == n && Below(perm, n) && Distinct(perm)
  }

  /** arange(n) is itself a permutation of n. */
  lemma RangeIsPermutation(n: nat)
    ensures IsPermutation(Range(n), n) && StrictlyIncreasing(Range(n))
  {
  }

  /** A sequence without repetitions has as many elements as positions. */
  lemma {:induction false} DistinctSize<T>(s: seq<T>)
    requires Distinct(s)
    ensures |Elements(s)| == |s|
  {
    if |s| > 0 {
      var m := |s| - 1;
      DistinctSize(s[..m]);
      assert Elements(s) == Elements(s[..m]) + {s[m]};
      assert s[m] !in Elements(s[..m]);
    }
  }

  /** A contiguous part of a permutation of n is a set of distinct indices below n. */
  lemma PermutationSlice(perm: seq<nat>, n: nat, lo: nat, hi: nat)
    requires IsPermutation(perm, n) && lo <= hi <= n
    ensures Distinct(perm[lo..hi]) && Below(perm[lo..hi], n)
    ensures |Elements(perm[lo..hi])| == hi - lo
  {
    var b := perm[lo..hi];
    assert forall a :: 0 <= a < |b| ==> b[a] == perm[lo + a];
    DistinctSize(b);
  }

  /** A permutation of n mentions every index below n. */
  lemma PermutationCovers(perm: seq<nat>, n: nat)
    requires IsPermutation(perm, n)
    ensures Elements(perm) == RangeSet(n)
  {
    DistinctSize(perm);
    DistinctSize(Range(n));
    var e, r := Elements(perm), RangeSet(n);
    assert e <= r;
    assert |r - e| == |r| - |e|;
  }

  /** The rows at the given positions, in that order (pandas iloc). */
  function Select<T>(data: seq<T>, idx: seq<nat>): (r: seq<T>)
    requires Below(idx, |data|)
  {
    seq(|idx|, i requires 0 <= i < |idx| => data[idx[i]])
  }

  /** One past the largest value of a, 0 when a is empty. */
  function Bound(a: seq<nat>): (m: nat)
    ensures forall v :: v in a ==> v < m
  {
    if |a| == 0 then 0
    else
      var init := Bound(a[..|a| - 1]);
      assert forall v :: v in a ==> v in a[..|a| - 1] || v == a[|a| - 1];
      Max(init, a[|a| - 1] + 1)
  }

  /** The values below m that occur in a and not in b, ascending. */
  function DiffBelow(a: seq<nat>, b: seq<nat>, m: nat): (r: seq<nat>)
    ensures forall v :: v in r <==> v < m && v in a && v !in b
    ensures StrictlyIncreasing(r)
    ensures Below(r, m)
  {
    if m == 0 then []
    else
      var r := DiffBelow(a, b, m - 1);
      if m - 1 in a && m - 1 !in b then r + [m - 1] else r
  }

  /** numpy's setdiff1d(a, b): the unique values of a that are not in b, sorted. */
  function SetDiff1d(a: seq<nat>, b: seq<nat>): (r: seq<nat>)
    ensures forall v :: v in r <==> v in a && v !in b
    ensures StrictlyIncreasing(r)
  {
    DiffBelow(a, b, Bound(a))
  }

  lemma IncreasingIsDistinct(s: seq<nat>)
    requires StrictlyIncreasing(s)
    ensures Distinct(s)
  {
  }

  /** Removing b's distinct in-range values from a permutation of n leaves n - |b|
      values, each below n and absent from b. */
  lemma SetDiffOfPermutation(a: seq<nat>, b: seq<nat>, n: nat)
    requires IsPermutation(a, n)
    requires Distinct(b) && Below(b, n)
    ensures var r := SetDiff1d(a, b);
      && |r| == n - |b|
      && Below(r, n)
      && forall v: nat :: v in r <==> v < n && v !in b
  {
    var r := SetDiff1d(a, b);
    PermutationCovers(a, n);
    assert forall v: nat :: v in a <==> v < n by {
      forall v: nat ensures v in a <==> v < n {
        assert v in a <==> v in Elements(a);
        assert v in RangeSet(n) <==> v < n;
      }
    }
    DistinctSize(r);
    DistinctSize(b);
    DistinctSize(Range(n));
    var er, eb, rs := Elements(r), Elements(b), RangeSet(n);
    assert er == rs - eb;
    assert eb <= rs;
    assert |rs - eb| == |rs| - |eb|;
    assert forall i :: 0 <= i < |r| ==> r[i] in r;
  }

  /** Cutting a permutation at position c splits the index set into two disjoint
      parts that together cover [0..n). */
  lemma CutPermutation(perm: seq<nat>, n: nat, c: nat)
    requires IsPermutation(perm, n) && c <= n
    ensures Distinct(perm[..c]) && Distinct(perm[c..])
    ensures Below(perm[..c], n) && Below(perm[c..], n)
    ensures Elements(perm[..c]) !! Elements(perm[c..])
    ensures Elements(perm[..c]) + Elements(perm[c..]) == RangeSet(n)
    ensures |perm[..c]| + |perm[c..]| == n
  {
    PermutationCovers(perm, n);
    assert perm == perm[..c] + perm[c..];
    assert forall i, j :: 0 <= i < c && 0 <= j < n - c ==> perm[..c][i] != perm[c..][j] by {
      forall i, j | 0 <= i < c && 0 <= j < n - c ensures perm[..c][i] != perm[c..][j] {
        assert perm[..c][i] == perm[i] && perm[c..][j] == perm[c + j];
      }
    }
  }
}
