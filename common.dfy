/** Shared vocabulary: Python exceptions as results, numpy floats that may be NaN,
    and the sums and means the metrics are built from. */
module Common {

  /** The exceptions the pipeline raises on data-dependent conditions. */
  datatype Error =
    | ValueError(message: string)
    | IndexError
    | ZeroDivisionError

  datatype Result<T> = Ok(value: T) | Err(error: Error)

  datatype Option<T> = None | Some(value: T)

  /** A numpy float64 as far as this pipeline can observe it: a real number, or the
      NaN that numpy returns for the mean of an empty array or for 0/0. */
  datatype Float = Value(v: real) | NaN

  function Min(a: int, b: int): int { if a <= b then a else b }

  function Max(a: int, b: int): int { if a <= b then b else a }

  /** Sum of a sequence, peeled from the back so that appending is one unfolding. */
  function Sum(xs: seq<real>): real
  {
    if |xs| == 0 then 0.0 else Sum(xs[..|xs| - 1]) + xs[|xs| - 1]
  }

  /** Arithmetic mean (Python's sum(values) / len(values)). */
  function Mean(xs: seq<real>): real
    requires |xs| > 0
  {
    Sum(xs) / (|xs| as real)
  }

  /** A square is never negative, and is zero only for zero. */
  lemma SquarePositive(h: real, sq: real)
    requires sq == h * h
    ensures sq >= 0.0
    ensures sq == 0.0 <==> h == 0.0
  {
    if h != 0.0 {
      assert sq / h == h;
    }
  }

  /** The quotient q of m by a positive n: multiplying back gives m, q is 1 exactly
      when m is n, and q is in [0, 1] when 0 <= m <= n. */
  lemma Fraction(m: real, n: real, q: real)
    requires n > 0.0 && q == m / n
    ensures q * n == m
    ensures q == 1.0 <==> m == n
    ensures 0.0 <= m <= n ==> 0.0 <= q <= 1.0
  {
    assert q * n == m;
    if 0.0 <= m <= n {
      if q > 1.0 {
        assert (q - 1.0) * n > 0.0;
      }
    }
  }

  /** When m and k fill n, the complement of the share m of n is the share k of n. */
  lemma ComplementShare(m: real, k: real, n: real, e: real)
    requires n > 0.0 && m + k == n && e == 1.0 - m / n
    ensures e == k / n
  {
    var q := m / n;
    Fraction(m, n, q);
    assert (1.0 - q) * n == k;
  }

  /** Python's int() of a float: truncation toward zero. */
  function Trunc(x: real): (r: int)
    ensures x >= 0.0 ==> 0 <= r && r as real <= x < r as real + 1.0
    ensures x < 0.0 ==> r <= 0 && r as real - 1.0 < x <= r as real
  {
    if x >= 0.0 then x.Floor else -((-x).Floor)
  }

  /** Scaling a non-negative x by a factor in [0, 1] stays within [0, x]. */
  lemma ScaleWithin(x: real, t: real, y: real)
    requires x >= 0.0 && 0.0 <= t <= 1.0 && y == x * t
    ensures 0.0 <= y <= x
  {
    assert x * t <= x * 1.0;
  }

  predicate InUnit(x: real) { 0.0 <= x <= 1.0 }

  predicate AllInUnit(xs: seq<real>) { forall i :: 0 <= i < |xs| ==> InUnit(xs[i]) }

  lemma {:induction false} SumBounds(xs: seq<real>)
    requires AllInUnit(xs)
    ensures 0.0 <= Sum(xs) <= |xs| as real
  {
    if |xs| > 0 {
      SumBounds(xs[..|xs| - 1]);
    }
  }

  /** The mean of values in [0, 1] lies in [0, 1]. */
  lemma MeanInUnit(xs: seq<real>)
    requires |xs| > 0 && AllInUnit(xs)
    ensures InUnit(Mean(xs))
  {
    SumBounds(xs);
    var n := |xs| as real;
    assert Mean(xs) * n == Sum(xs);
  }

  lemma {:induction false} SumPointwise(xs: seq<real>, ys: seq<real>, zs: seq<real>, a: real, b: real)
    requires |xs| == |ys| == |zs|
    requires forall i :: 0 <= i < |zs| ==> zs[i] == a * xs[i] + b * ys[i]
    ensures Sum(zs) == a * Sum(xs) + b * Sum(ys)
  {
    if |zs| > 0 {
      var m := |zs| - 1;
      SumPointwise(xs[..m], ys[..m], zs[..m], a, b);
    }
  }

  /** Scaling every term scales the sum. */
  lemma {:induction false} SumScaled(xs: seq<real>, zs: seq<real>, a: real)
    requires |xs| == |zs|
    requires forall i :: 0 <= i < |zs| ==> zs[i] == a * xs[i]
    ensures Sum(zs) == a * Sum(xs)
  {
    if |zs| > 0 {
      SumScaled(xs[..|xs| - 1], zs[..|zs| - 1], a);
    }
  }

  /** Means are linear: the mean of a * x + b * y is a * mean(x) + b * mean(y). */
  lemma MeanPointwise(xs: seq<real>, ys: seq<real>, zs: seq<real>, a: real, b: real)
    requires |xs| == |ys| == |zs| > 0
    requires forall i :: 0 <= i < |zs| ==> zs[i] == a * xs[i] + b * ys[i]
    ensures Mean(zs) == a * Mean(xs) + b * Mean(ys)
  {
    SumPointwise(xs, ys, zs, a, b);
    var n := |zs| as real;
    assert Mean(zs) * n == a * (Mean(xs) * n) + b * (Mean(ys) * n);
  }

  lemma {:induction false} SumConstant(xs: seq<real>, c: real)
    requires forall i :: 0 <= i < |xs| ==> xs[i] == c
    ensures Sum(xs) == (|xs| as real) * c
  {
    if |xs| > 0 {
      SumConstant(xs[..|xs| - 1], c);
    }
  }

  lemma MeanSingleton(x: real)
    ensures Mean([x]) == x
  {
    assert [x][..0] == [];
    assert Sum([x]) == x;
  }

  lemma MeanPair(x: real, y: real)
    ensures Mean([x, y]) == (x + y) / 2.0
  {
    assert [x, y][..1] == [x];
    MeanSingleton(x);
    assert Sum([x, y]) == Sum([x]) + y;
  }

  predicate AllValues(xs: seq<Float>) { forall i :: 0 <= i < |xs| ==> xs[i].Value? }

  function ValuesOf(xs: seq<Float>): (r: seq<real>)
    requires AllValues(xs)
  {
    seq(|xs|, i requires 0 <= i < |xs| => xs[i].v)
  }

  /** numpy's mean of a list of floats: NaN when the list is empty or holds a NaN. */
  function MeanF(xs: seq<Float>): (r: Float)
    ensures r.Value? <==> |xs| > 0 && AllValues(xs)
  {
    if |xs| == 0 || !AllValues(xs) then NaN else Value(Mean(ValuesOf(xs)))
  }

  lemma MeanFInUnit(xs: seq<Float>)
    requires |xs| > 0 && AllValues(xs)
    requires forall i :: 0 <= i < |xs| ==> InUnit(xs[i].v)
    ensures MeanF(xs).Value? && InUnit(MeanF(xs).v)
  {
    MeanInUnit(ValuesOf(xs));
  }

  lemma MeanFSingleton(x: Float)
    ensures MeanF([x]) == x
  {
    if x.Value? {
      assert ValuesOf([x]) == [x.v];
      MeanSingleton(x.v);
    }
  }

  /** Number of positions (of the common prefix) where the two sequences agree. */
  function Matches<T(==)>(a: seq<T>, b: seq<T>): (m: nat)
    requires |a| == |b|
    ensures m <= |a|
    ensures m == |a| <==> a == b
  {
    if |a| == 0 then 0
    else
      var rest := Matches(a[..|a| - 1], b[..|b| - 1]);
      assert a == b <==> a[..|a| - 1] == b[..|b| - 1] && a[|a| - 1] == b[|b| - 1] by {
        assert a == a[..|a| - 1] + [a[|a| - 1]];
        assert b == b[..|b| - 1] + [b[|b| - 1]];
      }
      rest + (if a[|a| - 1] == b[|b| - 1] then 1 else 0)
  }

  /** Number of positions where the two sequences differ. */
  function Mismatches<T(==)>(a: seq<T>, b: seq<T>): (m: nat)
    requires |a| == |b|
  {
    if |a| == 0 then 0
    else Mismatches(a[..|a| - 1], b[..|b| - 1]) + (if a[|a| - 1] != b[|b| - 1] then 1 else 0)
  }

  lemma {:induction false} MatchesPlusMismatches<T>(a: seq<T>, b: seq<T>)
    requires |a| == |b|
    ensures Matches(a, b) + Mismatches(a, b) == |a|
  {
    if |a| > 0 {
      MatchesPlusMismatches(a[..|a| - 1], b[..|b| - 1]);
    }
  }

  /** numpy's mean(a == b) on two element-wise arrays: the fraction of agreeing
      positions, NaN for empty arrays. */
  function MatchRate<T(==)>(a: seq<T>, b: seq<T>): (r: Float)
    requires |a| == |b|
    ensures r.NaN? <==> |a| == 0
    ensures r.Value? ==> InUnit(r.v)
    ensures r.Value? ==> (r.v == 1.0 <==> a == b)
  {
    if |a| == 0 then NaN
    else
      var n := |a| as real;
      var m := Matches(a, b) as real;
      Fraction(m, n, m / n);
      Value(m / n)
  }
}
