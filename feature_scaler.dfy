/** Feature scaling of a data frame: min-max normalisation or z-score
    standardisation of every column not excluded, on a copy of the table. */
module FeatureScaler {
  import opened Common

  const NormalizeStrategy: string := "normalize"
  const StandardizeStrategy: string := "standardize"
  const InvalidStrategyMessage: string := "Strategia non valida. Scegli tra 'normalize' o 'standardize'."

  /** A data frame stored column by column: the column names and, for each, its values. */
  datatype Table<T> = Table(names: seq<string>, columns: seq<seq<T>>)

  /** One column per name, all of the same length. */
  predicate WellFormed<T>(t: Table<T>)
  {
    && |t.names| == |t.columns|
    && forall j, l :: 0 <= j < |t.columns| && 0 <= l < |t.columns| ==> |t.columns[j]| == |t.columns[l]|
  }

  /** The names of data.columns that are not in exclude_columns, in table order. */
  function ColumnsToScale(names: seq<string>, exclude: seq<string>): (r: seq<string>)
    ensures |r| <= |names|
    ensures forall x :: x in r <==> x in names && x !in exclude
  {
    if |names| == 0 then []
    else
      var init := ColumnsToScale(names[..|names| - 1], exclude);
      var last := names[|names| - 1];
      assert names == names[..|names| - 1] + [last];
      if last in exclude then init else init + [last]
  }

  /** Each name that is not excluded is scaled as often as the table lists it,
      in the table's order: the names to scale of a longer table extend those of
      its prefix. */
  lemma {:induction false} ColumnsToScaleKeepsNames(names: seq<string>, exclude: seq<string>)
    ensures forall x :: x !in exclude ==> multiset(ColumnsToScale(names, exclude))[x] == multiset(names)[x]
    ensures forall m :: 0 <= m <= |names| ==> ColumnsToScale(names[..m], exclude) <= ColumnsToScale(names, exclude)
  {
    if |names| > 0 {
      var init := names[..|names| - 1];
      ColumnsToScaleKeepsNames(init, exclude);
      assert names == init + [names[|names| - 1]];
      forall m | 0 <= m <= |names|
        ensures ColumnsToScale(names[..m], exclude) <= ColumnsToScale(names, exclude)
      {
        if m < |names| {
          assert names[..m] == init[..m];
        } else {
          assert names[..m] == names;
        }
      }
    }
  }

  /** A column of numbers as floats, unchanged. */
  function Lift(xs: seq<real>): (r: seq<Float>)
    ensures |r| == |xs| && forall i :: 0 <= i < |xs| ==> r[i] == Value(xs[i])
  {
    seq(|xs|, i requires 0 <= i < |xs| => Value(xs[i]))
  }

  /** Series.min() of a non-empty column. */
  function MinOf(xs: seq<real>): (m: real)
    requires |xs| > 0
    ensures m in xs && forall i :: 0 <= i < |xs| ==> m <= xs[i]
  {
    if |xs| == 1 then xs[0]
    else
      var init := MinOf(xs[..|xs| - 1]);
      var last := xs[|xs| - 1];
      assert forall i :: 0 <= i < |xs| - 1 ==> xs[..|xs| - 1][i] == xs[i];
      if last < init then last else init
  }

  /** Series.max() of a non-empty column. */
  function MaxOf(xs: seq<real>): (m: real)
    requires |xs| > 0
    ensures m in xs && forall i :: 0 <= i < |xs| ==> xs[i] <= m
  {
    if |xs| == 1 then xs[0]
    else
      var init := MaxOf(xs[..|xs| - 1]);
      var last := xs[|xs| - 1];
      assert forall i :: 0 <= i < |xs| - 1 ==> xs[..|xs| - 1][i] == xs[i];
      if last > init then last else init
  }

  /** (v - min) / (max - min) for every value; a constant column divides 0 by 0
      and yields NaN throughout. */
  function NormalizeColumn(xs: seq<real>): (r: seq<Float>)
    ensures |r| == |xs|
  {
    if |xs| == 0 then []
    else
      var lo, hi := MinOf(xs), MaxOf(xs);
      seq(|xs|, i requires 0 <= i < |xs| => MinMax(xs[i], lo, hi))
  }

  /** (x - lo) / (hi - lo), NaN when hi is lo. */
  function MinMax(x: real, lo: real, hi: real): (r: Float)
    requires lo <= hi
    ensures r.Value? <==> hi > lo
    ensures hi > lo && lo <= x <= hi ==>
      InUnit(r.v) && (r.v == 0.0 <==> x == lo) && (r.v == 1.0 <==> x == hi)
  {
    if hi > lo then
      var q := (x - lo) / (hi - lo);
      MinMaxScaled(x, lo, hi, q);
      Value(q)
    else NaN
  }

  /** On a column that is not constant every normalised value lies in [0, 1]; it is
      0 exactly at the minimum and 1 exactly at the maximum. On a constant column
      every value is NaN. */
  lemma NormalizeBounds(xs: seq<real>)
    requires |xs| > 0
    ensures var r, lo, hi := NormalizeColumn(xs), MinOf(xs), MaxOf(xs);
      && (hi > lo ==> forall i :: 0 <= i < |xs| ==>
            && r[i].Value? && InUnit(r[i].v)
            && (r[i].v == 0.0 <==> xs[i] == lo)
            && (r[i].v == 1.0 <==> xs[i] == hi))
      && (hi == lo ==> forall i :: 0 <= i < |xs| ==> r[i] == NaN)
  {
    var r, lo, hi := NormalizeColumn(xs), MinOf(xs), MaxOf(xs);
    if hi > lo {
      forall i | 0 <= i < |xs|
        ensures r[i].Value? && InUnit(r[i].v)
        ensures r[i].v == 0.0 <==> xs[i] == lo
        ensures r[i].v == 1.0 <==> xs[i] == hi
      {
        NormalizeAt(xs, i);
      }
    }
  }

  lemma NormalizeAt(xs: seq<real>, i: nat)
    requires i < |xs| && MinOf(xs) < MaxOf(xs)
    ensures var r, lo, hi := NormalizeColumn(xs), MinOf(xs), MaxOf(xs);
      && r[i].Value? && InUnit(r[i].v)
      && (r[i].v == 0.0 <==> xs[i] == lo)
      && (r[i].v == 1.0 <==> xs[i] == hi)
  {
    var lo, hi := MinOf(xs), MaxOf(xs);
    assert lo <= xs[i] <= hi;
    assert NormalizeColumn(xs)[i] == MinMax(xs[i], lo, hi);
  }

  /** One value of [lo, hi] scaled into [0, 1]. */
  lemma MinMaxScaled(x: real, lo: real, hi: real, q: real)
    requires lo < hi && q == (x - lo) / (hi - lo)
    ensures lo <= x <= hi ==> InUnit(q) && (q == 0.0 <==> x == lo) && (q == 1.0 <==> x == hi)
  {
    if lo <= x <= hi {
      Fraction(x - lo, hi - lo, q);
      if q == 0.0 {
        assert x - lo == q * (hi - lo);
      }
    }
  }

  /** The squared deviations from the mean. */
  function SquaredDeviations(xs: seq<real>): (d: seq<real>)
    requires |xs| > 0
    ensures |d| == |xs|
  {
    var m := Mean(xs);
    seq(|xs|, i requires 0 <= i < |xs| => (xs[i] - m) * (xs[i] - m))
  }

  /** Series.std(): the sample standard deviation (n - 1 in the denominator), with
      the square root given as a parameter; NaN for fewer than two values. */
  function StdOf(xs: seq<real>, root: real -> real): Float
  {
    if |xs| < 2 then NaN
    else Value(root(Sum(SquaredDeviations(xs)) / ((|xs| - 1) as real)))
  }

  /** The sample variance the standard deviation is the root of. */
  function Variance(xs: seq<real>): real
    requires |xs| >= 2
  {
    Sum(SquaredDeviations(xs)) / ((|xs| - 1) as real)
  }

  /** (x - m) / s for every value x. */
  function ZScores(xs: seq<real>, m: real, s: real): (z: seq<real>)
    requires s != 0.0
    ensures |z| == |xs|
  {
    seq(|xs|, i requires 0 <= i < |xs| => ZScore(xs[i], m, s))
  }

  function ZScore(x: real, m: real, s: real): real
    requires s != 0.0
  {
    (x - m) / s
  }

  /** (v - mean) / std for every value; a NaN or zero deviation yields NaN
      throughout (with a true square root a zero deviation means every value is
      the mean, so each entry is 0 / 0). */
  function StandardizeColumn(xs: seq<real>, root: real -> real): (r: seq<Float>)
    ensures |r| == |xs|
    ensures StdOf(xs, root).NaN? || StdOf(xs, root).v == 0.0 ==> forall i :: 0 <= i < |xs| ==> r[i] == NaN
    ensures StdOf(xs, root).Value? && StdOf(xs, root).v != 0.0 ==>
      r == Lift(ZScores(xs, Mean(xs), StdOf(xs, root).v))
  {
    var s := StdOf(xs, root);
    if s.NaN? || s.v == 0.0 then seq(|xs|, i requires 0 <= i < |xs| => NaN)
    else Lift(ZScores(xs, Mean(xs), s.v))
  }

  /** (x - m) / s as a linear combination of x and 1. */
  lemma ShiftScale(x: real, m: real, s: real, z: real)
    requires s != 0.0 && z == ZScore(x, m, s)
    ensures z == (1.0 / s) * x + (-m / s) * 1.0
  {
  }

  /** n values with mean m, shifted by m and scaled by 1 / s, sum to 0. */
  lemma CenteredSum(total: real, n: real, m: real, s: real, sum: real)
    requires n > 0.0 && s != 0.0 && m == total / n
    requires sum == (1.0 / s) * total + (-m / s) * (n * 1.0)
    ensures sum == 0.0
  {
    Fraction(total, n, m);
    assert sum == (1.0 / s) * (m * n) + (-m / s) * n;
  }

  /** Z-scores taken about the column's own mean sum to 0, whatever the (non-zero)
      deviation, so a standardised column has mean 0. */
  lemma ZScoresSumToZero(xs: seq<real>, s: real)
    requires |xs| > 0 && s != 0.0
    ensures Sum(ZScores(xs, Mean(xs), s)) == 0.0
  {
    var m := Mean(xs);
    var z := ZScores(xs, m, s);
    var ones := seq(|xs|, i requires 0 <= i < |xs| => 1.0);
    ZScoresLinear(xs, m, s, ones);
    SumPointwise(xs, ones, z, 1.0 / s, -m / s);
    SumConstant(ones, 1.0);
    CenteredSum(Sum(xs), |xs| as real, m, s, Sum(z));
  }

  lemma ZScoresLinear(xs: seq<real>, m: real, s: real, ones: seq<real>)
    requires s != 0.0 && |ones| == |xs| && forall i :: 0 <= i < |ones| ==> ones[i] == 1.0
    ensures forall i :: 0 <= i < |xs| ==> ZScores(xs, m, s)[i] == (1.0 / s) * xs[i] + (-m / s) * ones[i]
  {
    forall i | 0 <= i < |xs| ensures ZScores(xs, m, s)[i] == (1.0 / s) * xs[i] + (-m / s) * ones[i] {
      ShiftScale(xs[i], m, s, ZScores(xs, m, s)[i]);
    }
  }

  function Squares(z: seq<real>): (q: seq<real>)
    ensures |q| == |z|
  {
    seq(|z|, i requires 0 <= i < |z| => z[i] * z[i])
  }

  /** ((x - m) / s)^2 is (x - m)^2 scaled by c, the inverse of s^2. */
  lemma ScaledSquare(d: real, s: real, c: real, z: real)
    requires s != 0.0 && c * (s * s) == 1.0 && z == d / s
    ensures z * z == c * (d * d)
  {
    assert z * s == d;
    assert c * (d * d) == c * ((z * s) * (z * s)) == (c * (s * s)) * (z * z);
  }

  /** The squared z-scores sum to the squared deviations scaled by the inverse of s^2. */
  lemma ZScoreSquaresSum(xs: seq<real>, s: real, c: real)
    requires |xs| > 0 && s != 0.0 && c * (s * s) == 1.0
    ensures Sum(Squares(ZScores(xs, Mean(xs), s))) == c * Sum(SquaredDeviations(xs))
  {
    var sq, dev := Squares(ZScores(xs, Mean(xs), s)), SquaredDeviations(xs);
    forall i | 0 <= i < |xs| ensures sq[i] == c * dev[i] {
      ScaledSquareAt(xs, s, c, i);
    }
    SumScaled(dev, sq, c);
  }

  lemma ScaledSquareAt(xs: seq<real>, s: real, c: real, i: nat)
    requires i < |xs| && s != 0.0 && c * (s * s) == 1.0
    ensures Squares(ZScores(xs, Mean(xs), s))[i] == c * SquaredDeviations(xs)[i]
  {
    var m := Mean(xs);
    ScaledSquare(xs[i] - m, s, c, ZScore(xs[i], m, s));
    assert SquaredDeviations(xs)[i] == (xs[i] - m) * (xs[i] - m);
  }

  /** A total of squares ss scaled by the inverse c of s^2, where s^2 is ss / n1, gives n1. */
  lemma UnitRatio(total: real, ss: real, s: real, c: real, n1: real)
    requires n1 > 0.0 && c * (s * s) == 1.0 && s * s == ss / n1 && total == c * ss
    ensures total == n1
  {
    var v := s * s;
    Fraction(ss, n1, v);
    assert total == c * (v * n1) == (c * v) * n1;
  }

  lemma Inverse(v: real, c: real)
    requires v != 0.0 && c == 1.0 / v
    ensures c * v == 1.0
  {
  }

  /** Divided by a true square root of the sample variance, the z-scores have
      sample variance 1: their squares sum to n - 1. */
  lemma ZScoresUnitVariance(xs: seq<real>, s: real)
    requires |xs| >= 2 && s != 0.0 && s * s == Variance(xs)
    ensures Sum(Squares(ZScores(xs, Mean(xs), s))) == (|xs| - 1) as real
  {
    var v := s * s;
    SquarePositive(s, v);
    var c := 1.0 / v;
    Inverse(v, c);
    ZScoreSquaresSum(xs, s, c);
    UnitRatio(Sum(Squares(ZScores(xs, Mean(xs), s))), Sum(SquaredDeviations(xs)), s, c, (|xs| - 1) as real);
  }

  /** The frame after data.copy() and the reassignment of every column whose name
      survives the exclusion list: excluded columns keep their values, the others
      are replaced by their scaled version. */
  function ScaledTable(data: Table<real>, exclude: seq<string>, scale: seq<real> -> seq<Float>): (r: Table<Float>)
    requires |data.names| == |data.columns|
    ensures r.names == data.names && |r.columns| == |data.columns|
  {
    Table(data.names, seq(|data.columns|, j requires 0 <= j < |data.columns| =>
      if data.names[j] in exclude then Lift(data.columns[j]) else scale(data.columns[j])))
  }

  function LiftColumns(columns: seq<seq<real>>): (r: seq<seq<Float>>)
    ensures |r| == |columns| && forall j :: 0 <= j < |columns| ==> r[j] == Lift(columns[j])
  {
    seq(|columns|, j requires 0 <= j < |columns| => Lift(columns[j]))
  }

  /** The loop both scalers share: copy the frame, then overwrite, name by name in
      the order of the columns to scale, every column carrying that name with the
      scaled original column. */
  method ScaleColumns(data: Table<real>, exclude: seq<string>, scale: seq<real> -> seq<Float>)
    returns (scaled: Table<Float>)
    requires |data.names| == |data.columns|
    ensures scaled == ScaledTable(data, exclude, scale)
  {
    var toScale := ColumnsToScale(data.names, exclude);
    scaled := Table(data.names, LiftColumns(data.columns));
    for t := 0 to |toScale|
      invariant scaled.names == data.names && |scaled.columns| == |data.columns|
      invariant forall j :: 0 <= j < |data.columns| ==>
        scaled.columns[j] == if data.names[j] in toScale[..t] then scale(data.columns[j]) else Lift(data.columns[j])
    {
      var column := toScale[t];
      var current := scaled.columns;
      assert toScale[..t + 1] == toScale[..t] + [column];
      scaled := scaled.(columns := seq(|current|, j requires 0 <= j < |current| =>
        if data.names[j] == column then scale(data.columns[j]) else current[j]));
    }
    assert toScale[..|toScale|] == toScale;
  }

  /** FeatureScaler.normalize */
  method Normalize(data: Table<real>, exclude: seq<string>) returns (scaled: Table<Float>)
    requires |data.names| == |data.columns|
    ensures scaled == ScaledTable(data, exclude, NormalizeColumn)
  {
    scaled := ScaleColumns(data, exclude, NormalizeColumn);
  }

  /** FeatureScaler.standardize, with the square root of Series.std() as a parameter. */
  method Standardize(data: Table<real>, exclude: seq<string>, root: real -> real) returns (scaled: Table<Float>)
    requires |data.names| == |data.columns|
    ensures scaled == ScaledTable(data, exclude, xs => StandardizeColumn(xs, root))
  {
    scaled := ScaleColumns(data, exclude, xs => StandardizeColumn(xs, root));
  }

  /** FeatureScalerStrategyManager.scale_features: dispatch on the strategy name. */
  method ScaleFeatures(strategy: string, data: Table<real>, exclude: seq<string>, root: real -> real)
    returns (r: Result<Table<Float>>)
    requires |data.names| == |data.columns|
    ensures strategy == NormalizeStrategy ==> r == Ok(ScaledTable(data, exclude, NormalizeColumn))
    ensures strategy == StandardizeStrategy ==>
      r == Ok(ScaledTable(data, exclude, xs => StandardizeColumn(xs, root)))
    ensures strategy != NormalizeStrategy && strategy != StandardizeStrategy ==>
      r == Err(ValueError(InvalidStrategyMessage))
  {
    if strategy == NormalizeStrategy {
      var scaled := Normalize(data, exclude);
      r := Ok(scaled);
    } else if strategy == StandardizeStrategy {
      var scaled := Standardize(data, exclude, root);
      r := Ok(scaled);
    } else {
      r := Err(ValueError(InvalidStrategyMessage));
    }
  }

  /** After normalisation the frame keeps its shape, every excluded column is
      unchanged, and every other column that is not constant lies in [0, 1] with
      its minimum at 0 and its maximum at 1. */
  lemma NormalizedTable(data: Table<real>, exclude: seq<string>)
    requires WellFormed(data)
    ensures var r := ScaledTable(data, exclude, NormalizeColumn);
      && WellFormed(r)
      && forall j :: 0 <= j < |data.columns| ==>
        if data.names[j] in exclude then r.columns[j] == Lift(data.columns[j])
        else |data.columns[j]| > 0 && MinOf(data.columns[j]) < MaxOf(data.columns[j]) ==>
          forall i :: 0 <= i < |data.columns[j]| ==>
            && r.columns[j][i].Value? && InUnit(r.columns[j][i].v)
            && (r.columns[j][i].v == 0.0 <==> data.columns[j][i] == MinOf(data.columns[j]))
            && (r.columns[j][i].v == 1.0 <==> data.columns[j][i] == MaxOf(data.columns[j]))
  {
    var r := ScaledTable(data, exclude, NormalizeColumn);
    forall j | 0 <= j < |data.columns|
      ensures |r.columns[j]| == |data.columns[j]|
      ensures data.names[j] !in exclude ==> r.columns[j] == NormalizeColumn(data.columns[j])
      ensures data.names[j] !in exclude && |data.columns[j]| > 0 ==>
        var xs, lo, hi := data.columns[j], MinOf(data.columns[j]), MaxOf(data.columns[j]);
        hi > lo ==> forall i :: 0 <= i < |xs| ==>
          && r.columns[j][i].Value? && InUnit(r.columns[j][i].v)
          && (r.columns[j][i].v == 0.0 <==> xs[i] == lo)
          && (r.columns[j][i].v == 1.0 <==> xs[i] == hi)
    {
      var xs := data.columns[j];
      assert r.columns[j] == if data.names[j] in exclude then Lift(xs) else NormalizeColumn(xs);
      if data.names[j] !in exclude && |data.columns[j]| > 0 {
        NormalizeBounds(data.columns[j]);
      }
    }
  }

  /** After standardisation every excluded column is unchanged, and every other
      column whose deviation is a non-zero true square root of its sample variance
      holds z-scores that sum to 0 and whose squares sum to n - 1 (mean 0,
      standard deviation 1). */
  lemma StandardizedTable(data: Table<real>, exclude: seq<string>, root: real -> real)
    requires WellFormed(data)
    ensures var r := ScaledTable(data, exclude, xs => StandardizeColumn(xs, root));
      forall j :: 0 <= j < |data.columns| ==>
        if data.names[j] in exclude then r.columns[j] == Lift(data.columns[j])
        else
          var xs := data.columns[j];
          |xs| >= 2 && root(Variance(xs)) != 0.0 && root(Variance(xs)) * root(Variance(xs)) == Variance(xs) ==>
            && r.columns[j] == Lift(ZScores(xs, Mean(xs), root(Variance(xs))))
            && Sum(ZScores(xs, Mean(xs), root(Variance(xs)))) == 0.0
            && Sum(Squares(ZScores(xs, Mean(xs), root(Variance(xs))))) == (|xs| - 1) as real
  {
    forall j | 0 <= j < |data.columns| && data.names[j] !in exclude
      && |data.columns[j]| >= 2 && root(Variance(data.columns[j])) != 0.0
      && root(Variance(data.columns[j])) * root(Variance(data.columns[j])) == Variance(data.columns[j])
      ensures Sum(ZScores(data.columns[j], Mean(data.columns[j]), root(Variance(data.columns[j])))) == 0.0
      ensures Sum(Squares(ZScores(data.columns[j], Mean(data.columns[j]), root(Variance(data.columns[j]))))) ==
        (|data.columns[j]| - 1) as real
    {
      ZScoresSumToZero(data.columns[j], root(Variance(data.columns[j])));
      ZScoresUnitVariance(data.columns[j], root(Variance(data.columns[j])));
    }
  }

  /** Column A of the scaler's test frame, [10, 20, 30, 40], normalises to
      [0, 1/3, 2/3, 1]. */
  lemma ExampleNormalizeA()
    ensures NormalizeColumn([10.0, 20.0, 30.0, 40.0]) ==
      [Value(0.0), Value(1.0 / 3.0), Value(2.0 / 3.0), Value(1.0)]
  {
    var xs := [10.0, 20.0, 30.0, 40.0];
    assert MinOf(xs) == 10.0 by {
      assert xs[..3] == [10.0, 20.0, 30.0] && xs[..3][..2] == [10.0, 20.0] && xs[..3][..2][..1] == [10.0];
    }
    assert MaxOf(xs) == 40.0 by {
      assert xs[..3] == [10.0, 20.0, 30.0] && xs[..3][..2] == [10.0, 20.0] && xs[..3][..2][..1] == [10.0];
    }
  }
}
