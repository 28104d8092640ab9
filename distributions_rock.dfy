/**
 * The tabulation cache of a rock distribution: the trend mesh, the Monte-Carlo
 * expectation and covariance per mesh cell, their bilinear lookup, and the
 * chaining of samples along a well log.
 *
 * `double` is modelled as `real` and `floor` as `.Floor`. A rock model's
 * random generation is an abstract pair of functions that take, besides their
 * C++ arguments, the position of the random stream at the call.
 */
module RockTabulation {

  /** Draws generated per mesh cell (`n` in SetupExpectationAndCovariances). */
  const DrawsPerCell: nat := 1024
  /** Tabulated values per trend axis (`m` in SetupExpectationAndCovariances). */
  const MeshSize: nat := 10

  datatype SeismicParams = SeismicParams(vp: real, vs: real, rho: real)

  /** A generated rock: its seismic parameters and the uniforms behind them. */
  datatype RockSample = RockSample(params: SeismicParams, u: seq<real>)

  /**
   * The virtual sampling interface of a rock distribution. `generate(trend, k)`
   * is GenerateSample(trend) and `update(corr, isTime, trend, prior, k)` is
   * UpdateSample(corr, isTime, trend, prior), both made when the random stream
   * is at position k.
   */
  datatype RockModel = RockModel(
    generate: (seq<real>, nat) -> RockSample,
    update: (real, bool, seq<real>, RockSample, nat) -> RockSample)

  //------------------------------------------------------------------------
  // Trend axes
  //------------------------------------------------------------------------

  /**
   * `s` holds what SampleTrendValues writes into a vector of |s| elements for
   * the range [lo, hi]: the last element is hi, the first is lo (unless it is
   * also the last), and interior element i is lo + ((hi - lo)/|s|)·(i - 1).
   */
  predicate SampledAxis(s: seq<real>, lo: real, hi: real)
  {
    && |s| >= 1
    && s[|s| - 1] == hi
    && (|s| >= 2 ==> s[0] == lo)
    && forall i :: 1 <= i < |s| - 1 ==> s[i] == lo + ((hi - lo) / (|s| as real)) * ((i - 1) as real)
  }

  /** std::vector::resize: keeps the first elements and pads with zeros. */
  function Resize(s: seq<real>, m: nat): (r: seq<real>)
    ensures |r| == m
    ensures forall i :: 0 <= i < |s| && i < m ==> r[i] == s[i]
    ensures forall i :: |s| <= i < m ==> r[i] == 0.0
  {
    if |s| >= m then s[..m] else s + seq(m - |s|, _ => 0.0)
  }

  /**
   * SampleTrendValues on a vector of n elements. Every element is overwritten,
   * so the vector is modelled by its size.
   */
  method SampleTrendValues(n: nat, sMin: real, sMax: real) returns (s: seq<real>)
    requires n >= 1
    ensures |s| == n && SampledAxis(s, sMin, sMax)
  {
    var a := new real[n];
    var step := (sMax - sMin) / (n as real);
    a[0] := sMin;
    a[n - 1] := sMax;
    var i := 1;
    while i < n - 1
      invariant 1 <= i && (n >= 2 ==> i <= n - 1)
      invariant n >= 2 ==> a[0] == sMin
      invariant a[n - 1] == sMax
      invariant forall k :: 1 <= k < i && k < n - 1 ==> a[k] == sMin + step * ((k - 1) as real)
    {
      a[i] := sMin + step * ((i - 1) as real);
      i := i + 1;
    }
    s := a[..];
  }

  /** On three or more samples the first interval is empty: s[1] == s[0] == lo. */
  lemma SampledAxisRepeatsFirst(s: seq<real>, lo: real, hi: real)
    requires SampledAxis(s, lo, hi) && |s| >= 3
    ensures s[1] == lo && s[0] == lo
  {
  }

  /**
   * Interior samples are nondecreasing from lo and, when the range is proper,
   * stay strictly below hi.
   */
  lemma SampledAxisInterior(s: seq<real>, lo: real, hi: real, i: nat, j: nat)
    requires SampledAxis(s, lo, hi) && lo <= hi
    requires 1 <= i <= j < |s| - 1
    ensures lo <= s[i] <= s[j]
    ensures lo < hi ==> s[j] < hi
  {
    var n := |s| as real;
    var step := (hi - lo) / n;
    assert step >= 0.0;
    var di := (i - 1) as real;
    var dj := (j - 1) as real;
    assert s[i] == lo + step * di && s[j] == lo + step * dj;
    assert 0.0 <= di <= dj;
    assert step * di <= step * dj by {
      assert step * dj - step * di == step * (dj - di);
    }
    assert 0.0 <= step * di;
    if lo < hi {
      assert dj < n;
      assert step * n == hi - lo;
      assert step * dj < step * n by {
        assert step * n - step * dj == step * (n - dj);
        assert step > 0.0 && n - dj > 0.0;
      }
    }
  }

  /**
   * FindTabulatedTrendParams: sample the axes the model has a trend on and
   * collapse the others to [0.0]. With a trend on the second axis only, the
   * first axis is sampled over the second axis' bounds and then overwritten,
   * and the second vector is left as it was.
   */
  method FindTabulatedTrendParams(s0: seq<real>, s1: seq<real>, hasTrend: seq<bool>,
                                  sMin: seq<real>, sMax: seq<real>)
    returns (t0: seq<real>, t1: seq<real>)
    requires |hasTrend| >= 2
    requires hasTrend[0] ==> |sMin| >= 1 && |sMax| >= 1
    requires hasTrend[1] ==> |sMin| >= 2 && |sMax| >= 2
    requires hasTrend[0] || hasTrend[1] ==> |s0| >= 1
    requires hasTrend[0] && hasTrend[1] ==> |s1| >= 1
    ensures hasTrend[0] && hasTrend[1] ==>
      |t0| == |s0| && SampledAxis(t0, sMin[0], sMax[0]) && |t1| == |s1| && SampledAxis(t1, sMin[1], sMax[1])
    ensures hasTrend[0] && !hasTrend[1] ==> |t0| == |s0| && SampledAxis(t0, sMin[0], sMax[0]) && t1 == [0.0]
    ensures !hasTrend[0] && hasTrend[1] ==> t0 == [0.0] && t1 == s1
    ensures !hasTrend[0] && !hasTrend[1] ==> t0 == [0.0] && t1 == [0.0]
  {
    var t1Used := hasTrend[0];
    var t2Used := hasTrend[1];
    var noTrend := [0.0];
    t0, t1 := s0, s1;
    if t1Used && !t2Used {
      t0 := SampleTrendValues(|t0|, sMin[0], sMax[0]);
      t1 := noTrend;
    } else if !t1Used && t2Used {
      t0 := SampleTrendValues(|t0|, sMin[1], sMax[1]);
      t0 := noTrend;
    } else if t1Used && t2Used {
      t0 := SampleTrendValues(|t0|, sMin[0], sMax[0]);
      t1 := SampleTrendValues(|t1|, sMin[1], sMax[1]);
    } else {
      t0 := noTrend;
      t1 := noTrend;
    }
  }

  /** SetupTrendMesh: a |t1| x |t2| grid whose cell (i, j) is the trend point [t1[i], t2[j]]. */
  method SetupTrendMesh(t1: seq<real>, t2: seq<real>) returns (mesh: seq<seq<seq<real>>>)
    ensures |mesh| == |t1|
    ensures forall i :: 0 <= i < |t1| ==> |mesh[i]| == |t2|
    ensures forall i, j :: 0 <= i < |t1| && 0 <= j < |t2| ==> mesh[i][j] == [t1[i], t2[j]]
  {
    mesh := [];
    var i := 0;
    while i < |t1|
      invariant 0 <= i <= |t1| && |mesh| == i
      invariant forall a :: 0 <= a < i ==> |mesh[a]| == |t2|
      invariant forall a, b :: 0 <= a < i && 0 <= b < |t2| ==> mesh[a][b] == [t1[a], t2[b]]
    {
      var row: seq<seq<real>> := [];
      var j := 0;
      while j < |t2|
        invariant 0 <= j <= |t2| && |row| == j
        invariant forall b :: 0 <= b < j ==> row[b] == [t1[i], t2[b]]
      {
        row := row + [[t1[i], t2[j]]];
        j := j + 1;
      }
      mesh := mesh + [row];
      i := i + 1;
    }
  }

  //------------------------------------------------------------------------
  // Sample statistics
  //------------------------------------------------------------------------

  function Sum(p: seq<real>): real
  {
    if |p| == 0 then 0.0 else Sum(p[..|p| - 1]) + p[|p| - 1]
  }

  function Mean(p: seq<real>): real
    requires |p| > 0
  {
    Sum(p) / (|p| as real)
  }

  /** The sum of the products of deviations, Σ (p[i] - mp)·(q[i] - mq). */
  function CrossSum(p: seq<real>, mp: real, q: seq<real>, mq: real): real
    requires |p| == |q|
  {
    if |p| == 0 then 0.0
    else CrossSum(p[..|p| - 1], mp, q[..|q| - 1], mq) + (p[|p| - 1] - mp) * (q[|q| - 1] - mq)
  }

  /** The covariance estimate of FindCovariance: divided by n - 1 only when n > 1. */
  function SampleCovariance(p: seq<real>, mp: real, q: seq<real>, mq: real): real
    requires |p| == |q|
  {
    var s := CrossSum(p, mp, q, mq);
    if |p| > 1 then s / ((|p| - 1) as real) else s
  }

  /** FindExpectation: the arithmetic mean of the draws. */
  method FindExpectation(p: seq<real>) returns (mean: real)
    requires |p| > 0
    ensures mean == Mean(p)
  {
    var n := |p|;
    mean := 0.0;
    var i := 0;
    while i < n
      invariant 0 <= i <= n
      invariant mean == Sum(p[..i])
    {
      assert p[..i + 1][..i] == p[..i];
      mean := mean + p[i];
      i := i + 1;
    }
    assert p[..n] == p;
    mean := mean / (n as real);
  }

  /** FindCovariance: the unbiased covariance estimate of p and q about the given means. */
  method FindCovariance(p: seq<real>, mup: real, q: seq<real>, muq: real) returns (cov: real)
    requires |p| <= |q|
    ensures cov == SampleCovariance(p, mup, q[..|p|], muq)
  {
    var n := |p|;
    cov := 0.0;
    var i := 0;
    while i < n
      invariant 0 <= i <= n
      invariant cov == CrossSum(p[..i], mup, q[..i], muq)
    {
      assert p[..i + 1][..i] == p[..i];
      assert q[..i + 1][..i] == q[..i];
      cov := cov + (p[i] - mup) * (q[i] - muq);
      i := i + 1;
    }
    assert p[..n] == p;
    if n > 1 {
      cov := cov / ((n - 1) as real);
    }
  }

  /** The cross sum does not depend on the order of its two series. */
  lemma {:induction false} CrossSumSymmetric(p: seq<real>, mp: real, q: seq<real>, mq: real)
    requires |p| == |q|
    ensures CrossSum(p, mp, q, mq) == CrossSum(q, mq, p, mp)
  {
    if |p| > 0 {
      CrossSumSymmetric(p[..|p| - 1], mp, q[..|q| - 1], mq);
    }
  }

  /** A series' cross sum with itself (n - 1 times its variance) is never negative. */
  lemma {:induction false} CrossSumSelfNonNegative(p: seq<real>, m: real)
    ensures CrossSum(p, m, p, m) >= 0.0
  {
    if |p| > 0 {
      CrossSumSelfNonNegative(p[..|p| - 1], m);
      var d := p[|p| - 1] - m;
      assert d * d >= 0.0;
    }
  }

  /** The covariance estimate is symmetric, and the variance estimate is nonnegative. */
  lemma SampleCovarianceSymmetric(p: seq<real>, mp: real, q: seq<real>, mq: real)
    requires |p| == |q|
    ensures SampleCovariance(p, mp, q, mq) == SampleCovariance(q, mq, p, mp)
    ensures SampleCovariance(p, mp, p, mp) >= 0.0
  {
    CrossSumSymmetric(p, mp, q, mq);
    CrossSumSelfNonNegative(p, mp);
  }

  function Centered(p: seq<real>, c: real): (r: seq<real>)
    ensures |r| == |p|
  {
    seq(|p|, i requires 0 <= i < |p| => p[i] - c)
  }

  /** Shifting every draw by c shifts their sum by n·c. */
  lemma {:induction false} SumCentered(p: seq<real>, c: real)
    ensures Sum(Centered(p, c)) == Sum(p) - (|p| as real) * c
  {
    if |p| > 0 {
      var n := |p|;
      assert Centered(p, c)[..n - 1] == Centered(p[..n - 1], c);
      SumCentered(p[..n - 1], c);
    }
  }

  /** The deviations of the draws from their mean sum to zero. */
  lemma DeviationsFromMeanSumToZero(p: seq<real>)
    requires |p| > 0
    ensures Sum(Centered(p, Mean(p))) == 0.0
  {
    SumCentered(p, Mean(p));
    var n := |p| as real;
    assert Mean(p) == Sum(p) / n;
    assert n * Mean(p) == Sum(p);
  }

  //------------------------------------------------------------------------
  // Mesh cell statistics
  //------------------------------------------------------------------------

  /** The `count` rocks drawn at trend point tp when the random stream starts at `first`. */
  function CellDraws(model: RockModel, tp: seq<real>, first: nat, count: nat): (ds: seq<SeismicParams>)
    ensures |ds| == count
  {
    seq(count, k requires 0 <= k < count => model.generate(tp, first + k).params)
  }

  /** One seismic parameter of every draw: 0 is vp, 1 is vs, 2 is density. */
  function Component(ds: seq<SeismicParams>, c: nat): (r: seq<real>)
    requires c < 3
    ensures |r| == |ds|
  {
    seq(|ds|, k requires 0 <= k < |ds| => if c == 0 then ds[k].vp else if c == 1 then ds[k].vs else ds[k].rho)
  }

  /** The per-component sample means of a cell's draws. */
  function CellExpectation(ds: seq<SeismicParams>): (m: seq<real>)
    requires |ds| > 0
    ensures |m| == 3
  {
    [Mean(Component(ds, 0)), Mean(Component(ds, 1)), Mean(Component(ds, 2))]
  }

  /** The 3x3 unbiased sample covariance matrix of a cell's draws. */
  function CellCovariance(ds: seq<SeismicParams>): (c: seq<seq<real>>)
    requires |ds| > 0
    ensures |c| == 3 && forall p :: 0 <= p < 3 ==> |c[p]| == 3
  {
    var m := CellExpectation(ds);
    seq(3, p requires 0 <= p < 3 =>
      seq(3, q requires 0 <= q < 3 => SampleCovariance(Component(ds, p), m[p], Component(ds, q), m[q])))
  }

  /** A cell's covariance matrix is symmetric with a nonnegative diagonal. */
  lemma CellCovarianceSymmetric(ds: seq<SeismicParams>)
    requires |ds| > 0
    ensures forall p, q :: 0 <= p < 3 && 0 <= q < 3 ==> CellCovariance(ds)[p][q] == CellCovariance(ds)[q][p]
    ensures forall p :: 0 <= p < 3 ==> CellCovariance(ds)[p][p] >= 0.0
  {
    var m := CellExpectation(ds);
    forall p, q | 0 <= p < 3 && 0 <= q < 3
      ensures CellCovariance(ds)[p][q] == CellCovariance(ds)[q][p]
      ensures CellCovariance(ds)[p][p] >= 0.0
    {
      SampleCovarianceSymmetric(Component(ds, p), m[p], Component(ds, q), m[q]);
    }
  }

  /** Position of the random stream when cell (i, j) starts drawing, relative to the start. */
  function CellStart(i: nat, j: nat): nat
  {
    (i * MeshSize + j) * DrawsPerCell
  }

  //------------------------------------------------------------------------
  // Bilinear lookup
  //------------------------------------------------------------------------

  /** An axis FindInterpolationStartIndex can measure: empty, or two distinct first values. */
  predicate AxisIndexable(t: seq<real>)
  {
    |t| == 0 || (|t| >= 2 && t[1] != t[0])
  }

  /**
   * FindInterpolationStartIndex: the trend value measured in units of the
   * first mesh interval, without subtracting the axis' first value.
   */
  function FindInterpolationStartIndex(t: seq<real>, s: real): (di: real)
    requires AxisIndexable(t)
    ensures |t| == 0 ==> di == 0.0
    ensures |t| >= 2 ==> di * (t[1] - t[0]) == s
  {
    if |t| > 0 then s / (t[1] - t[0]) else 0.0
  }

  /** A trend value i intervals from zero has start index exactly i. */
  lemma StartIndexOfGridPoint(t: seq<real>, i: nat)
    requires |t| >= 2 && AxisIndexable(t)
    ensures FindInterpolationStartIndex(t, (i as real) * (t[1] - t[0])) == i as real
  {
    var d := t[1] - t[0];
    var di := FindInterpolationStartIndex(t, (i as real) * d);
    assert (di - i as real) * d == 0.0;
  }

  /** A sampled axis of three or more values cannot be measured: its first interval is empty. */
  lemma SampledAxisNotIndexable(t: seq<real>, lo: real, hi: real)
    requires SampledAxis(t, lo, hi) && |t| >= 3
    ensures !AxisIndexable(t)
  {
    SampledAxisRepeatsFirst(t, lo, hi);
  }

  datatype Weights = Weights(w00: real, w10: real, w01: real, w11: real)

  function Frac(x: real): real
  {
    x - (x.Floor as real)
  }

  lemma UnitProduct(a: real, b: real)
    requires 0.0 <= a <= 1.0 && 0.0 <= b <= 1.0
    ensures 0.0 <= a * b <= 1.0
  {
    assert b - a * b == b * (1.0 - a);
    assert b * (1.0 - a) >= 0.0;
  }

  /**
   * FindInterpolationWeights: the bilinear weights of the point (u, v) in its
   * unit cell, u and v being the fractional parts of di and dj.
   */
  function FindInterpolationWeights(di: real, dj: real): (w: Weights)
    ensures 0.0 <= w.w00 <= 1.0 && 0.0 <= w.w10 <= 1.0 && 0.0 <= w.w01 <= 1.0 && 0.0 <= w.w11 <= 1.0
    ensures w.w00 + w.w10 + w.w01 + w.w11 == 1.0
    ensures w.w10 + w.w11 == Frac(di) && w.w01 + w.w11 == Frac(dj)
    ensures Frac(di) == 0.0 && Frac(dj) == 0.0 ==> w == Weights(1.0, 0.0, 0.0, 0.0)
  {
    var u := di - (di.Floor as real);
    var v := dj - (dj.Floor as real);
    UnitProduct(1.0 - u, 1.0 - v);
    UnitProduct(u, 1.0 - v);
    UnitProduct(1.0 - u, v);
    UnitProduct(u, v);
    Weights((1.0 - u) * (1.0 - v), u * (1.0 - v), (1.0 - u) * v, u * v)
  }

  function Blend(w: Weights, v00: real, v10: real, v01: real, v11: real): real
  {
    w.w00 * v00 + w.w10 * v10 + w.w01 * v01 + w.w11 * v11
  }

  /**
   * The cells the interpolation reads around (i0, j0) exist: the next row only
   * when the first axis is nonempty (m > 0), the next column only when the
   * second is (n > 0), as the guards of InterpolateExpectation decide.
   */
  predicate CellsReadable<T>(grid: seq<seq<T>>, i0: int, j0: int, m: nat, n: nat)
  {
    && 0 <= i0 < |grid| && 0 <= j0 < |grid[i0]|
    && (m > 0 ==> i0 + 1 < |grid| && j0 < |grid[i0 + 1]|)
    && (n > 0 ==> j0 + 1 < |grid[i0]|)
    && (m > 0 && n > 0 ==> j0 + 1 < |grid[i0 + 1]|)
  }

  /** The expectation cells the interpolation reads have three components. */
  predicate ExpectationReadable(grid: seq<seq<seq<real>>>, i0: int, j0: int, m: nat, n: nat)
  {
    && CellsReadable(grid, i0, j0, m, n)
    && |grid[i0][j0]| >= 3
    && (m > 0 ==> |grid[i0 + 1][j0]| >= 3)
    && (n > 0 ==> |grid[i0][j0 + 1]| >= 3)
    && (m > 0 && n > 0 ==> |grid[i0 + 1][j0 + 1]| >= 3)
  }

  predicate Is3x3(c: seq<seq<real>>)
  {
    |c| == 3 && |c[0]| == 3 && |c[1]| == 3 && |c[2]| == 3
  }

  predicate Symmetric3x3(c: seq<seq<real>>)
  {
    Is3x3(c) && forall p, q :: 0 <= p < 3 && 0 <= q < 3 ==> c[p][q] == c[q][p]
  }

  /** The covariance cells the interpolation reads are 3x3. */
  predicate CovarianceReadable(grid: seq<seq<seq<seq<real>>>>, i0: int, j0: int, m: nat, n: nat)
  {
    && CellsReadable(grid, i0, j0, m, n)
    && Is3x3(grid[i0][j0])
    && (m > 0 ==> Is3x3(grid[i0 + 1][j0]))
    && (n > 0 ==> Is3x3(grid[i0][j0 + 1]))
    && (m > 0 && n > 0 ==> Is3x3(grid[i0 + 1][j0 + 1]))
  }

  /** A corner value, or 0 for a corner whose guard is false. */
  function ExpectationCorner(grid: seq<seq<seq<real>>>, i: int, j: int, p: nat, present: bool): real
    requires present ==> 0 <= i < |grid| && 0 <= j < |grid[i]| && p < |grid[i][j]|
  {
    if present then grid[i][j][p] else 0.0
  }

  function CovarianceCorner(grid: seq<seq<seq<seq<real>>>>, i: int, j: int, p: nat, q: nat, present: bool): real
    requires present ==> 0 <= i < |grid| && 0 <= j < |grid[i]| && p < 3 && q < 3 && Is3x3(grid[i][j])
  {
    if present then grid[i][j][p][q] else 0.0
  }

  /** Both tabulated axes have a single value: the lookups return cell (0, 0). */
  predicate Degenerate(t0: seq<real>, t1: seq<real>)
  {
    |t0| == 1 && |t1| == 1
  }

  /** Every index the interpolating GetExpectation reads exists. */
  predicate ExpectationInterpolable(t0: seq<real>, t1: seq<real>, grid: seq<seq<seq<real>>>, s0: real, s1: real)
  {
    AxisIndexable(t0) && AxisIndexable(t1)
    && ExpectationReadable(grid, FindInterpolationStartIndex(t0, s0).Floor, FindInterpolationStartIndex(t1, s1).Floor, |t0|, |t1|)
  }

  /** Every index the interpolating GetCovariance reads exists. */
  predicate CovarianceInterpolable(t0: seq<real>, t1: seq<real>, grid: seq<seq<seq<seq<real>>>>, s0: real, s1: real)
  {
    AxisIndexable(t0) && AxisIndexable(t1)
    && CovarianceReadable(grid, FindInterpolationStartIndex(t0, s0).Floor, FindInterpolationStartIndex(t1, s1).Floor, |t0|, |t1|)
  }

  /**
   * The tables SetupExpectationAndCovariances builds (MeshSize sampled values
   * per axis) meet neither lookup's requirement: they are not one by one, and
   * their first mesh interval is empty.
   */
  lemma SetupTablesNotInterpolable(t0: seq<real>, t1: seq<real>, lo0: real, hi0: real, lo1: real, hi1: real,
                                   grid: seq<seq<seq<real>>>, cgrid: seq<seq<seq<seq<real>>>>, s0: real, s1: real)
    requires |t0| == MeshSize && SampledAxis(t0, lo0, hi0)
    requires |t1| == MeshSize && SampledAxis(t1, lo1, hi1)
    ensures !Degenerate(t0, t1)
    ensures !ExpectationInterpolable(t0, t1, grid, s0, s1)
    ensures !CovarianceInterpolable(t0, t1, cgrid, s0, s1)
  {
  }

  /** An axis of evenly spaced values from lo to hi, the spacing FindInterpolationStartIndex assumes. */
  predicate EvenAxis(t: seq<real>, lo: real, hi: real)
  {
    |t| >= 2 && forall i :: 0 <= i < |t| ==> t[i] == lo + ((hi - lo) / ((|t| - 1) as real)) * (i as real)
  }

  /** An evenly spaced axis over a non-empty range can be measured, unlike a sampled one. */
  lemma EvenAxisIndexable(t: seq<real>, lo: real, hi: real)
    requires EvenAxis(t, lo, hi) && lo != hi
    ensures AxisIndexable(t) && t[1] - t[0] == (hi - lo) / ((|t| - 1) as real)
  {
  }

  /** Component p of the interpolated expectation. */
  function BlendedExpectation(t0: seq<real>, t1: seq<real>, grid: seq<seq<seq<real>>>, s0: real, s1: real, p: nat): real
    requires ExpectationInterpolable(t0, t1, grid, s0, s1) && p < 3
  {
    var di := FindInterpolationStartIndex(t0, s0);
    var dj := FindInterpolationStartIndex(t1, s1);
    var i0, j0, m, n := di.Floor, dj.Floor, |t0|, |t1|;
    Blend(FindInterpolationWeights(di, dj), grid[i0][j0][p],
          ExpectationCorner(grid, i0 + 1, j0, p, m > 0),
          ExpectationCorner(grid, i0, j0 + 1, p, n > 0),
          ExpectationCorner(grid, i0 + 1, j0 + 1, p, m > 0 && n > 0))
  }

  /** Entry (p, q) of the interpolated covariance, before mirroring. */
  function BlendedCovariance(t0: seq<real>, t1: seq<real>, grid: seq<seq<seq<seq<real>>>>, s0: real, s1: real,
                             p: nat, q: nat): real
    requires CovarianceInterpolable(t0, t1, grid, s0, s1) && p < 3 && q < 3
  {
    var di := FindInterpolationStartIndex(t0, s0);
    var dj := FindInterpolationStartIndex(t1, s1);
    var i0, j0, m, n := di.Floor, dj.Floor, |t0|, |t1|;
    Blend(FindInterpolationWeights(di, dj), grid[i0][j0][p][q],
          CovarianceCorner(grid, i0 + 1, j0, p, q, m > 0),
          CovarianceCorner(grid, i0, j0 + 1, p, q, n > 0),
          CovarianceCorner(grid, i0 + 1, j0 + 1, p, q, m > 0 && n > 0))
  }

  /** What GetExpectation returns for the table (t0, t1, grid) at the trend point (s0, s1). */
  function ExpectationLookup(t0: seq<real>, t1: seq<real>, grid: seq<seq<seq<real>>>, s0: real, s1: real): seq<real>
    requires (Degenerate(t0, t1) && |grid| > 0 && |grid[0]| > 0) || ExpectationInterpolable(t0, t1, grid, s0, s1)
  {
    if Degenerate(t0, t1) then grid[0][0]
    else [BlendedExpectation(t0, t1, grid, s0, s1, 0), BlendedExpectation(t0, t1, grid, s0, s1, 1),
          BlendedExpectation(t0, t1, grid, s0, s1, 2)]
  }

  /**
   * What GetCovariance returns: the upper entries are blended entry-wise and
   * the lower ones are their mirror images.
   */
  function CovarianceLookup(t0: seq<real>, t1: seq<real>, grid: seq<seq<seq<seq<real>>>>, s0: real, s1: real): seq<seq<real>>
    requires (Degenerate(t0, t1) && |grid| > 0 && |grid[0]| > 0) || CovarianceInterpolable(t0, t1, grid, s0, s1)
  {
    if Degenerate(t0, t1) then grid[0][0]
    else
      var c00 := BlendedCovariance(t0, t1, grid, s0, s1, 0, 0);
      var c01 := BlendedCovariance(t0, t1, grid, s0, s1, 0, 1);
      var c02 := BlendedCovariance(t0, t1, grid, s0, s1, 0, 2);
      var c11 := BlendedCovariance(t0, t1, grid, s0, s1, 1, 1);
      var c12 := BlendedCovariance(t0, t1, grid, s0, s1, 1, 2);
      var c22 := BlendedCovariance(t0, t1, grid, s0, s1, 2, 2);
      [[c00, c01, c02], [c01, c11, c12], [c02, c12, c22]]
  }

  /** A degenerate table answers with cell (0, 0), whatever the trend point. */
  lemma DegenerateLookupIgnoresTrend(t0: seq<real>, t1: seq<real>, e: seq<seq<seq<real>>>,
                                     c: seq<seq<seq<seq<real>>>>, s0: real, s1: real)
    requires Degenerate(t0, t1) && |e| > 0 && |e[0]| > 0 && |c| > 0 && |c[0]| > 0
    ensures ExpectationLookup(t0, t1, e, s0, s1) == e[0][0]
    ensures CovarianceLookup(t0, t1, c, s0, s1) == c[0][0]
  {
  }

  /**
   * At a trend point whose start indices are whole numbers, the lookup returns
   * the stored expectation of that cell exactly.
   */
  lemma ExpectationAtGridPoint(t0: seq<real>, t1: seq<real>, grid: seq<seq<seq<real>>>, s0: real, s1: real)
    requires !Degenerate(t0, t1) && ExpectationInterpolable(t0, t1, grid, s0, s1)
    requires Frac(FindInterpolationStartIndex(t0, s0)) == 0.0 && Frac(FindInterpolationStartIndex(t1, s1)) == 0.0
    ensures var i, j := FindInterpolationStartIndex(t0, s0).Floor, FindInterpolationStartIndex(t1, s1).Floor;
            ExpectationLookup(t0, t1, grid, s0, s1) == grid[i][j][..3]
  {
    var i, j := FindInterpolationStartIndex(t0, s0).Floor, FindInterpolationStartIndex(t1, s1).Floor;
    var w := FindInterpolationWeights(FindInterpolationStartIndex(t0, s0), FindInterpolationStartIndex(t1, s1));
    assert w == Weights(1.0, 0.0, 0.0, 0.0);
    var r := ExpectationLookup(t0, t1, grid, s0, s1);
    assert r[0] == grid[i][j][0] && r[1] == grid[i][j][1] && r[2] == grid[i][j][2];
  }

  /**
   * On a table with two or more values per axis, every interpolated component
   * lies between the smallest and the largest of its four corners.
   */
  lemma ExpectationBetweenCorners(t0: seq<real>, t1: seq<real>, grid: seq<seq<seq<real>>>, s0: real, s1: real,
                                  p: nat, lo: real, hi: real)
    requires |t0| >= 2 && |t1| >= 2 && ExpectationInterpolable(t0, t1, grid, s0, s1) && p < 3
    requires var i0, j0 := FindInterpolationStartIndex(t0, s0).Floor, FindInterpolationStartIndex(t1, s1).Floor;
             && lo <= grid[i0][j0][p] <= hi && lo <= grid[i0 + 1][j0][p] <= hi
             && lo <= grid[i0][j0 + 1][p] <= hi && lo <= grid[i0 + 1][j0 + 1][p] <= hi
    ensures lo <= ExpectationLookup(t0, t1, grid, s0, s1)[p] <= hi
  {
    var di := FindInterpolationStartIndex(t0, s0);
    var dj := FindInterpolationStartIndex(t1, s1);
    var w := FindInterpolationWeights(di, dj);
    var i0, j0 := di.Floor, dj.Floor;
    BlendBounds(w, grid[i0][j0][p], grid[i0 + 1][j0][p], grid[i0][j0 + 1][p], grid[i0 + 1][j0 + 1][p], lo, hi);
    assert ExpectationLookup(t0, t1, grid, s0, s1)[p] == BlendedExpectation(t0, t1, grid, s0, s1, p);
  }

  /** A blend with nonnegative weights summing to one stays within the bounds of its values. */
  lemma BlendBounds(w: Weights, v00: real, v10: real, v01: real, v11: real, lo: real, hi: real)
    requires 0.0 <= w.w00 && 0.0 <= w.w10 && 0.0 <= w.w01 && 0.0 <= w.w11
    requires w.w00 + w.w10 + w.w01 + w.w11 == 1.0
    requires lo <= v00 <= hi && lo <= v10 <= hi && lo <= v01 <= hi && lo <= v11 <= hi
    ensures lo <= Blend(w, v00, v10, v01, v11) <= hi
  {
    BlendAbove(w, v00, v10, v01, v11, lo);
    BlendBelow(w, v00, v10, v01, v11, hi);
  }

  lemma BlendAbove(w: Weights, v00: real, v10: real, v01: real, v11: real, lo: real)
    requires 0.0 <= w.w00 && 0.0 <= w.w10 && 0.0 <= w.w01 && 0.0 <= w.w11
    requires w.w00 + w.w10 + w.w01 + w.w11 == 1.0
    requires lo <= v00 && lo <= v10 && lo <= v01 && lo <= v11
    ensures lo <= Blend(w, v00, v10, v01, v11)
  {
    WeightedSumAbove(w.w00, w.w10, w.w01, w.w11, v00, v10, v01, v11, lo);
  }

  lemma BlendBelow(w: Weights, v00: real, v10: real, v01: real, v11: real, hi: real)
    requires 0.0 <= w.w00 && 0.0 <= w.w10 && 0.0 <= w.w01 && 0.0 <= w.w11
    requires w.w00 + w.w10 + w.w01 + w.w11 == 1.0
    requires v00 <= hi && v10 <= hi && v01 <= hi && v11 <= hi
    ensures Blend(w, v00, v10, v01, v11) <= hi
  {
    WeightedSumBelow(w.w00, w.w10, w.w01, w.w11, v00, v10, v01, v11, hi);
  }

  lemma WeightedSumAbove(a: real, b: real, c: real, d: real, x: real, y: real, z: real, u: real, lo: real)
    requires 0.0 <= a && 0.0 <= b && 0.0 <= c && 0.0 <= d && a + b + c + d == 1.0
    requires lo <= x && lo <= y && lo <= z && lo <= u
    ensures lo <= a * x + b * y + c * z + d * u
  {
    NonNegativeProduct(a, x - lo);
    NonNegativeProduct(b, y - lo);
    NonNegativeProduct(c, z - lo);
    NonNegativeProduct(d, u - lo);
    calc {
      a * x + b * y + c * z + d * u - lo;
    == { OneTimes(a + b + c + d, lo); }
      a * x + b * y + c * z + d * u - (a + b + c + d) * lo;
    ==
      a * (x - lo) + b * (y - lo) + c * (z - lo) + d * (u - lo);
    >=
      0.0;
    }
  }

  lemma WeightedSumBelow(a: real, b: real, c: real, d: real, x: real, y: real, z: real, u: real, hi: real)
    requires 0.0 <= a && 0.0 <= b && 0.0 <= c && 0.0 <= d && a + b + c + d == 1.0
    requires x <= hi && y <= hi && z <= hi && u <= hi
    ensures a * x + b * y + c * z + d * u <= hi
  {
    NonNegativeProduct(a, hi - x);
    NonNegativeProduct(b, hi - y);
    NonNegativeProduct(c, hi - z);
    NonNegativeProduct(d, hi - u);
    calc {
      hi - (a * x + b * y + c * z + d * u);
    == { OneTimes(a + b + c + d, hi); }
      (a + b + c + d) * hi - (a * x + b * y + c * z + d * u);
    ==
      a * (hi - x) + b * (hi - y) + c * (hi - z) + d * (hi - u);
    >=
      0.0;
    }
  }

  lemma NonNegativeProduct(a: real, b: real)
    requires 0.0 <= a && 0.0 <= b
    ensures 0.0 <= a * b
  {
  }

  lemma OneTimes(s: real, x: real)
    requires s == 1.0
    ensures s * x == x
  {
  }

  /** The four corners 1, 3, 5, 7 blended at the centre of their cell give their average, 4. */
  lemma ExpectationAtCellCentre()
    ensures var grid := [[[1.0, 1.0, 1.0], [5.0, 5.0, 5.0]], [[3.0, 3.0, 3.0], [7.0, 7.0, 7.0]]];
            ExpectationInterpolable([0.0, 1.0], [0.0, 1.0], grid, 0.5, 0.5)
            && ExpectationLookup([0.0, 1.0], [0.0, 1.0], grid, 0.5, 0.5) == [4.0, 4.0, 4.0]
  {
    var grid := [[[1.0, 1.0, 1.0], [5.0, 5.0, 5.0]], [[3.0, 3.0, 3.0], [7.0, 7.0, 7.0]]];
    var d := FindInterpolationStartIndex([0.0, 1.0], 0.5);
    assert d == 0.5;
    assert d.Floor == 0;
    var w := FindInterpolationWeights(d, d);
    assert w == Weights(0.25, 0.25, 0.25, 0.25);
  }

  /**
   * The covariance lookup is symmetric, and on symmetric corner cells each
   * lower entry is also the blend of the corners' own lower entries.
   */
  lemma CovarianceLookupSymmetric(t0: seq<real>, t1: seq<real>, grid: seq<seq<seq<seq<real>>>>, s0: real, s1: real)
    requires !Degenerate(t0, t1) && CovarianceInterpolable(t0, t1, grid, s0, s1)
    ensures var c := CovarianceLookup(t0, t1, grid, s0, s1);
            Is3x3(c) && forall p, q :: 0 <= p < 3 && 0 <= q < 3 ==> c[p][q] == c[q][p]
    ensures var i0, j0 := FindInterpolationStartIndex(t0, s0).Floor, FindInterpolationStartIndex(t1, s1).Floor;
            Symmetric3x3(grid[i0][j0]) && (|t0| > 0 ==> Symmetric3x3(grid[i0 + 1][j0]))
            && (|t1| > 0 ==> Symmetric3x3(grid[i0][j0 + 1])) && (|t0| > 0 && |t1| > 0 ==> Symmetric3x3(grid[i0 + 1][j0 + 1]))
            ==> forall p, q :: 0 <= p < 3 && 0 <= q < 3 ==>
                  CovarianceLookup(t0, t1, grid, s0, s1)[p][q] == BlendedCovariance(t0, t1, grid, s0, s1, p, q)
  {
  }

  /** InterpolateExpectation: writes component p of the blend, and nothing else. */
  method InterpolateExpectation(mean: array<real>, expectation: seq<seq<seq<real>>>,
                                w00: real, w10: real, w01: real, w11: real,
                                di: real, dj: real, m: nat, n: nat, p: nat)
    requires p < mean.Length && p < 3
    requires ExpectationReadable(expectation, di.Floor, dj.Floor, m, n)
    modifies mean
    ensures var i0, j0 := di.Floor, dj.Floor;
      mean[p] == Blend(Weights(w00, w10, w01, w11), expectation[i0][j0][p],
                       ExpectationCorner(expectation, i0 + 1, j0, p, m > 0),
                       ExpectationCorner(expectation, i0, j0 + 1, p, n > 0),
                       ExpectationCorner(expectation, i0 + 1, j0 + 1, p, m > 0 && n > 0))
    ensures forall k :: 0 <= k < mean.Length && k != p ==> mean[k] == old(mean[k])
  {
    var i0 := di.Floor;
    var j0 := dj.Floor;
    var v00, v10, v01, v11 := 0.0, 0.0, 0.0, 0.0;
    v00 := expectation[i0][j0][p];
    if m > 0 {
      v10 := expectation[i0 + 1][j0][p];
    }
    if n > 0 {
      v01 := expectation[i0][j0 + 1][p];
    }
    if m > 0 && n > 0 {
      v11 := expectation[i0 + 1][j0 + 1][p];
    }
    mean[p] := w00 * v00 + w10 * v10 + w01 * v01 + w11 * v11;
  }

  /** InterpolateCovariance: writes entry (p, q) of the blend, and nothing else. */
  method InterpolateCovariance(cov: array2<real>, covariance: seq<seq<seq<seq<real>>>>,
                               w00: real, w10: real, w01: real, w11: real,
                               di: real, dj: real, m: nat, n: nat, p: nat, q: nat)
    requires p < cov.Length0 && q < cov.Length1
    requires p < 3 && q < 3 && CovarianceReadable(covariance, di.Floor, dj.Floor, m, n)
    modifies cov
    ensures var i0, j0 := di.Floor, dj.Floor;
      cov[p, q] == Blend(Weights(w00, w10, w01, w11), covariance[i0][j0][p][q],
                         CovarianceCorner(covariance, i0 + 1, j0, p, q, m > 0),
                         CovarianceCorner(covariance, i0, j0 + 1, p, q, n > 0),
                         CovarianceCorner(covariance, i0 + 1, j0 + 1, p, q, m > 0 && n > 0))
    ensures forall a, b :: 0 <= a < cov.Length0 && 0 <= b < cov.Length1 && (a != p || b != q) ==> cov[a, b] == old(cov[a, b])
  {
    var i0 := di.Floor;
    var j0 := dj.Floor;
    var v00, v10, v01, v11 := 0.0, 0.0, 0.0, 0.0;
    v00 := covariance[i0][j0][p][q];
    if m > 0 {
      v10 := covariance[i0 + 1][j0][p][q];
    }
    if n > 0 {
      v01 := covariance[i0][j0 + 1][p][q];
    }
    if m > 0 && n > 0 {
      v11 := covariance[i0 + 1][j0 + 1][p][q];
    }
    cov[p, q] := w00 * v00 + w10 * v10 + w01 * v01 + w11 * v11;
  }

  //------------------------------------------------------------------------
  // The tabulated rock distribution
  //------------------------------------------------------------------------

  /**
   * The draws of one mesh cell and their statistics: `count` rocks generated
   * at trend point tp from stream position `start`, their components written
   * into a, b and c, and the mean and covariance computed from those vectors.
   */
  method TabulateCell(model: RockModel, tp: seq<real>, start: nat, a: array<real>, b: array<real>, c: array<real>)
    returns (mean: seq<real>, cellCov: seq<seq<real>>)
    requires a.Length == b.Length == c.Length && a.Length > 0
    requires a != b && a != c && b != c
    modifies a, b, c
    ensures mean == CellExpectation(CellDraws(model, tp, start, a.Length))
    ensures cellCov == CellCovariance(CellDraws(model, tp, start, a.Length))
  {
    var ds := CellDraws(model, tp, start, a.Length);
    DrawCell(model, tp, start, a, b, c);
    mean, cellCov := CellStatistics(a[..], b[..], c[..], ds);
  }

  /** The inner draw loop: component k of the draws of the cell goes to a[k], b[k] and c[k]. */
  method DrawCell(model: RockModel, tp: seq<real>, start: nat, a: array<real>, b: array<real>, c: array<real>)
    requires a.Length == b.Length == c.Length
    requires a != b && a != c && b != c
    modifies a, b, c
    ensures var ds := CellDraws(model, tp, start, a.Length);
            a[..] == Component(ds, 0) && b[..] == Component(ds, 1) && c[..] == Component(ds, 2)
  {
    var n := a.Length;
    ghost var ds := CellDraws(model, tp, start, n);
    var k := 0;
    while k < n
      invariant 0 <= k <= n
      invariant forall t :: 0 <= t < k ==> a[t] == ds[t].vp
      invariant forall t :: 0 <= t < k ==> b[t] == ds[t].vs
      invariant forall t :: 0 <= t < k ==> c[t] == ds[t].rho
    {
      var rock := model.generate(tp, start + k);
      a[k] := rock.params.vp;
      b[k] := rock.params.vs;
      c[k] := rock.params.rho;
      k := k + 1;
    }
  }

  /** The expectation and covariance calls on the three component vectors of a cell. */
  method CellStatistics(pa: seq<real>, pb: seq<real>, pc: seq<real>, ds: seq<SeismicParams>)
    returns (mean: seq<real>, cellCov: seq<seq<real>>)
    requires |ds| > 0 && pa == Component(ds, 0) && pb == Component(ds, 1) && pc == Component(ds, 2)
    ensures mean == CellExpectation(ds) && cellCov == CellCovariance(ds)
  {
    var n := |pa|;
    var mean0 := FindExpectation(pa);
    var mean1 := FindExpectation(pb);
    var mean2 := FindExpectation(pc);
    mean := [mean0, mean1, mean2];
    assert pa[..n] == pa && pb[..n] == pb && pc[..n] == pc;
    var c00 := FindCovariance(pa, mean0, pa, mean0);
    var c11 := FindCovariance(pb, mean1, pb, mean1);
    var c22 := FindCovariance(pc, mean2, pc, mean2);
    var c01 := FindCovariance(pa, mean0, pb, mean1);
    var c02 := FindCovariance(pa, mean0, pc, mean2);
    var c12 := FindCovariance(pb, mean1, pc, mean2);
    cellCov := [[c00, c01, c02], [c01, c11, c12], [c02, c12, c22]];
    CellCovarianceSymmetric(ds);
    ghost var full := CellCovariance(ds);
    assert cellCov[0] == full[0] && cellCov[1] == full[1] && cellCov[2] == full[2];
  }

  /** Row i of the tables holds the statistics of the draws of each cell (i, j) of the mesh s0 x s1. */
  ghost predicate RowTabulated(model: RockModel, s0: seq<real>, s1: seq<real>, first: nat, i: nat,
                               expRow: seq<seq<real>>, covRow: seq<seq<seq<real>>>)
  {
    && i < |s0| && |expRow| == |s1| && |covRow| == |s1|
    && forall j :: 0 <= j < |s1| ==>
         expRow[j] == CellExpectation(CellDraws(model, [s0[i], s1[j]], first + CellStart(i, j), DrawsPerCell))
         && covRow[j] == CellCovariance(CellDraws(model, [s0[i], s1[j]], first + CellStart(i, j), DrawsPerCell))
  }

  /** One pass of the inner cell loop of SetupExpectationAndCovariances. */
  method TabulateRow(model: RockModel, trendParams: seq<seq<seq<real>>>, s0: seq<real>, s1: seq<real>,
                     first: nat, i: nat, a: array<real>, b: array<real>, c: array<real>)
    returns (expRow: seq<seq<real>>, covRow: seq<seq<seq<real>>>)
    requires i < |s0| && |trendParams| == |s0| && |trendParams[i]| == |s1|
    requires forall j :: 0 <= j < |s1| ==> trendParams[i][j] == [s0[i], s1[j]]
    requires a.Length == b.Length == c.Length == DrawsPerCell
    requires a != b && a != c && b != c
    modifies a, b, c
    ensures RowTabulated(model, s0, s1, first, i, expRow, covRow)
  {
    expRow, covRow := [], [];
    var j := 0;
    while j < |s1|
      invariant 0 <= j <= |s1| && |expRow| == j && |covRow| == j
      invariant forall y :: 0 <= y < j ==>
        expRow[y] == CellExpectation(CellDraws(model, [s0[i], s1[y]], first + CellStart(i, y), DrawsPerCell))
        && covRow[y] == CellCovariance(CellDraws(model, [s0[i], s1[y]], first + CellStart(i, y), DrawsPerCell))
    {
      var mean, cellCov := TabulateCell(model, trendParams[i][j], first + CellStart(i, j), a, b, c);
      expRow := expRow + [mean];
      covRow := covRow + [cellCov];
      j := j + 1;
    }
  }

  /** The cell loops of SetupExpectationAndCovariances over the mesh s0 x s1. */
  method TabulateMesh(model: RockModel, trendParams: seq<seq<seq<real>>>, s0: seq<real>, s1: seq<real>, first: nat)
    returns (exp: seq<seq<seq<real>>>, cov: seq<seq<seq<seq<real>>>>)
    requires |trendParams| == |s0| && forall i :: 0 <= i < |s0| ==> |trendParams[i]| == |s1|
    requires forall i, j :: 0 <= i < |s0| && 0 <= j < |s1| ==> trendParams[i][j] == [s0[i], s1[j]]
    ensures |exp| == |s0| && |cov| == |s0|
    ensures forall i :: 0 <= i < |s0| ==> RowTabulated(model, s0, s1, first, i, exp[i], cov[i])
  {
    var n := DrawsPerCell;
    var a := new real[n];
    var b := new real[n];
    var c := new real[n];
    exp, cov := [], [];
    var i := 0;
    while i < |s0|
      invariant 0 <= i <= |s0| && |exp| == i && |cov| == i
      invariant forall x :: 0 <= x < i ==> RowTabulated(model, s0, s1, first, x, exp[x], cov[x])
    {
      var expRow, covRow := TabulateRow(model, trendParams, s0, s1, first, i, a, b, c);
      exp := exp + [expRow];
      cov := cov + [covRow];
      i := i + 1;
    }
  }

  /** The part of a rock distribution that holds the tabulation cache. */
  class TabulatedRock {
    const model: RockModel
    const hasTrend: seq<bool>     // HasTrend() of the concrete rock distribution
    var tabulatedS0: seq<real>
    var tabulatedS1: seq<real>
    var expectation: seq<seq<seq<real>>>
    var covariance: seq<seq<seq<seq<real>>>>

    constructor (model: RockModel, hasTrend: seq<bool>)
      ensures this.model == model && this.hasTrend == hasTrend
      ensures tabulatedS0 == [] && tabulatedS1 == [] && expectation == [] && covariance == []
    {
      this.model := model;
      this.hasTrend := hasTrend;
      tabulatedS0, tabulatedS1 := [], [];
      expectation, covariance := [], [];
    }

    /**
     * SetupExpectationAndCovariances. The cell loops always run over a 10 x 10
     * mesh, which exists only when the model has a trend on both axes; with
     * either axis collapsed to [0.0] the loop would read past the mesh, so both
     * trends are required. `first` is the position of the random stream on entry.
     */
    method SetupExpectationAndCovariances(sMin: seq<real>, sMax: seq<real>, first: nat)
      requires |hasTrend| >= 2 && hasTrend[0] && hasTrend[1]
      requires |sMin| >= 2 && |sMax| >= 2
      modifies this
      ensures |tabulatedS0| == MeshSize && SampledAxis(tabulatedS0, sMin[0], sMax[0])
      ensures |tabulatedS1| == MeshSize && SampledAxis(tabulatedS1, sMin[1], sMax[1])
      ensures |expectation| == MeshSize && |covariance| == MeshSize
      ensures forall i :: 0 <= i < MeshSize ==> |expectation[i]| == MeshSize && |covariance[i]| == MeshSize
      ensures forall i :: 0 <= i < MeshSize ==>
        RowTabulated(model, tabulatedS0, tabulatedS1, first, i, expectation[i], covariance[i])
    {
      var m := MeshSize;
      var s0 := Resize(tabulatedS0, m);
      var s1 := Resize(tabulatedS1, m);
      s0, s1 := FindTabulatedTrendParams(s0, s1, hasTrend, sMin, sMax);
      assert |s0| == m && |s1| == m;
      var trendParams := SetupTrendMesh(s0, s1);

      var exp, cov := TabulateMesh(model, trendParams, s0, s1, first);
      tabulatedS0, tabulatedS1 := s0, s1;
      expectation := exp;
      covariance := cov;
    }

    /** GetExpectation: the stored cell for a degenerate table, else the four-corner blend. */
    method GetExpectation(trendParams: seq<real>) returns (mean: seq<real>)
      requires |trendParams| >= 2
      requires (Degenerate(tabulatedS0, tabulatedS1) && |expectation| > 0 && |expectation[0]| > 0)
               || ExpectationInterpolable(tabulatedS0, tabulatedS1, expectation, trendParams[0], trendParams[1])
      ensures mean == ExpectationLookup(tabulatedS0, tabulatedS1, expectation, trendParams[0], trendParams[1])
    {
      var s0 := trendParams[0];
      var s1 := trendParams[1];
      var m := |tabulatedS0|;
      var n := |tabulatedS1|;
      if m == 1 && n == 1 {
        return expectation[0][0];
      }
      var di := FindInterpolationStartIndex(tabulatedS0, s0);
      var dj := FindInterpolationStartIndex(tabulatedS1, s1);
      var w := FindInterpolationWeights(di, dj);
      var out := new real[3];
      InterpolateExpectation(out, expectation, w.w00, w.w10, w.w01, w.w11, di, dj, m, n, 0);
      var e0 := out[0];
      InterpolateExpectation(out, expectation, w.w00, w.w10, w.w01, w.w11, di, dj, m, n, 1);
      var e1 := out[1];
      InterpolateExpectation(out, expectation, w.w00, w.w10, w.w01, w.w11, di, dj, m, n, 2);
      mean := [e0, e1, out[2]];
    }

    /** GetCovariance: the stored cell for a degenerate table, else the blended upper triangle, mirrored. */
    method GetCovariance(trendParams: seq<real>) returns (result: seq<seq<real>>)
      requires |trendParams| >= 2
      requires (Degenerate(tabulatedS0, tabulatedS1) && |covariance| > 0 && |covariance[0]| > 0)
               || CovarianceInterpolable(tabulatedS0, tabulatedS1, covariance, trendParams[0], trendParams[1])
      ensures result == CovarianceLookup(tabulatedS0, tabulatedS1, covariance, trendParams[0], trendParams[1])
    {
      var s0 := trendParams[0];
      var s1 := trendParams[1];
      var m := |tabulatedS0|;
      var n := |tabulatedS1|;
      if m == 1 && n == 1 {
        return covariance[0][0];
      }
      var di := FindInterpolationStartIndex(tabulatedS0, s0);
      var dj := FindInterpolationStartIndex(tabulatedS1, s1);
      var w := FindInterpolationWeights(di, dj);
      assert Weights(w.w00, w.w10, w.w01, w.w11) == w;
      var cov := new real[3, 3];
      InterpolateCovariance(cov, covariance, w.w00, w.w10, w.w01, w.w11, di, dj, m, n, 0, 0);
      var c00 := cov[0, 0];
      assert c00 == BlendedCovariance(tabulatedS0, tabulatedS1, covariance, s0, s1, 0, 0);
      InterpolateCovariance(cov, covariance, w.w00, w.w10, w.w01, w.w11, di, dj, m, n, 0, 1);
      var c01 := cov[0, 1];
      assert c01 == BlendedCovariance(tabulatedS0, tabulatedS1, covariance, s0, s1, 0, 1);
      InterpolateCovariance(cov, covariance, w.w00, w.w10, w.w01, w.w11, di, dj, m, n, 0, 2);
      var c02 := cov[0, 2];
      assert c02 == BlendedCovariance(tabulatedS0, tabulatedS1, covariance, s0, s1, 0, 2);
      InterpolateCovariance(cov, covariance, w.w00, w.w10, w.w01, w.w11, di, dj, m, n, 1, 1);
      var c11 := cov[1, 1];
      assert c11 == BlendedCovariance(tabulatedS0, tabulatedS1, covariance, s0, s1, 1, 1);
      InterpolateCovariance(cov, covariance, w.w00, w.w10, w.w01, w.w11, di, dj, m, n, 1, 2);
      var c12 := cov[1, 2];
      assert c12 == BlendedCovariance(tabulatedS0, tabulatedS1, covariance, s0, s1, 1, 2);
      InterpolateCovariance(cov, covariance, w.w00, w.w10, w.w01, w.w11, di, dj, m, n, 2, 2);
      var c22 := cov[2, 2];
      assert c22 == BlendedCovariance(tabulatedS0, tabulatedS1, covariance, s0, s1, 2, 2);
      // the lower triangle mirrors the upper one
      result := [[c00, c01, c02], [c01, c11, c12], [c02, c12, c22]];
    }
  }

  //------------------------------------------------------------------------
  // Sample chaining
  //------------------------------------------------------------------------

  /**
   * The i-th rock of GenerateWellSample: a fresh sample first, then each one
   * updated from its predecessor with a spatial (not time) correlation. The
   * call that makes rock i finds the random stream at first + i.
   */
  function WellSample(model: RockModel, corr: real, trend: seq<real>, first: nat, i: nat): RockSample
  {
    if i == 0 then model.generate(trend, first)
    else model.update(corr, false, trend, WellSample(model, corr, trend, first, i - 1), first + i)
  }

  /** GenerateWellSample: fills vp, vs and rho with the seismic parameters of the chained samples. */
  method GenerateWellSample(model: RockModel, corr: real, vp: array<real>, vs: array<real>, rho: array<real>,
                            trendParams: seq<real>, first: nat)
    requires vp.Length >= 1 && vs.Length >= vp.Length && rho.Length >= vp.Length
    requires vp != vs && vp != rho && vs != rho
    modifies vp, vs, rho
    ensures forall i :: 0 <= i < vp.Length ==> Stored(vp, vs, rho, i, WellSample(model, corr, trendParams, first, i).params)
    ensures forall i :: vp.Length <= i < vs.Length ==> vs[i] == old(vs[i])
    ensures forall i :: vp.Length <= i < rho.Length ==> rho[i] == old(rho[i])
  {
    var rock := model.generate(trendParams, first);
    Store(vp, vs, rho, 0, rock.params);
    var i := 1;
    while i < vp.Length
      invariant 1 <= i <= vp.Length
      invariant rock == WellSample(model, corr, trendParams, first, i - 1)
      invariant forall k :: 0 <= k < i ==> Stored(vp, vs, rho, k, WellSample(model, corr, trendParams, first, k).params)
      invariant forall k :: vp.Length <= k < vs.Length ==> vs[k] == old(vs[k])
      invariant forall k :: vp.Length <= k < rho.Length ==> rho[k] == old(rho[k])
    {
      var rockUpdate := model.update(corr, false, trendParams, rock, first + i);
      Store(vp, vs, rho, i, rockUpdate.params);
      rock := rockUpdate;
      i := i + 1;
    }
  }

  /** Element i of the three logs holds the given seismic parameters. */
  ghost predicate Stored(vp: array<real>, vs: array<real>, rho: array<real>, i: nat, r: SeismicParams)
    reads vp, vs, rho
  {
    i < vp.Length && i < vs.Length && i < rho.Length && vp[i] == r.vp && vs[i] == r.vs && rho[i] == r.rho
  }

  /** Writes one sample's parameters at position i of the three logs. */
  method Store(vp: array<real>, vs: array<real>, rho: array<real>, i: nat, r: SeismicParams)
    requires i < vp.Length && i < vs.Length && i < rho.Length
    requires vp != vs && vp != rho && vs != rho
    modifies vp, vs, rho
    ensures Stored(vp, vs, rho, i, r)
    ensures forall k :: 0 <= k < vp.Length && k != i ==> vp[k] == old(vp[k])
    ensures forall k :: 0 <= k < vs.Length && k != i ==> vs[k] == old(vs[k])
    ensures forall k :: 0 <= k < rho.Length && k != i ==> rho[k] == old(rho[k])
  {
    vp[i] := r.vp;
    vs[i] := r.vs;
    rho[i] := r.rho;
  }

  /** EvolveSample: a time update of the rock with the zero trend vector. */
  function EvolveSample(model: RockModel, time: real, rock: RockSample, at: nat): (r: RockSample)
    ensures r == model.update(time, true, [0.0, 0.0], rock, at)
  {
    var trend := [0.0, 0.0];
    model.update(time, true, trend, rock, at)
  }
}
