/**
 * The tabulated-modulus solid distribution: three distributions with trend
 * (bulk modulus k, shear modulus mu, density rho) tied together by a 3x3
 * correlation matrix, sampled by mapping three uniforms through the joint
 * quantile function of the tabulation built from them.
 */
module SolidTabulatedModulus {
  import opened Common
  import opened Distributions

  /**
   * The tabulation of the elastic variables (the Tabulated object): the
   * variables, the correlation matrix it was built with, and its quantile
   * map GetQuantileValues(u, s1, s2), one value per variable, whose
   * computation is not part of this model.
   */
  /** The quantile map: per-variable values at uniforms u and trend values (s1, s2). */
  type QuantileMap = (seq<real>, real, real) -> (real, real, real)

  datatype Tabulated = Tabulated(
    variables: seq<DistributionWithTrend>,
    correlation: seq<seq<real>>,
    quantileValues: QuantileMap)

  /** A sampled solid: its moduli and density, and the uniforms that produced them. */
  datatype Solid = Solid(k: real, mu: real, rho: real, u: seq<real>)

  predicate Is3x3(c: seq<seq<real>>)
  {
    |c| == 3 && |c[0]| == 3 && |c[1]| == 3 && |c[2]| == 3
  }

  predicate Symmetric(c: seq<seq<real>>)
    requires Is3x3(c)
  {
    forall i, j :: 0 <= i < 3 && 0 <= j < 3 ==> c[i][j] == c[j][i]
  }

  /**
   * The correlation matrix of the constructor: zero-filled, a unit diagonal,
   * then each correlation written at both of its mirrored positions.
   */
  method CorrelationMatrix(corrKMu: real, corrKRho: real, corrMuRho: real) returns (c: seq<seq<real>>)
    ensures Is3x3(c) && Symmetric(c)
    ensures forall i :: 0 <= i < 3 ==> c[i][i] == 1.0
    ensures c[0][1] == corrKMu && c[0][2] == corrKRho && c[1][2] == corrMuRho
  {
    var m := new real[3, 3]((_, _) => 0.0);
    for i := 0 to 3
      invariant forall r, s :: 0 <= r < 3 && 0 <= s < 3 ==> m[r, s] == (if r == s && r < i then 1.0 else 0.0)
    {
      m[i, i] := 1.0;
    }
    m[0, 1] := corrKMu;
    m[1, 0] := corrKMu;
    m[0, 2] := corrKRho;
    m[2, 0] := corrKRho;
    m[1, 2] := corrMuRho;
    m[2, 1] := corrMuRho;
    c := [[m[0, 0], m[0, 1], m[0, 2]], [m[1, 0], m[1, 1], m[1, 2]], [m[2, 0], m[2, 1], m[2, 2]]];
  }

  /** The per-axis trend flags of the constructor: axis i has a trend when any of the three variables uses it. */
  method TrendFlags(kTrend: seq<bool>, muTrend: seq<bool>, rhoTrend: seq<bool>) returns (hasTrend: seq<bool>)
    requires |kTrend| >= 2 && |muTrend| >= 2 && |rhoTrend| >= 2
    ensures |hasTrend| == 2
    ensures forall i :: 0 <= i < 2 ==> (hasTrend[i] <==> kTrend[i] || muTrend[i] || rhoTrend[i])
  {
    hasTrend := [false, false];
    for i := 0 to 2
      invariant |hasTrend| == 2
      invariant forall j :: 0 <= j < i ==> (hasTrend[j] <==> kTrend[j] || muTrend[j] || rhoTrend[j])
    {
      if kTrend[i] || muTrend[i] || rhoTrend[i] {
        hasTrend := hasTrend[i := true];
      } else {
        hasTrend := hasTrend[i := false];
      }
    }
  }

  class DistributionsSolidTabulatedModulus {
    const distrK: DistributionWithTrend
    const distrMu: DistributionWithTrend
    const distrRho: DistributionWithTrend
    const corrKMu: real
    const corrKRho: real
    const corrMuRho: real
    const tabulated: Tabulated
    const hasDistribution: bool
    const hasTrend: seq<bool>

    /** What the constructor establishes and the sampling relies on. */
    ghost predicate Valid()
    {
      tabulated.variables == [distrK, distrMu, distrRho] &&
      Is3x3(tabulated.correlation) && Symmetric(tabulated.correlation) &&
      (hasDistribution <==> distrK.spec.isDistribution || distrMu.spec.isDistribution || distrRho.spec.isDistribution) &&
      |distrK.spec.useTrendCube| >= 2 && |distrMu.spec.useTrendCube| >= 2 && |distrRho.spec.useTrendCube| >= 2 &&
      |hasTrend| == 2 &&
      forall i :: 0 <= i < 2 ==>
        (hasTrend[i] <==> distrK.spec.useTrendCube[i] || distrMu.spec.useTrendCube[i] || distrRho.spec.useTrendCube[i])
    }

    /**
     * `quantileValues` is the quantile map of the tabulation the constructor
     * builds from the three variables and the correlation matrix.
     */
    constructor (distrK: DistributionWithTrend, distrMu: DistributionWithTrend, distrRho: DistributionWithTrend,
                 corrKMu: real, corrKRho: real, corrMuRho: real,
                 quantileValues: QuantileMap)
      requires |distrK.spec.useTrendCube| >= 2 && |distrMu.spec.useTrendCube| >= 2 && |distrRho.spec.useTrendCube| >= 2
      ensures Valid()
      ensures this.distrK == distrK && this.distrMu == distrMu && this.distrRho == distrRho
      ensures this.corrKMu == corrKMu && this.corrKRho == corrKRho && this.corrMuRho == corrMuRho
      ensures tabulated.correlation[0][1] == corrKMu && tabulated.correlation[0][2] == corrKRho
      ensures tabulated.correlation[1][2] == corrMuRho
      ensures forall i :: 0 <= i < 3 ==> tabulated.correlation[i][i] == 1.0
      ensures tabulated.quantileValues == quantileValues
    {
      this.distrK := distrK;
      this.distrMu := distrMu;
      this.distrRho := distrRho;
      this.corrKMu := corrKMu;
      this.corrKRho := corrKRho;
      this.corrMuRho := corrMuRho;
      var corrMatrix := CorrelationMatrix(corrKMu, corrKRho, corrMuRho);
      tabulated := Tabulated([distrK, distrMu, distrRho], corrMatrix, quantileValues);
      if distrK.spec.isDistribution || distrMu.spec.isDistribution || distrRho.spec.isDistribution {
        hasDistribution := true;
      } else {
        hasDistribution := false;
      }
      var flags := TrendFlags(distrK.spec.useTrendCube, distrMu.spec.useTrendCube, distrRho.spec.useTrendCube);
      hasTrend := flags;
    }

    /** The solid at uniforms `u` and trend values (trendParams[0], trendParams[1]). */
    function GetSample(u: seq<real>, trendParams: seq<real>): (s: Solid)
      requires Valid() && |trendParams| >= 2
      ensures s.u == u
      ensures (s.k, s.mu, s.rho) == tabulated.quantileValues(u, trendParams[0], trendParams[1])
    {
      var sample := tabulated.quantileValues(u, trendParams[0], trendParams[1]);
      Solid(sample.0, sample.1, sample.2, u)
    }

    /**
     * Three uniforms drawn in turn, and the solid they give: the next three
     * draws of the stream.
     */
    method GenerateSample(rng: RandomSource, trendParams: seq<real>) returns (s: Solid)
      requires Valid() && |trendParams| >= 2
      modifies rng
      ensures rng.drawn == old(rng.drawn) + 3
      ensures s == GetSample([rng.stream(old(rng.drawn)), rng.stream(old(rng.drawn) + 1), rng.stream(old(rng.drawn) + 2)],
                             trendParams)
    {
      var u: seq<real> := [];
      for i := 0 to 3
        invariant |u| == i && rng.drawn == old(rng.drawn) + i
        invariant forall j :: 0 <= j < i ==> u[j] == rng.stream(old(rng.drawn) + j)
      {
        var x := rng.Unif01();
        u := u + [x];
      }
      assert u == [rng.stream(old(rng.drawn)), rng.stream(old(rng.drawn) + 1), rng.stream(old(rng.drawn) + 2)];
      s := GetSample(u, trendParams);
    }

    /** HasDistribution(): some elastic variable is random. */
    function HasDistribution(): (r: bool)
      requires Valid()
      ensures r <==> distrK.spec.isDistribution || distrMu.spec.isDistribution || distrRho.spec.isDistribution
    {
      hasDistribution
    }

    /** HasTrend(): per trend axis, whether some elastic variable uses it. */
    function HasTrend(): (r: seq<bool>)
      requires Valid()
      ensures |r| == 2
      ensures forall i :: 0 <= i < 2 ==>
                (r[i] <==> distrK.spec.useTrendCube[i] || distrMu.spec.useTrendCube[i] || distrRho.spec.useTrendCube[i])
    {
      hasTrend
    }

    /** UpdateSample(corr, solid): this distribution never updates a sample. */
    function UpdateSample(corr: seq<real>, solid: Solid): (r: Option<Solid>)
      ensures r.None?
    {
      None
    }

    /** The distributions the destructor deletes: the ones not shared, in the order k, mu, rho. */
    function DeletedDistributions(): (r: seq<DistributionWithTrend>)
      ensures forall i :: 0 <= i < 3 ==> ([distrK, distrMu, distrRho][i] in r <==> ![distrK, distrMu, distrRho][i].spec.isShared)
      ensures forall j :: 0 <= j < |r| ==> r[j] in [distrK, distrMu, distrRho]
    {
      (if distrK.spec.isShared then [] else [distrK]) +
      (if distrMu.spec.isShared then [] else [distrMu]) +
      (if distrRho.spec.isShared then [] else [distrRho])
    }
  }
}
