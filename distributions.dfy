/**
 * The collaborators of the rock-physics core that it only uses through their
 * interfaces: a distribution with trend (an immutable probability model of one
 * physical variable), the storage that generates one from configuration, and
 * the process-wide uniform random source.
 */
module Distributions {

  /** What the core inspects of a distribution with trend. */
  datatype DistributionSpec = DistributionSpec(
    isDistribution: bool,       // GetIsDistribution(): the variable is random, not a constant
    useTrendCube: seq<bool>,    // GetUseTrendCube(): dependence on each trend axis
    oneYearCorrelation: real,   // GetOneYearCorrelation()
    isShared: bool)             // GetIsShared(): owned elsewhere, never deleted here

  /** A built distribution with trend; `Clone` is a deep copy. */
  class DistributionWithTrend {
    const spec: DistributionSpec

    constructor (spec: DistributionSpec)
      ensures this.spec == spec
    {
      this.spec := spec;
    }

    /** A new object describing the same distribution as this one. */
    method Clone() returns (c: DistributionWithTrend)
      ensures fresh(c) && c.spec == spec
    {
      c := new DistributionWithTrend(spec);
    }
  }

  /**
   * The configuration of one distribution with trend. Generating it builds a
   * new distribution and may append diagnostics (`generateErr`) to the
   * caller's error text.
   */
  class DistributionWithTrendStorage {
    const spec: DistributionSpec
    const generateErr: string

    constructor (spec: DistributionSpec, generateErr: string)
      ensures this.spec == spec && this.generateErr == generateErr
    {
      this.spec := spec;
      this.generateErr := generateErr;
    }

    function GetOneYearCorrelation(): real
    {
      spec.oneYearCorrelation
    }

    method GenerateDistributionWithTrend(errTxt: string) returns (d: DistributionWithTrend, newErrTxt: string)
      ensures fresh(d) && d.spec == spec
      ensures newErrTxt == errTxt + generateErr
    {
      d := new DistributionWithTrend(spec);
      newErrTxt := errTxt + generateErr;
    }
  }

  /** An infinite stream of uniform draws. */
  type Stream = nat -> real

  /** The uniform random source, as an infinite stream of draws and a cursor. */
  class RandomSource {
    const stream: Stream
    var drawn: nat

    constructor (stream: Stream)
      ensures this.stream == stream && drawn == 0
    {
      this.stream := stream;
      drawn := 0;
    }

    /** Unif01(): the next draw of the stream. */
    method Unif01() returns (x: real)
      modifies this
      ensures drawn == old(drawn) + 1 && x == stream(old(drawn))
    {
      x := stream(drawn);
      drawn := drawn + 1;
    }
  }
}
