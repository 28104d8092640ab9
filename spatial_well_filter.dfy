/**
 * The bookkeeping of the spatial well filter: gap filling of blocked-log
 * residuals, the layout of the filtered logs, the accumulation and
 * completion of the noise covariance sigmae per noise configuration, and the
 * prior spatial correlation of a well.
 *
 * `double` and `float` are modelled as `real`; the dense linear algebra that
 * produces the filter is not part of this model and enters as parameters.
 */
module SpatialFilter {
  import opened Common

  /** The prior spatial correlation at offset (i, j, k), read cyclically from the correlation grid. */
  type CorrelationAt = (int, int, int) -> real

  /** The missing-value code of a log sample (RMISSING of definitions.h, which is not part of this model). */
  const RMISSING: real := -99999.0

  //------------------------------------------------------------------------
  // Residuals with gaps filled
  //------------------------------------------------------------------------

  /** Some of the first `n` samples is present. */
  predicate HasPresent(log: seq<real>, n: nat)
    requires n <= |log|
  {
    exists k :: 0 <= k < n && log[k] != RMISSING
  }

  /** The last present sample before `i`, or -1 when there is none. */
  function PrevPresent(log: seq<real>, i: nat): (a: int)
    requires i <= |log|
    ensures -1 <= a < i
    ensures a >= 0 ==> log[a] != RMISSING
  {
    if i == 0 then -1
    else if log[i - 1] != RMISSING then i - 1
    else PrevPresent(log, i - 1)
  }

  /** The first present sample after `i` among the first `n`, or `n` when there is none. */
  function NextPresent(log: seq<real>, n: nat, i: nat): (b: nat)
    requires i < n <= |log|
    ensures i < b <= n
    ensures b < n ==> log[b] != RMISSING
    decreases n - i
  {
    if i + 1 == n then n
    else if log[i + 1] != RMISSING then i + 1
    else NextPresent(log, n, i + 1)
  }

  /** The residual of a present sample: the log minus its background. */
  function Residual(log: seq<real>, bg: seq<real>, i: nat): real
    requires i < |log| && i < |bg|
  {
    log[i] - bg[i]
  }

  /**
   * The residual MakeInterpolatedResiduals assigns to sample `i` of `n`: its
   * own residual when present; in a gap between present samples a and b the
   * linear interpolation w·r_a + (1 - w)·r_b with w = (b - i)/(b - a); before
   * the first present sample the first residual, after the last the last.
   */
  function Interpolated(log: seq<real>, bg: seq<real>, n: nat, i: nat): real
    requires n <= |log| && n <= |bg| && i < n && HasPresent(log, n)
  {
    if log[i] != RMISSING then Residual(log, bg, i)
    else
      var a := PrevPresent(log, i);
      var b := NextPresent(log, n, i);
      if a < 0 then
        assert b < n by { PresentNeighbour(log, n, i); }
        Residual(log, bg, b)
      else if b == n then Residual(log, bg, a)
      else
        Blend(Residual(log, bg, a), Residual(log, bg, b), b - i, b - a)
  }

  /** The weighted mean x·(j/m) + (1 - j/m)·y of a gap sample at distance j from the right end of a span of m. */
  function Blend(x: real, y: real, j: nat, m: nat): real
    requires m > 0
  {
    var w := j as real / m as real;
    x * w + (1.0 - w) * y
  }

  /** The gap-filled residuals of the first `n` samples. */
  function InterpolatedLog(log: seq<real>, bg: seq<real>, n: nat): (r: seq<real>)
    requires n <= |log| && n <= |bg| && HasPresent(log, n)
    ensures |r| == n && forall i :: 0 <= i < n ==> r[i] == Interpolated(log, bg, n, i)
  {
    seq(n, i requires 0 <= i < n => Interpolated(log, bg, n, i))
  }

  /**
   * MakeInterpolatedResiduals: the residuals of the first `n` samples of a
   * log, gaps filled, written to `residuals[offset..offset + n]`. The scan for
   * the first present sample has no bound, so some sample must be present.
   */
  method MakeInterpolatedResiduals(bwLog: seq<real>, bwLogBG: seq<real>, n: nat, offset: nat, residuals: array<real>)
    requires n <= |bwLog| && n <= |bwLogBG| && offset + n <= residuals.Length
    requires HasPresent(bwLog, n)
    modifies residuals
    ensures forall i :: 0 <= i < n ==> residuals[offset + i] == Interpolated(bwLog, bwLogBG, n, i)
    ensures forall k :: 0 <= k < residuals.Length && !(offset <= k < offset + n) ==> residuals[k] == old(residuals[k])
  {
    var firstNonmissing := 0;
    if bwLog[0] == RMISSING {
      ghost var w :| 0 <= w < n && bwLog[w] != RMISSING;
      var i := 1;
      while bwLog[i] == RMISSING
        invariant 1 <= i <= w
        invariant forall t :: 0 <= t < i ==> bwLog[t] == RMISSING
        decreases w - i
      {
        i := i + 1;
      }
      firstNonmissing := i;
      var firstResidual := bwLog[i] - bwLogBG[i];
      for j := 0 to firstNonmissing
        invariant forall t :: 0 <= t < j ==> residuals[offset + t] == Interpolated(bwLog, bwLogBG, n, t)
        invariant forall k :: 0 <= k < residuals.Length && !(offset <= k < offset + j) ==> residuals[k] == old(residuals[k])
      {
        LeadingGap(bwLog, n, firstNonmissing, j);
        residuals[offset + j] := firstResidual;
      }
    }
    var nmiss := 0;
    for i := firstNonmissing to n
      invariant Scanned(bwLog, bwLogBG, n, offset, residuals, firstNonmissing, i, nmiss)
      invariant forall k :: 0 <= k < residuals.Length && !(offset <= k < offset + i) ==> residuals[k] == old(residuals[k])
    {
      nmiss := ScanSample(bwLog, bwLogBG, n, offset, residuals, firstNonmissing, i, nmiss);
    }
    forall t | n - nmiss <= t < n
      ensures residuals[offset + t] == Interpolated(bwLog, bwLogBG, n, t)
    {
      TrailingGap(bwLog, n, n - nmiss - 1, t);
    }
  }

  /**
   * The state of the main loop of MakeInterpolatedResiduals before sample `i`:
   * the last `nmiss` samples form an open gap after a present sample and
   * hold its residual; every sample before the gap has its final value.
   */
  predicate Scanned(bwLog: seq<real>, bwLogBG: seq<real>, n: nat, offset: nat, residuals: array<real>, first: nat, i: nat, nmiss: nat)
    requires n <= |bwLog| && n <= |bwLogBG| && offset + n <= residuals.Length && HasPresent(bwLog, n)
    reads residuals
  {
    first <= i <= n && nmiss <= i - first &&
    (i > first ==> nmiss < i - first && bwLog[i - nmiss - 1] != RMISSING) &&
    (forall t :: i - nmiss <= t < i ==> bwLog[t] == RMISSING) &&
    (forall k :: offset + i - nmiss <= k < offset + i ==> residuals[k] == Residual(bwLog, bwLogBG, i - nmiss - 1)) &&
    (forall t :: 0 <= t < i - nmiss ==> residuals[offset + t] == Interpolated(bwLog, bwLogBG, n, t))
  }

  /** One step of the main loop of MakeInterpolatedResiduals: sample `i` either closes the open gap or extends it. */
  method ScanSample(bwLog: seq<real>, bwLogBG: seq<real>, n: nat, offset: nat, residuals: array<real>, first: nat, i: nat, nmiss: nat)
    returns (nmissNext: nat)
    requires n <= |bwLog| && n <= |bwLogBG| && offset + n <= residuals.Length && HasPresent(bwLog, n)
    requires i < n && Scanned(bwLog, bwLogBG, n, offset, residuals, first, i, nmiss)
    requires i == first ==> bwLog[i] != RMISSING
    modifies residuals
    ensures Scanned(bwLog, bwLogBG, n, offset, residuals, first, i + 1, nmissNext)
    ensures nmissNext == if bwLog[i] != RMISSING then 0 else nmiss + 1
    ensures forall k :: 0 <= k < residuals.Length && !(offset <= k <= offset + i) ==> residuals[k] == old(residuals[k])
  {
    if bwLog[i] != RMISSING {
      var resI := bwLog[i] - bwLogBG[i];
      residuals[offset + i] := resI;
      if nmiss > 0 {
        CloseGap(bwLog, bwLogBG, n, offset, residuals, i, nmiss);
        forall t | i - nmiss <= t < i
          ensures residuals[offset + t] == Interpolated(bwLog, bwLogBG, n, t)
        {
          GapValue(bwLog, bwLogBG, n, i, nmiss, i - t);
        }
      }
      assert residuals[offset + i] == Interpolated(bwLog, bwLogBG, n, i);
      nmissNext := 0;
    } else {
      assert residuals[offset + i - 1] == Residual(bwLog, bwLogBG, i - nmiss - 1) by {
        if nmiss == 0 {
          assert residuals[offset + (i - 1)] == Interpolated(bwLog, bwLogBG, n, i - 1);
        }
      }
      residuals[offset + i] := residuals[offset + i - 1];
      nmissNext := nmiss + 1;
    }
  }

  /**
   * The inner loop of MakeInterpolatedResiduals at a present sample `i` that
   * ends a gap of `nmiss` samples, each still holding the residual before the
   * gap: every gap sample is scaled by its weight and given the rest from `i`.
   */
  method CloseGap(bwLog: seq<real>, bwLogBG: seq<real>, n: nat, offset: nat, residuals: array<real>, i: nat, nmiss: nat)
    requires n <= |bwLog| && n <= |bwLogBG| && offset + n <= residuals.Length && HasPresent(bwLog, n)
    requires nmiss < i < n && bwLog[i] != RMISSING && bwLog[i - nmiss - 1] != RMISSING
    requires forall t :: i - nmiss <= t < i ==> bwLog[t] == RMISSING
    requires forall k :: offset + i - nmiss <= k < offset + i ==> residuals[k] == Residual(bwLog, bwLogBG, i - nmiss - 1)
    modifies residuals
    ensures forall k :: offset + i - nmiss <= k < offset + i ==>
              residuals[k] == Blend(Residual(bwLog, bwLogBG, i - nmiss - 1), Residual(bwLog, bwLogBG, i), offset + i - k, nmiss + 1)
    ensures forall k :: 0 <= k < residuals.Length && !(offset + i - nmiss <= k < offset + i) ==> residuals[k] == old(residuals[k])
  {
    var resI := bwLog[i] - bwLogBG[i];
    for j := 1 to nmiss + 1
      invariant forall k :: offset + i - j < k < offset + i ==>
                  residuals[k] == Blend(Residual(bwLog, bwLogBG, i - nmiss - 1), resI, offset + i - k, nmiss + 1)
      invariant forall k :: offset + i - nmiss <= k <= offset + i - j ==> residuals[k] == Residual(bwLog, bwLogBG, i - nmiss - 1)
      invariant forall k :: 0 <= k < residuals.Length && !(offset + i - j < k < offset + i) ==> residuals[k] == old(residuals[k])
    {
      ScaleAndAdd(residuals, offset + i - j, resI, j, nmiss + 1);
    }
  }

  /** One step of the inner loop: residuals[k] scaled by w, then (1 - w)·res added. */
  method ScaleAndAdd(residuals: array<real>, k: nat, res: real, j: nat, m: nat)
    requires k < residuals.Length && m > 0
    modifies residuals
    ensures residuals[k] == Blend(old(residuals[k]), res, j, m)
    ensures forall s :: 0 <= s < residuals.Length && s != k ==> residuals[s] == old(residuals[s])
  {
    var w := (j as real) / (m as real);
    residuals[k] := residuals[k] * w;
    residuals[k] := residuals[k] + (1.0 - w) * res;
  }

  /** Sample `i - j` of a gap of `nmiss` samples ending before the present sample `i` gets weight j/(nmiss + 1) on the residual before the gap. */
  lemma GapValue(log: seq<real>, bg: seq<real>, n: nat, i: nat, nmiss: nat, j: nat)
    requires n <= |log| && n <= |bg| && HasPresent(log, n)
    requires nmiss < i < n && log[i] != RMISSING && log[i - nmiss - 1] != RMISSING && 1 <= j <= nmiss
    requires forall t :: i - nmiss <= t < i ==> log[t] == RMISSING
    ensures Interpolated(log, bg, n, i - j) == Blend(Residual(log, bg, i - nmiss - 1), Residual(log, bg, i), j, nmiss + 1)
  {
    InteriorGap(log, n, i - nmiss - 1, i, i - j);
  }

  /** A present sample before i is at or before PrevPresent(log, i). */
  lemma {:induction false} PrevPresentAtLeast(log: seq<real>, i: nat, k: nat)
    requires k < i <= |log| && log[k] != RMISSING
    ensures PrevPresent(log, i) >= k
    decreases i
  {
    if log[i - 1] == RMISSING {
      PrevPresentAtLeast(log, i - 1, k);
    }
  }

  /** A present sample after i, among the first n, is at or after NextPresent(log, n, i). */
  lemma {:induction false} NextPresentAtMost(log: seq<real>, n: nat, i: nat, k: nat)
    requires i < k < n <= |log| && log[k] != RMISSING
    ensures NextPresent(log, n, i) <= k
    decreases n - i
  {
    if log[i + 1] == RMISSING {
      NextPresentAtMost(log, n, i + 1, k);
    }
  }

  /** A missing sample of a log with some present sample has a present neighbour on one side. */
  lemma PresentNeighbour(log: seq<real>, n: nat, i: nat)
    requires i < n <= |log| && HasPresent(log, n) && log[i] == RMISSING
    ensures PrevPresent(log, i) >= 0 || NextPresent(log, n, i) < n
  {
    var k: nat :| k < n && log[k] != RMISSING;
    if k < i {
      PrevPresentAtLeast(log, i, k);
    } else {
      NextPresentAtMost(log, n, i, k);
    }
  }

  /** PrevPresent(log, t) is the present sample a when every sample between a and t is missing. */
  lemma {:induction false} PrevPresentIs(log: seq<real>, a: int, t: nat)
    requires -1 <= a < t <= |log| && (a >= 0 ==> log[a] != RMISSING)
    requires forall s :: a < s < t ==> log[s] == RMISSING
    ensures PrevPresent(log, t) == a
    decreases t
  {
    if a < t - 1 {
      PrevPresentIs(log, a, t - 1);
    }
  }

  /** NextPresent(log, n, t) is b when b is present or n, and every sample between t and b is missing. */
  lemma {:induction false} NextPresentIs(log: seq<real>, n: nat, b: nat, t: nat)
    requires t < b <= n <= |log| && (b < n ==> log[b] != RMISSING)
    requires forall s :: t < s < b ==> log[s] == RMISSING
    ensures NextPresent(log, n, t) == b
    decreases n - t
  {
    if t + 1 < b {
      NextPresentIs(log, n, b, t + 1);
    }
  }

  /** Before the first present sample, there is no present sample behind and the first one ahead. */
  lemma LeadingGap(log: seq<real>, n: nat, first: nat, t: nat)
    requires first < n <= |log| && log[first] != RMISSING && t < first
    requires forall s :: 0 <= s < first ==> log[s] == RMISSING
    ensures PrevPresent(log, t) == -1 && NextPresent(log, n, t) == first
  {
    PrevPresentIs(log, -1, t);
    NextPresentIs(log, n, first, t);
  }

  /** Inside a gap between present samples a and b, they are the neighbours. */
  lemma InteriorGap(log: seq<real>, n: nat, a: nat, b: nat, t: nat)
    requires a < t < b < n <= |log| && log[a] != RMISSING && log[b] != RMISSING
    requires forall s :: a < s < b ==> log[s] == RMISSING
    ensures PrevPresent(log, t) == a && NextPresent(log, n, t) == b
  {
    PrevPresentIs(log, a, t);
    NextPresentIs(log, n, b, t);
  }

  /** After the last present sample a, there is none ahead. */
  lemma TrailingGap(log: seq<real>, n: nat, a: nat, t: nat)
    requires a < t < n <= |log| && log[a] != RMISSING
    requires forall s :: a < s < n ==> log[s] == RMISSING
    ensures PrevPresent(log, t) == a && NextPresent(log, n, t) == n
  {
    PrevPresentIs(log, a, t);
    NextPresentIs(log, n, n, t);
  }

  //------------------------------------------------------------------------
  // Dense matrices
  //------------------------------------------------------------------------

  type Matrix = seq<seq<real>>

  predicate IsMatrix(m: Matrix, rows: nat, cols: nat)
  {
    |m| == rows && forall i :: 0 <= i < rows ==> |m[i]| == cols
  }

  predicate IsSymmetric(m: Matrix)
    requires IsMatrix(m, |m|, |m|)
  {
    forall i, j :: 0 <= i < |m| && 0 <= j < |m| ==> m[i][j] == m[j][i]
  }

  function Zero(rows: nat, cols: nat): (z: Matrix)
    ensures IsMatrix(z, rows, cols) && forall i, j :: 0 <= i < rows && 0 <= j < cols ==> z[i][j] == 0.0
  {
    seq(rows, _ => seq(cols, _ => 0.0))
  }

  function Identity(size: nat): (e: Matrix)
    ensures IsMatrix(e, size, size)
  {
    seq(size, i => seq(size, j => if i == j then 1.0 else 0.0))
  }

  /** The matrix with entry (r, c) replaced by x. */
  function SetEntry(m: Matrix, r: nat, c: nat, x: real): (mNext: Matrix)
    requires r < |m| && c < |m[r]|
    ensures |mNext| == |m| && forall i :: 0 <= i < |m| ==> |mNext[i]| == |m[i]|
    ensures mNext[r][c] == x
    ensures forall i, j :: 0 <= i < |m| && 0 <= j < |m[i]| && (i, j) != (r, c) ==> mNext[i][j] == m[i][j]
  {
    m[r := m[r][c := x]]
  }

  function Dot(x: seq<real>, y: seq<real>): real
    requires |x| == |y|
  {
    if |x| == 0 then 0.0 else x[0] * y[0] + Dot(x[1..], y[1..])
  }

  /** The product a·v of a matrix with |v| columns and a vector. */
  function MatVec(a: Matrix, v: seq<real>): (r: seq<real>)
    requires IsMatrix(a, |a|, |v|)
    ensures |r| == |a|
  {
    seq(|a|, i requires 0 <= i < |a| => Dot(a[i], v))
  }

  lemma {:induction false} DotZero(x: seq<real>, y: seq<real>)
    requires |x| == |y| && forall k :: 0 <= k < |x| ==> x[k] == 0.0
    ensures Dot(x, y) == 0.0
    decreases |x|
  {
    if |x| > 0 {
      DotZero(x[1..], y[1..]);
    }
  }

  /** The product with the i-th unit vector picks entry i. */
  lemma {:induction false} DotUnit(x: seq<real>, y: seq<real>, i: nat)
    requires |x| == |y| && i < |x|
    requires forall k :: 0 <= k < |x| ==> x[k] == if k == i then 1.0 else 0.0
    ensures Dot(x, y) == y[i]
    decreases |x|
  {
    if i == 0 {
      DotZero(x[1..], y[1..]);
    } else {
      DotUnit(x[1..], y[1..], i - 1);
    }
  }

  /** The identity filter passes a vector through unchanged. */
  lemma MatVecIdentity(v: seq<real>)
    ensures MatVec(Identity(|v|), v) == v
  {
    var r := MatVec(Identity(|v|), v);
    forall i | 0 <= i < |v|
      ensures r[i] == v[i]
    {
      DotUnit(Identity(|v|)[i], v, i);
    }
  }

  //------------------------------------------------------------------------
  // Filtered logs
  //------------------------------------------------------------------------

  /** A filtered log as handed to setSpatialFilteredLogs: its name, values and background. */
  datatype FilteredLog = FilteredLog(name: string, values: seq<real>, background: seq<real>)

  /**
   * The residual vector of calculateFilteredLogs: the gap-filled residuals of
   * alpha, of beta when Vs is used, and of rho, block after block.
   */
  function ResidualVector(alpha: seq<real>, bgAlpha: seq<real>, beta: seq<real>, bgBeta: seq<real>,
                          rho: seq<real>, bgRho: seq<real>, n: nat, useVs: bool): (v: seq<real>)
    requires n <= |alpha| && n <= |bgAlpha| && n <= |rho| && n <= |bgRho| && HasPresent(alpha, n) && HasPresent(rho, n)
    requires useVs ==> n <= |beta| && n <= |bgBeta| && HasPresent(beta, n)
    ensures |v| == (if useVs then 3 else 2) * n
  {
    InterpolatedLog(alpha, bgAlpha, n) + (if useVs then InterpolatedLog(beta, bgBeta, n) else []) + InterpolatedLog(rho, bgRho, n)
  }

  /** Block `start..start + n` of the filtered vector, with 0 where the raw log is missing. */
  function Masked(log: seq<real>, filtered: seq<real>, n: nat, start: nat): (m: seq<real>)
    requires n <= |log| && start + n <= |filtered|
    ensures |m| == n
  {
    seq(n, i requires 0 <= i < n => if log[i] == RMISSING then 0.0 else filtered[start + i])
  }

  /**
   * calculateFilteredLogs: the residuals of the two or three logs are laid
   * out block after block, multiplied by the filter Aw, and each filtered
   * block is masked by its own raw log. With Vs the three logs get the
   * seismic-resolution names, without it alpha and rho get the facies names.
   */
  method CalculateFilteredLogs(aw: Matrix, alpha: seq<real>, bgAlpha: seq<real>, beta: seq<real>, bgBeta: seq<real>,
                               rho: seq<real>, bgRho: seq<real>, n: nat, useVs: bool) returns (logs: seq<FilteredLog>)
    requires n <= |alpha| && n <= |bgAlpha| && n <= |rho| && n <= |bgRho| && HasPresent(alpha, n) && HasPresent(rho, n)
    requires useVs ==> n <= |beta| && n <= |bgBeta| && HasPresent(beta, n)
    requires var size := (if useVs then 3 else 2) * n; IsMatrix(aw, size, size)
    ensures var filtered := MatVec(aw, ResidualVector(alpha, bgAlpha, beta, bgBeta, rho, bgRho, n, useVs));
            if useVs then
              logs == [FilteredLog("ALPHA_SEISMIC_RESOLUTION", Masked(alpha, filtered, n, 0), bgAlpha[..n]),
                       FilteredLog("BETA_SEISMIC_RESOLUTION", Masked(beta, filtered, n, n), bgBeta[..n]),
                       FilteredLog("RHO_SEISMIC_RESOLUTION", Masked(rho, filtered, n, 2 * n), bgRho[..n])]
            else
              logs == [FilteredLog("ALPHA_FOR_FACIES", Masked(alpha, filtered, n, 0), bgAlpha[..n]),
                       FilteredLog("RHO_FOR_FACIES", Masked(rho, filtered, n, n), bgRho[..n])]
  {
    var residuals := BuildResiduals(alpha, bgAlpha, beta, bgBeta, rho, bgRho, n, useVs);
    var filteredVal := MatVec(aw, residuals[..]);
    var alphaFiltered, betaFiltered, rhoFiltered := MaskFiltered(alpha, beta, rho, filteredVal, n, useVs);
    if useVs {
      logs := [FilteredLog("ALPHA_SEISMIC_RESOLUTION", alphaFiltered, bgAlpha[..n]),
               FilteredLog("BETA_SEISMIC_RESOLUTION", betaFiltered, bgBeta[..n]),
               FilteredLog("RHO_SEISMIC_RESOLUTION", rhoFiltered, bgRho[..n])];
    } else {
      logs := [FilteredLog("ALPHA_FOR_FACIES", alphaFiltered, bgAlpha[..n]),
               FilteredLog("RHO_FOR_FACIES", rhoFiltered, bgRho[..n])];
    }
  }

  /** The residual vector of calculateFilteredLogs, written block by block by MakeInterpolatedResiduals. */
  method BuildResiduals(alpha: seq<real>, bgAlpha: seq<real>, beta: seq<real>, bgBeta: seq<real>,
                        rho: seq<real>, bgRho: seq<real>, n: nat, useVs: bool) returns (residuals: array<real>)
    requires n <= |alpha| && n <= |bgAlpha| && n <= |rho| && n <= |bgRho| && HasPresent(alpha, n) && HasPresent(rho, n)
    requires useVs ==> n <= |beta| && n <= |bgBeta| && HasPresent(beta, n)
    ensures fresh(residuals) && residuals[..] == ResidualVector(alpha, bgAlpha, beta, bgBeta, rho, bgRho, n, useVs)
  {
    var nLogs := 2;
    if useVs {
      nLogs := nLogs + 1;
    }
    residuals := new real[nLogs * n];
    var currentEnd := 0;
    MakeInterpolatedResiduals(alpha, bgAlpha, n, currentEnd, residuals);
    currentEnd := currentEnd + n;
    if useVs {
      MakeInterpolatedResiduals(beta, bgBeta, n, currentEnd, residuals);
      currentEnd := currentEnd + n;
    }
    MakeInterpolatedResiduals(rho, bgRho, n, currentEnd, residuals);
    var mid := if useVs then InterpolatedLog(beta, bgBeta, n) else [];
    Blocks(residuals[..], InterpolatedLog(alpha, bgAlpha, n), mid, InterpolatedLog(rho, bgRho, n));
  }

  /**
   * The masking loop of calculateFilteredLogs: sample i of each log is 0
   * where the raw log is missing, else the filtered value in that log's block.
   */
  method MaskFiltered(alpha: seq<real>, beta: seq<real>, rho: seq<real>, filteredVal: seq<real>, n: nat, useVs: bool)
    returns (alphaFiltered: seq<real>, betaFiltered: seq<real>, rhoFiltered: seq<real>)
    requires n <= |alpha| && n <= |rho| && (useVs ==> n <= |beta|)
    requires |filteredVal| == (if useVs then 3 else 2) * n
    ensures alphaFiltered == Masked(alpha, filteredVal, n, 0)
    ensures useVs ==> betaFiltered == Masked(beta, filteredVal, n, n)
    ensures rhoFiltered == Masked(rho, filteredVal, n, if useVs then 2 * n else n)
  {
    var alphaF := new real[n];
    var betaF := new real[n];
    var rhoF := new real[n];
    for i := 0 to n
      invariant forall t :: 0 <= t < i ==> alphaF[t] == if alpha[t] == RMISSING then 0.0 else filteredVal[t]
      invariant useVs ==> forall t :: 0 <= t < i ==> betaF[t] == if beta[t] == RMISSING then 0.0 else filteredVal[n + t]
      invariant var rhoStart := if useVs then 2 * n else n;
                forall t :: 0 <= t < i ==> rhoF[t] == if rho[t] == RMISSING then 0.0 else filteredVal[rhoStart + t]
    {
      var offset := 0;
      if alpha[i] == RMISSING {
        alphaF[i] := 0.0;
      } else {
        alphaF[i] := filteredVal[i + offset];
      }
      offset := offset + n;
      if useVs {
        if beta[i] == RMISSING {
          betaF[i] := 0.0;
        } else {
          betaF[i] := filteredVal[i + offset];
        }
        offset := offset + n;
      }
      if rho[i] == RMISSING {
        rhoF[i] := 0.0;
      } else {
        rhoF[i] := filteredVal[i + offset];
      }
    }
    alphaFiltered, betaFiltered, rhoFiltered := alphaF[..], betaF[..], rhoF[..];
  }

  /** A vector that agrees with three blocks, one after the other, is their concatenation. */
  lemma Blocks(v: seq<real>, a: seq<real>, mid: seq<real>, r: seq<real>)
    requires |v| == |a| + |mid| + |r|
    requires forall i :: 0 <= i < |a| ==> v[i] == a[i]
    requires forall i :: 0 <= i < |mid| ==> v[|a| + i] == mid[i]
    requires forall i :: 0 <= i < |r| ==> v[|a| + |mid| + i] == r[i]
    ensures v == a + mid + r
  {
    forall k | 0 <= k < |v|
      ensures v[k] == (a + mid + r)[k]
    {
      if |a| <= k < |a| + |mid| {
        assert v[|a| + (k - |a|)] == mid[k - |a|];
      } else if |a| + |mid| <= k {
        assert v[|a| + |mid| + (k - |a| - |mid|)] == r[k - |a| - |mid|];
      }
    }
  }


  /**
   * The layout lines each filtered log up with its own block: with the
   * identity as filter, every present sample of each log comes back as its
   * own residual.
   */
  lemma IdentityFilterLayout(alpha: seq<real>, bgAlpha: seq<real>, beta: seq<real>, bgBeta: seq<real>,
                             rho: seq<real>, bgRho: seq<real>, n: nat, useVs: bool)
    requires n <= |alpha| && n <= |bgAlpha| && n <= |rho| && n <= |bgRho| && HasPresent(alpha, n) && HasPresent(rho, n)
    requires useVs ==> n <= |beta| && n <= |bgBeta| && HasPresent(beta, n)
    ensures var v := ResidualVector(alpha, bgAlpha, beta, bgBeta, rho, bgRho, n, useVs);
            var filtered := MatVec(Identity(|v|), v);
            var rhoStart := if useVs then 2 * n else n;
            (forall i :: 0 <= i < n && alpha[i] != RMISSING ==> Masked(alpha, filtered, n, 0)[i] == Residual(alpha, bgAlpha, i)) &&
            (useVs ==> forall i :: 0 <= i < n && beta[i] != RMISSING ==> Masked(beta, filtered, n, n)[i] == Residual(beta, bgBeta, i)) &&
            (forall i :: 0 <= i < n && rho[i] != RMISSING ==> Masked(rho, filtered, n, rhoStart)[i] == Residual(rho, bgRho, i))
  {
    var v := ResidualVector(alpha, bgAlpha, beta, bgBeta, rho, bgRho, n, useVs);
    MatVecIdentity(v);
    var a, r := InterpolatedLog(alpha, bgAlpha, n), InterpolatedLog(rho, bgRho, n);
    var mid := if useVs then InterpolatedLog(beta, bgBeta, n) else [];
    var rhoStart := if useVs then 2 * n else n;
    assert v == a + mid + r && |mid| == rhoStart - n;
    forall i | 0 <= i < n
      ensures v[i] == a[i] && v[rhoStart + i] == r[i] && (useVs ==> v[n + i] == mid[i])
    {
    }
  }

  //------------------------------------------------------------------------
  // Noise covariance bookkeeping
  //------------------------------------------------------------------------

  /** 2^k, the number of local-noise configurations of k angles. */
  function Pow2(k: nat): (p: nat)
    ensures p >= 1
  {
    if k == 0 then 1 else 2 * Pow2(k - 1)
  }

  /**
   * Sum of the diagonal of the m×m block of w whose top-left corner is
   * (rowStart, colStart): the trace updateSigmaE adds for one entry.
   */
  function BlockTrace(w: Matrix, rowStart: nat, colStart: nat, m: nat): real
    requires rowStart + m <= |w| && forall i :: 0 <= i < |w| ==> colStart + m <= |w[i]|
  {
    if m == 0 then 0.0 else BlockTrace(w, rowStart, colStart, m - 1) + w[rowStart + m - 1][colStart + m - 1]
  }

  /** The block traces of a symmetric matrix are symmetric in the two block positions. */
  lemma {:induction false} BlockTraceTranspose(w: Matrix, rowStart: nat, colStart: nat, m: nat)
    requires IsMatrix(w, |w|, |w|) && IsSymmetric(w) && rowStart + m <= |w| && colStart + m <= |w|
    ensures BlockTrace(w, rowStart, colStart, m) == BlockTrace(w, colStart, rowStart, m)
  {
    if m > 0 {
      BlockTraceTranspose(w, rowStart, colStart, m - 1);
      assert w[rowStart + m - 1][colStart + m - 1] == w[colStart + m - 1][rowStart + m - 1];
    }
  }

  /**
   * The 3×3 sigmae s after the first m samples of updateSigmaE, started from
   * s0: each lower entry (r, c) has gained the trace of block (r, c) of w, the
   * upper entries are as they were.
   */
  predicate Accumulated3(s: Matrix, s0: Matrix, w: Matrix, n: nat, m: nat)
    requires IsMatrix(w, 3 * n, 3 * n) && m <= n
  {
    IsMatrix(s, 3, 3) && IsMatrix(s0, 3, 3) &&
    s[0][0] == s0[0][0] + BlockTrace(w, 0, 0, m) &&
    s[1][0] == s0[1][0] + BlockTrace(w, n, 0, m) &&
    s[2][0] == s0[2][0] + BlockTrace(w, 2 * n, 0, m) &&
    s[1][1] == s0[1][1] + BlockTrace(w, n, n, m) &&
    s[2][1] == s0[2][1] + BlockTrace(w, 2 * n, n, m) &&
    s[2][2] == s0[2][2] + BlockTrace(w, 2 * n, 2 * n, m) &&
    s[0][1] == s0[0][1] && s[0][2] == s0[0][2] && s[1][2] == s0[1][2]
  }

  /** The 2×2 counterpart of Accumulated3 for the Vp-rho filter, whose blocks are n×n. */
  predicate Accumulated2(s: Matrix, s0: Matrix, w: Matrix, n: nat, m: nat)
    requires IsMatrix(w, 2 * n, 2 * n) && m <= n
  {
    IsMatrix(s, 2, 2) && IsMatrix(s0, 2, 2) &&
    s[0][0] == s0[0][0] + BlockTrace(w, 0, 0, m) &&
    s[1][0] == s0[1][0] + BlockTrace(w, n, 0, m) &&
    s[1][1] == s0[1][1] + BlockTrace(w, n, n, m) &&
    s[0][1] == s0[0][1]
  }

  /** The lower entry (r, c) or the mirror of an upper one. */
  function Lower(m: Matrix, r: nat, c: nat): real
    requires r < |m| && c < |m| && IsMatrix(m, |m|, |m|)
  {
    if c <= r then m[r][c] else m[c][r]
  }

  /** The local-noise scale of each angle in configuration conf: the maximum scale where bit `angle` of conf is set. */
  function ConfScale(conf: nat, maxScale: seq<real>): (scale: seq<real>)
    ensures |scale| == |maxScale|
  {
    seq(|maxScale|, a requires 0 <= a < |maxScale| => if Bit(conf, a) then maxScale[a] else 1.0)
  }

  /** Bit a of conf. */
  predicate Bit(conf: nat, a: nat)
  {
    (conf / Pow2(a)) % 2 == 1
  }

  /**
   * The per-configuration loop of completeSigmaE and completeSigmaEVpRho:
   * angle by angle, with factor = 2^angle, the scale is the maximum scale
   * where bit `angle` of conf is set and 1 otherwise. The source tests the
   * bit as `conf & factor`; here it is `(conf / factor) % 2`.
   */
  method ConfScales(conf: nat, maxScale: seq<real>) returns (scale: seq<real>)
    ensures scale == ConfScale(conf, maxScale)
  {
    scale := seq(|maxScale|, _ => 1.0);
    var factor := 1;
    for angle := 0 to |maxScale|
      invariant |scale| == |maxScale| && factor == Pow2(angle)
      invariant forall a :: 0 <= a < angle ==> scale[a] == if Bit(conf, a) then maxScale[a] else 1.0
    {
      if (conf / factor) % 2 == 1 {
        scale := scale[angle := maxScale[angle]];
      } else {
        scale := scale[angle := 1.0];
      }
      factor := factor * 2;
    }
  }

  /** Dividing by 2m is dividing by 2, then by m. */
  lemma DivTwice(c: nat, m: nat)
    requires m > 0
    ensures c / (2 * m) == (c / 2) / m
  {
    var h, q, r := c / 2, (c / 2) / m, (c / 2) % m;
    assert c == 2 * h + c % 2;
    assert h == m * q + r;
    assert c == (2 * m) * q + (2 * r + c % 2);
    assert 0 <= 2 * r + c % 2 < 2 * m;
    DivUnique(c, 2 * m, q, 2 * r + c % 2);
  }

  lemma DivUnique(c: int, d: int, q: int, s: int)
    requires d > 0 && c == d * q + s && 0 <= s < d
    ensures c / d == q
  {
    var q2, s2 := c / d, c % d;
    assert c == d * q2 + s2 && 0 <= s2 < d;
    if q2 < q {
      MulStep(d, q2, q);
      assert false;
    } else if q2 > q {
      MulStep(d, q, q2);
      assert false;
    }
  }

  lemma {:induction false} MulStep(d: int, x: int, y: int)
    requires d > 0 && x < y
    ensures d * x + d <= d * y
    decreases y - x
  {
    if x + 1 < y {
      MulStep(d, x, y - 1);
      assert d * y == d * (y - 1) + d;
    } else {
      assert d * y == d * x + d;
    }
  }

  /** Bit a + 1 of c is bit a of c / 2. */
  lemma BitHalf(c: nat, a: nat)
    ensures Bit(c, a + 1) <==> Bit(c / 2, a)
  {
    DivTwice(c, Pow2(a));
  }

  /** Two configurations below 2^k differ in one of their k bits. */
  lemma {:induction false} ConfigurationsDiffer(c1: nat, c2: nat, k: nat)
    requires c1 < Pow2(k) && c2 < Pow2(k) && c1 != c2
    ensures exists a :: 0 <= a < k && (Bit(c1, a) <==> !Bit(c2, a))
  {
    if c1 % 2 != c2 % 2 {
      assert Bit(c1, 0) <==> !Bit(c2, 0);
    } else {
      assert k > 0;
      assert c1 / 2 != c2 / 2 && c1 / 2 < Pow2(k - 1) && c2 / 2 < Pow2(k - 1);
      ConfigurationsDiffer(c1 / 2, c2 / 2, k - 1);
      var b :| 0 <= b < k - 1 && (Bit(c1 / 2, b) <==> !Bit(c2 / 2, b));
      BitHalf(c1, b);
      BitHalf(c2, b);
      assert Bit(c1, b + 1) <==> !Bit(c2, b + 1);
    }
  }

  /** When no maximum scale is 1, the 2^k configurations of k angles give 2^k different scale vectors. */
  lemma DistinctScales(c1: nat, c2: nat, maxScale: seq<real>)
    requires c1 < Pow2(|maxScale|) && c2 < Pow2(|maxScale|) && c1 != c2
    requires forall a :: 0 <= a < |maxScale| ==> maxScale[a] != 1.0
    ensures ConfScale(c1, maxScale) != ConfScale(c2, maxScale)
  {
    ConfigurationsDiffer(c1, c2, |maxScale|);
    var a :| 0 <= a < |maxScale| && (Bit(c1, a) <==> !Bit(c2, a));
    assert ConfScale(c1, maxScale)[a] != ConfScale(c2, maxScale)[a];
  }

  /**
   * The Vp-rho sigmae of completeSigmaEVpRho as written: the accumulated
   * entries divided by lastn, and the upper entry copied from entry (1, 0)
   * of the three-parameter sigmae instead of its own.
   */
  function VpRhoCompletedAsWritten(v: Matrix, sigmae0: Matrix, lastn: nat): (r: Matrix)
    requires IsMatrix(v, 2, 2) && IsMatrix(sigmae0, 3, 3) && lastn > 0
    ensures IsMatrix(r, 2, 2) && r[0][1] == sigmae0[1][0]
    ensures r[0][0] == v[0][0] / lastn as real && r[1][0] == v[1][0] / lastn as real && r[1][1] == v[1][1] / lastn as real
  {
    var d := lastn as real;
    [[v[0][0] / d, sigmae0[1][0]], [v[1][0] / d, v[1][1] / d]]
  }

  /** As written, the completed Vp-rho sigmae need not be symmetric. */
  lemma VpRhoAsWrittenAsymmetric()
    ensures var r := VpRhoCompletedAsWritten([[1.0, 0.0], [0.5, 1.0]], Zero(3, 3), 1);
            IsMatrix(r, 2, 2) && !IsSymmetric(r)
  {
    var r := VpRhoCompletedAsWritten([[1.0, 0.0], [0.5, 1.0]], Zero(3, 3), 1);
    assert r[1][0] == 0.5 && r[0][1] == 0.0;
  }

  /** The Vp-rho sigmae completed like the three-parameter one: normalised, then mirrored from its own lower entry. */
  function VpRhoCompleted(v: Matrix, lastn: nat): (r: Matrix)
    requires IsMatrix(v, 2, 2) && lastn > 0
    ensures IsMatrix(r, 2, 2) && IsSymmetric(r)
    ensures forall i, j :: 0 <= i < 2 && 0 <= j < 2 ==> r[i][j] == Lower(v, i, j) / lastn as real
  {
    var d := lastn as real;
    [[v[0][0] / d, v[1][0] / d], [v[1][0] / d, v[1][1] / d]]
  }

  /**
   * updateSigmaEVpRho: on first use the list gets nDim zero 2×2 matrices;
   * then the first one gains the block traces of sigma = Aw·Spost, the
   * product of the Vp-rho filter and posterior covariance.
   */
  method UpdateSigmaEVpRho(sigmaeVpRho: seq<Matrix>, sigma: Matrix, nDim: nat, n: nat) returns (r: seq<Matrix>)
    requires IsMatrix(sigma, 2 * n, 2 * n)
    requires |sigmaeVpRho| == 0 ==> nDim > 0
    requires |sigmaeVpRho| > 0 ==> IsMatrix(sigmaeVpRho[0], 2, 2)
    ensures var start := if |sigmaeVpRho| == 0 then seq(nDim, _ => Zero(2, 2)) else sigmaeVpRho;
            |r| == |start| && r[1..] == start[1..] &&
            Accumulated2(r[0], start[0], sigma, n, n)
  {
    var list := sigmaeVpRho;
    if |list| == 0 {
      list := ZeroList(nDim, 2);
    }
    var s := list[0];
    for i := 0 to n
      invariant Accumulated2(s, list[0], sigma, n, i)
    {
      s := SetEntry(s, 0, 0, s[0][0] + sigma[i][i]);
      s := SetEntry(s, 1, 0, s[1][0] + sigma[i + n][i]);
      s := SetEntry(s, 1, 1, s[1][1] + sigma[i + n][i + n]);
    }
    r := list[0 := s];
  }

  /**
   * completeSigmaEVpRho, up to the eigenvalue adjustment: the first
   * Vp-rho sigmae normalised by the number of filtered samples and mirrored.
   */
  method CompleteSigmaEVpRho(sigmaeVpRho: seq<Matrix>, lastn: nat) returns (r: seq<Matrix>)
    requires |sigmaeVpRho| > 0 && IsMatrix(sigmaeVpRho[0], 2, 2) && lastn > 0
    ensures r == sigmaeVpRho[0 := VpRhoCompleted(sigmaeVpRho[0], lastn)]
  {
    var s := sigmaeVpRho[0];
    var d := lastn as real;
    s := SetEntry(s, 0, 0, s[0][0] / d);
    s := SetEntry(s, 1, 0, s[1][0] / d);
    s := SetEntry(s, 1, 1, s[1][1] / d);
    s := SetEntry(s, 0, 1, s[1][0]);
    var v := VpRhoCompleted(sigmaeVpRho[0], lastn);
    assert s[0] == v[0] && s[1] == v[1];
    assert s == v;
    r := sigmaeVpRho[0 := s];
  }

  /** The three-parameter sigmae completed: normalised by lastn, then mirrored from its lower triangle. */
  function Completed3(v: Matrix, lastn: nat): (r: Matrix)
    requires IsMatrix(v, 3, 3) && lastn > 0
    ensures IsMatrix(r, 3, 3) && IsSymmetric(r)
    ensures forall i, j :: 0 <= i < 3 && 0 <= j < 3 ==> r[i][j] == Lower(v, i, j) / lastn as real
  {
    var d := lastn as real;
    [[v[0][0] / d, v[1][0] / d, v[2][0] / d],
     [v[1][0] / d, v[1][1] / d, v[2][1] / d],
     [v[2][0] / d, v[2][1] / d, v[2][2] / d]]
  }

  /**
   * Accumulating only the lower triangle and mirroring loses nothing: for a
   * symmetric sigmaeW and a symmetric start, the completed sigmae is, entry
   * by entry, the start plus the trace of the corresponding block, over lastn.
   */
  lemma MirroredAccumulation(s: Matrix, s0: Matrix, w: Matrix, n: nat, lastn: nat)
    requires IsMatrix(w, 3 * n, 3 * n) && IsSymmetric(w) && lastn > 0
    requires Accumulated3(s, s0, w, n, n) && IsSymmetric(s0)
    ensures var start := [0, n, 2 * n];
            forall r, c :: 0 <= r < 3 && 0 <= c < 3 ==>
              Completed3(s, lastn)[r][c] == (s0[r][c] + BlockTrace(w, start[r], start[c], n)) / lastn as real
  {
    BlockTraceTranspose(w, n, 0, n);
    BlockTraceTranspose(w, 2 * n, 0, n);
    BlockTraceTranspose(w, 2 * n, n, n);
  }

  /**
   * The spatial well filter's state: per well the prior spatial correlation
   * of its blocked samples once set, and the noise covariance sigmae of each
   * local-noise configuration.
   */
  class SpatialWellFilter {
    const nWells: nat
    var priorSpatialCorr: seq<Option<Matrix>>
    var sigmae: seq<Matrix>

    constructor (nwells: nat)
      ensures nWells == nwells && priorSpatialCorr == seq(nwells, _ => None) && sigmae == []
    {
      nWells := nwells;
      var corr: seq<Option<Matrix>> := [];
      for i := 0 to nwells
        invariant corr == seq(i, _ => None)
      {
        corr := corr + [None];
      }
      priorSpatialCorr := corr;
      sigmae := [];
    }

    /**
     * setPriorSpatialCorr: the n×n correlation of well `wellnr`'s blocked
     * samples, entry (l1, l2) for l2 <= l1 read from the correlation grid at
     * the index offset of sample l1 from sample l2, and mirrored above the
     * diagonal. `corrAt` is the grid's cyclic lookup.
     */
    method SetPriorSpatialCorr(corrAt: CorrelationAt, ipos: seq<int>, jpos: seq<int>, kpos: seq<int>,
                               n: nat, wellnr: nat)
      requires wellnr < |priorSpatialCorr| && n <= |ipos| && n <= |jpos| && n <= |kpos|
      modifies this
      ensures priorSpatialCorr == old(priorSpatialCorr)[wellnr := Some(SpatialCorr(corrAt, ipos, jpos, kpos, n))]
      ensures sigmae == old(sigmae)
    {
      var corr := FillSpatialCorr(corrAt, ipos, jpos, kpos, n);
      priorSpatialCorr := priorSpatialCorr[wellnr := Some(corr)];
    }

    /**
     * The initialisation of sigmae in doFiltering: nDim = 2^nAngles
     * configurations, each with a zero 3×3 sigmae, unless sigmae is already set.
     */
    method InitSigmaE(nAngles: nat) returns (nDim: nat)
      modifies this
      ensures nDim == Pow2(nAngles)
      ensures sigmae == if old(sigmae) == [] then seq(nDim, _ => Zero(3, 3)) else old(sigmae)
      ensures priorSpatialCorr == old(priorSpatialCorr)
    {
      nDim := 1;
      for i := 0 to nAngles
        invariant nDim == Pow2(i)
      {
        nDim := nDim * 2;
      }
      if |sigmae| == 0 {
        sigmae := ZeroList(nDim, 3);
      }
    }

    /**
     * updateSigmaE: sigmae[0] gains, in each of its lower entries (r, c), the
     * trace of block (r, c) of sigmaeW, the product Filter·PostCov of the
     * filter and the posterior covariance; the upper entries are left for
     * completeSigmaE to mirror.
     */
    method UpdateSigmaE(sigmaeW: Matrix, n: nat)
      requires |sigmae| > 0 && IsMatrix(sigmae[0], 3, 3)
      requires IsMatrix(sigmaeW, 3 * n, 3 * n)
      modifies this
      ensures |sigmae| == old(|sigmae|) && sigmae[1..] == old(sigmae[1..])
      ensures Accumulated3(sigmae[0], old(sigmae[0]), sigmaeW, n, n)
      ensures priorSpatialCorr == old(priorSpatialCorr)
    {
      var s := sigmae[0];
      for i := 0 to n
        invariant Accumulated3(s, sigmae[0], sigmaeW, n, i)
      {
        s := SetEntry(s, 0, 0, s[0][0] + sigmaeW[i][i]);
        s := SetEntry(s, 1, 0, s[1][0] + sigmaeW[i + n][i]);
        s := SetEntry(s, 2, 0, s[2][0] + sigmaeW[i + 2 * n][i]);
        s := SetEntry(s, 1, 1, s[1][1] + sigmaeW[i + n][i + n]);
        s := SetEntry(s, 2, 1, s[2][1] + sigmaeW[i + 2 * n][i + n]);
        s := SetEntry(s, 2, 2, s[2][2] + sigmaeW[i + 2 * n][i + 2 * n]);
      }
      sigmae := sigmae[0 := s];
    }

    /**
     * completeSigmaE, up to the eigenvalue adjustment and the local-noise
     * configurations: the six accumulated entries of sigmae[0] divided by
     * the number of filtered samples, and the upper triangle mirrored from
     * the lower one.
     */
    method CompleteSigmaE(lastn: nat)
      requires |sigmae| > 0 && IsMatrix(sigmae[0], 3, 3) && lastn > 0
      modifies this
      ensures sigmae == old(sigmae)[0 := Completed3(old(sigmae[0]), lastn)]
      ensures priorSpatialCorr == old(priorSpatialCorr)
    {
      var s := sigmae[0];
      var d := lastn as real;
      s := SetEntry(s, 0, 0, s[0][0] / d);
      s := SetEntry(s, 1, 0, s[1][0] / d);
      s := SetEntry(s, 1, 1, s[1][1] / d);
      s := SetEntry(s, 2, 0, s[2][0] / d);
      s := SetEntry(s, 2, 1, s[2][1] / d);
      s := SetEntry(s, 2, 2, s[2][2] / d);
      s := SetEntry(s, 0, 1, s[1][0]);
      s := SetEntry(s, 0, 2, s[2][0]);
      s := SetEntry(s, 1, 2, s[2][1]);
      var v := Completed3(sigmae[0], lastn);
      assert s[0] == v[0] && s[1] == v[1] && s[2] == v[2];
      assert s == v;
      sigmae := sigmae[0 := s];
    }

    /**
     * completeSigmaEVpRho as the filter runs it, up to the eigenvalue
     * adjustment: the upper entry is read from this filter's own sigmae[0],
     * the three-parameter matrix, rather than from the Vp-rho one.
     */
    method CompleteSigmaEVpRhoAsWritten(sigmaeVpRho: seq<Matrix>, lastn: nat) returns (r: seq<Matrix>)
      requires |sigmaeVpRho| > 0 && IsMatrix(sigmaeVpRho[0], 2, 2) && lastn > 0
      requires |sigmae| > 0 && IsMatrix(sigmae[0], 3, 3)
      ensures r == sigmaeVpRho[0 := VpRhoCompletedAsWritten(sigmaeVpRho[0], sigmae[0], lastn)]
    {
      var s := sigmaeVpRho[0];
      var d := lastn as real;
      s := SetEntry(s, 0, 0, s[0][0] / d);
      s := SetEntry(s, 1, 0, s[1][0] / d);
      s := SetEntry(s, 1, 1, s[1][1] / d);
      s := SetEntry(s, 0, 1, sigmae[0][1][0]);
      var v := VpRhoCompletedAsWritten(sigmaeVpRho[0], sigmae[0], lastn);
      assert s[0] == v[0] && s[1] == v[1];
      assert s == v;
      r := sigmaeVpRho[0 := s];
    }
  }

  /** The fill loop of setPriorSpatialCorr: row by row, each entry on or below the diagonal and its mirror. */
  method FillSpatialCorr(corrAt: CorrelationAt, ipos: seq<int>, jpos: seq<int>, kpos: seq<int>, n: nat)
    returns (corr: Matrix)
    requires n <= |ipos| && n <= |jpos| && n <= |kpos|
    ensures corr == SpatialCorr(corrAt, ipos, jpos, kpos, n)
  {
    var m := new real[n, n];
    for l1 := 0 to n
      invariant forall r, c :: 0 <= r < l1 && 0 <= c < l1 ==> m[r, c] == SpatialCorrEntry(corrAt, ipos, jpos, kpos, r, c)
    {
      for l2 := 0 to l1 + 1
        invariant forall r, c :: 0 <= r < l1 && 0 <= c < l1 ==> m[r, c] == SpatialCorrEntry(corrAt, ipos, jpos, kpos, r, c)
        invariant forall c :: 0 <= c < l2 ==>
                    m[l1, c] == SpatialCorrEntry(corrAt, ipos, jpos, kpos, l1, c) &&
                    m[c, l1] == SpatialCorrEntry(corrAt, ipos, jpos, kpos, c, l1)
      {
        m[l1, l2] := corrAt(ipos[l1] - ipos[l2], jpos[l1] - jpos[l2], kpos[l1] - kpos[l2]);
        m[l2, l1] := m[l1, l2];
      }
    }
    corr := seq(n, r requires 0 <= r < n reads m => seq(n, c requires 0 <= c < n reads m => m[r, c]));
    forall r | 0 <= r < n
      ensures corr[r] == SpatialCorr(corrAt, ipos, jpos, kpos, n)[r]
    {
    }
  }

  /** A list of `count` zero square matrices of size `size`. */
  method ZeroList(count: nat, size: nat) returns (list: seq<Matrix>)
    ensures list == seq(count, _ => Zero(size, size))
  {
    list := [];
    for k := 0 to count
      invariant list == seq(k, _ => Zero(size, size))
    {
      list := list + [Zero(size, size)];
    }
  }

  /** Entry (r, c) of the prior spatial correlation: the lookup at the offset of the later sample from the earlier. */
  function SpatialCorrEntry(corrAt: CorrelationAt, ipos: seq<int>, jpos: seq<int>, kpos: seq<int>, r: nat, c: nat): real
    requires r < |ipos| && r < |jpos| && r < |kpos| && c < |ipos| && c < |jpos| && c < |kpos|
  {
    if c <= r then corrAt(ipos[r] - ipos[c], jpos[r] - jpos[c], kpos[r] - kpos[c])
    else corrAt(ipos[c] - ipos[r], jpos[c] - jpos[r], kpos[c] - kpos[r])
  }

  /** The prior spatial correlation of n blocked samples: symmetric, with the zero-offset lookup on the diagonal. */
  function SpatialCorr(corrAt: CorrelationAt, ipos: seq<int>, jpos: seq<int>, kpos: seq<int>, n: nat): (m: Matrix)
    requires n <= |ipos| && n <= |jpos| && n <= |kpos|
    ensures IsMatrix(m, n, n) && IsSymmetric(m)
    ensures forall r :: 0 <= r < n ==> m[r][r] == corrAt(0, 0, 0)
  {
    seq(n, r requires 0 <= r < n => seq(n, c requires 0 <= c < n => SpatialCorrEntry(corrAt, ipos, jpos, kpos, r, c)))
  }

  /** For a correlation that is even in the offset, every entry is the lookup at its own offset. */
  lemma EvenSpatialCorr(corrAt: CorrelationAt, ipos: seq<int>, jpos: seq<int>, kpos: seq<int>, n: nat)
    requires n <= |ipos| && n <= |jpos| && n <= |kpos|
    requires forall x, y, z :: corrAt(-x, -y, -z) == corrAt(x, y, z)
    ensures forall r, c :: 0 <= r < n && 0 <= c < n ==>
              SpatialCorr(corrAt, ipos, jpos, kpos, n)[r][c] == corrAt(ipos[r] - ipos[c], jpos[r] - jpos[c], kpos[r] - kpos[c])
  {
    forall r, c | 0 <= r < n && 0 <= c < n && r < c
      ensures SpatialCorr(corrAt, ipos, jpos, kpos, n)[r][c] == corrAt(ipos[r] - ipos[c], jpos[r] - jpos[c], kpos[r] - kpos[c])
    {
      var x, y, z := ipos[c] - ipos[r], jpos[c] - jpos[r], kpos[c] - kpos[r];
      assert corrAt(-x, -y, -z) == corrAt(x, y, z);
    }
  }
}
