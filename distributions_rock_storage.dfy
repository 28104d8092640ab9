/**
 * The vintage factory of the rock-physics configuration: each rock storage
 * turns its configured lists (one entry per vintage, possibly fewer vintages
 * than the longest list) into one built rock per vintage. Missing vintages
 * are carried forward from the previous one: distributions with trend are
 * cloned, constituent and bound models are shared. Diagnostics are appended
 * to error texts, never removed.
 */
module RockStorage {
  import opened Common
  import opened Distributions

  datatype MixMethod = Reuss | Voigt | Hill

  /** DEMTools::TabulatedMethod: the elastic variables a tabulated rock is given in. */
  datatype TabulatedKind = Velocity | Modulus

  /** ModelSettings constituent types, as FindMixTypesForRock reports them. */
  datatype ConstituentType = Fluid | Solid | DryRock | Rock

  /** Solid and fluid models are built by their own storages; only their identity matters here. */
  class DistributionsSolid {
    constructor () {}
  }

  class DistributionsFluid {
    constructor () {}
  }

  /** The parts a built rock is made of, one variant per rock class. */
  datatype RockKind =
    | Tabulated(elastic: seq<DistributionWithTrend?>, correlations: seq<real>,
                tabulated: TabulatedKind, alpha: seq<real>)
    | MixOfRock(rocks: seq<DistributionsRock?>, fractions: seq<DistributionWithTrend?>,
                mix: MixMethod, alpha: seq<real>)
    | MixOfSolidAndFluid(solids: seq<DistributionsSolid?>, fluids: seq<DistributionsFluid?>,
                         solidFractions: seq<DistributionWithTrend?>,
                         fluidFractions: seq<DistributionWithTrend?>,
                         mix: MixMethod, alpha: seq<real>)
    | Dem(host: DistributionsSolid?, inclusions: seq<DistributionsFluid?>,
          aspectRatios: seq<DistributionWithTrend?>, fractions: seq<DistributionWithTrend?>,
          alpha: seq<real>)
    | Bounding(upper: DistributionsRock?, lower: DistributionsRock?,
               weights: seq<DistributionWithTrend?>, correlationWeights: real, alpha: seq<real>)

  class DistributionsRock {
    const kind: RockKind

    constructor (kind: RockKind)
      ensures this.kind == kind
    {
      this.kind := kind;
    }
  }

  /** What FindMixTypesForRock reports about a list of constituent labels. */
  datatype MixTypes = MixTypes(mixRock: bool, mixSolid: bool, mixFluid: bool,
                               types: seq<ConstituentType>, err: string)

  /** A label's models over its vintages, as one of the kit's reads returns them. */
  type Reader<T> = string -> seq<T>

  /** The diagnostics one of the kit's reads appends for a label. */
  type Diagnostics = string -> string

  /** The diagnostics of the volume-fraction check on one vintage's fraction distributions. */
  type VolumeCheck = seq<Option<DistributionSpec>> -> string

  /**
   * The storage kit's helpers whose bodies are not part of this model: each
   * read returns the (cached) models of a label over its vintages and the
   * diagnostics it appends; the volume check sees the distributions of one
   * vintage's fractions.
   */
  datatype StorageKit = StorageKit(
    rockOf: Reader<DistributionsRock?>, rockErr: Diagnostics,
    solidOf: Reader<DistributionsSolid?>, solidErr: Diagnostics,
    fluidOf: Reader<DistributionsFluid?>, fluidErr: Diagnostics,
    volumeErr: VolumeCheck,
    mixTypes: seq<string> -> MixTypes,
    okForBounding: DistributionsRock -> bool,
    boundTypeNamesMatch: bool)

  // ---------------------------------------------------------------------
  // Vintage counts and carry-forward
  // ---------------------------------------------------------------------

  /** The entry used for vintage `i`: its own, or the last configured one. */
  function Last<T>(xs: seq<T>, i: nat): T
    requires |xs| > 0
  {
    if i < |xs| then xs[i] else xs[|xs| - 1]
  }

  function Max(a: nat, b: nat): nat
  {
    if a < b then b else a
  }

  /** The largest count, 0 for no counts. */
  function MaxOf(counts: seq<nat>): nat
  {
    if |counts| == 0 then 0 else Max(MaxOf(counts[..|counts| - 1]), counts[|counts| - 1])
  }

  /** MaxOf bounds every count and is attained by one of them. */
  lemma {:induction false} MaxOfIsMaximum(counts: seq<nat>)
    ensures forall k :: 0 <= k < |counts| ==> counts[k] <= MaxOf(counts)
    ensures |counts| > 0 ==> exists k :: 0 <= k < |counts| && counts[k] == MaxOf(counts)
  {
    if |counts| > 0 {
      var init := counts[..|counts| - 1];
      MaxOfIsMaximum(init);
      assert forall k :: 0 <= k < |init| ==> init[k] == counts[k];
      if |init| > 0 && MaxOf(init) >= counts[|counts| - 1] {
        var k :| 0 <= k < |init| && init[k] == MaxOf(init);
        assert counts[k] == MaxOf(counts);
      } else {
        assert counts[|counts| - 1] == MaxOf(counts);
      }
    }
  }

  function Counts<T>(lists: seq<seq<T>>): (r: seq<nat>)
    ensures |r| == |lists| && forall s :: 0 <= s < |lists| ==> r[s] == |lists[s]|
  {
    seq(|lists|, s requires 0 <= s < |lists| => |lists[s]|)
  }

  /** The max_vintage loop: the largest vintage count (0 when there are none). */
  method MaxVintage(counts: seq<nat>) returns (m: nat)
    ensures m == MaxOf(counts)
    ensures forall k :: 0 <= k < |counts| ==> counts[k] <= m
  {
    m := 0;
    var i := 0;
    while i < |counts|
      invariant 0 <= i <= |counts|
      invariant m == MaxOf(counts[..i])
    {
      assert counts[..i + 1][..i] == counts[..i];
      if counts[i] > m {
        m := counts[i];
      }
      i := i + 1;
    }
    assert counts[..|counts|] == counts;
    MaxOfIsMaximum(counts);
  }

  /**
   * Carry-forward of shared models: vintage `i` uses the model read for
   * vintage `i`, or the very same object as vintage `i - 1`.
   */
  method CarryForward<T>(xs: seq<T>, maxV: nat) returns (out: seq<T>)
    requires maxV == 0 || |xs| > 0
    ensures |out| == maxV
    ensures forall i :: 0 <= i < maxV && i < |xs| ==> out[i] == xs[i]
    ensures forall i :: 0 < i < maxV && |xs| <= i ==> out[i] == out[i - 1]
    ensures forall i :: 0 <= i < maxV ==> out[i] == Last(xs, i)
  {
    out := [];
    var i := 0;
    while i < maxV
      invariant 0 <= i <= maxV && |out| == i
      invariant forall k :: 0 <= k < i ==> out[k] == Last(xs, k)
    {
      if i < |xs| {
        out := out + [xs[i]];
      } else {
        out := out + [out[i - 1]];
      }
      i := i + 1;
    }
  }

  /** The vintage-`i` models of each label, as carried forward. */
  function ModelsAt<T>(read: Reader<T>, labels: seq<string>, i: nat): seq<T>
    requires forall s :: 0 <= s < |labels| ==> |read(labels[s])| > 0
  {
    seq(|labels|, s requires 0 <= s < |labels| => Last(read(labels[s]), i))
  }

  /** The vintage-`i` model of each constituent in `pos`. */
  function PickedModelsAt<T>(read: Reader<T>, labels: seq<string>, pos: seq<nat>, i: nat): seq<T>
    requires forall k :: 0 <= k < |pos| ==> pos[k] < |labels| && |read(labels[pos[k]])| > 0
  {
    seq(|pos|, k requires 0 <= k < |pos| => Last(read(labels[pos[k]]), i))
  }

  /** The column of `cols` at index i. */
  function Row<T>(cols: seq<seq<T>>, i: nat): seq<T>
    requires forall s :: 0 <= s < |cols| ==> i < |cols[s]|
  {
    seq(|cols|, s requires 0 <= s < |cols| => cols[s][i])
  }

  function Pick<T>(xs: seq<T>, pos: seq<nat>): seq<T>
    requires forall k :: 0 <= k < |pos| ==> pos[k] < |xs|
  {
    seq(|pos|, k requires 0 <= k < |pos| => xs[pos[k]])
  }

  /** Each label's models, carried forward over `maxV` vintages, one column per label. */
  ghost predicate Columns<T>(cols: seq<seq<T>>, read: Reader<T>, labels: seq<string>, maxV: nat)
  {
    |cols| == |labels| &&
    (forall s :: 0 <= s < |cols| ==> |cols[s]| == maxV) &&
    (forall s, i :: 0 <= s < |cols| && 0 <= i < maxV && |read(labels[s])| > 0 ==>
       cols[s][i] == Last(read(labels[s]), i))
  }

  /** Row `i` of the columns is the vintage-`i` model of every label. */
  lemma ColumnsRow<T>(cols: seq<seq<T>>, read: Reader<T>, labels: seq<string>, maxV: nat, i: nat)
    requires Columns(cols, read, labels, maxV) && i < maxV
    requires forall s :: 0 <= s < |labels| ==> |read(labels[s])| > 0
    ensures Row(cols, i) == ModelsAt(read, labels, i)
  {
  }

  /** Reads every label in order, appending each read's diagnostics, and carries the models forward. */
  method ReadColumns<T>(read: Reader<T>, err: Diagnostics, labels: seq<string>, maxV: nat, errTxt: string)
    returns (cols: seq<seq<T>>, newErrTxt: string)
    requires forall s :: 0 <= s < |labels| ==> |read(labels[s])| > 0
    ensures Columns(cols, read, labels, maxV)
    ensures newErrTxt == ReadErrors(errTxt, err, labels, |labels|)
  {
    cols := [];
    newErrTxt := errTxt;
    var s := 0;
    while s < |labels|
      invariant 0 <= s <= |labels| && |cols| == s
      invariant Columns(cols, read, labels[..s], maxV)
      invariant newErrTxt == ReadErrors(errTxt, err, labels, s)
    {
      var col := CarryForward(read(labels[s]), maxV);
      newErrTxt := newErrTxt + err(labels[s]);
      cols := cols + [col];
      s := s + 1;
    }
    assert labels[..|labels|] == labels;
  }

  /** `from` followed by the read diagnostics of the first `count` labels, all read with one reader. */
  function ReadErrors(from: string, err: Diagnostics, labels: seq<string>, count: nat): string
    requires count <= |labels|
  {
    if count == 0 then from else ReadErrors(from, err, labels, count - 1) + err(labels[count - 1])
  }

  /** The `new` loop of every builder: one fresh rock per vintage, of the given kind. */
  method BuildRocks(kinds: seq<RockKind>) returns (rocks: seq<DistributionsRock?>)
    ensures |rocks| == |kinds|
    ensures forall i :: 0 <= i < |kinds| ==> rocks[i] != null && fresh(rocks[i]) && rocks[i].kind == kinds[i]
  {
    rocks := [];
    var i := 0;
    while i < |kinds|
      invariant 0 <= i <= |kinds| && |rocks| == i
      invariant forall k :: 0 <= k < i ==> rocks[k] != null && fresh(rocks[k]) && rocks[k].kind == kinds[k]
    {
      var rock := new DistributionsRock(kinds[i]);
      rocks := rocks + [rock];
      i := i + 1;
    }
  }

  // ---------------------------------------------------------------------
  // Distributions with trend over vintages
  // ---------------------------------------------------------------------

  function StorageSpec(s: DistributionWithTrendStorage?): Option<DistributionSpec>
  {
    if s == null then None else Some(s.spec)
  }

  function DistSpec(d: DistributionWithTrend?): Option<DistributionSpec>
  {
    if d == null then None else Some(d.spec)
  }

  function DistSpecs(ds: seq<DistributionWithTrend?>): (r: seq<Option<DistributionSpec>>)
    ensures |r| == |ds|
  {
    seq(|ds|, k requires 0 <= k < |ds| => DistSpec(ds[k]))
  }

  predicate NonEmptyLists<T>(lists: seq<seq<T>>)
  {
    forall s :: 0 <= s < |lists| ==> |lists[s]| > 0
  }

  /** What vintage `i` of each list describes, after carry-forward. */
  function VintageSpecs(lists: seq<seq<DistributionWithTrendStorage?>>, i: nat): (r: seq<Option<DistributionSpec>>)
    requires NonEmptyLists(lists)
    ensures |r| == |lists|
  {
    seq(|lists|, s requires 0 <= s < |lists| => StorageSpec(Last(lists[s], i)))
  }

  /** The diagnostics generating vintage `i` of one list appends (clones append none). */
  function GenErr(xs: seq<DistributionWithTrendStorage?>, i: nat): string
  {
    if i < |xs| && xs[i] != null then xs[i].generateErr else ""
  }

  /** `from` followed by the diagnostics of vintage `i` of the first `count` lists, in list order. */
  function GenErrs(from: string, lists: seq<seq<DistributionWithTrendStorage?>>, i: nat, count: nat): string
    requires count <= |lists|
  {
    if count == 0 then from else GenErrs(from, lists, i, count - 1) + GenErr(lists[count - 1], i)
  }

  /**
   * Vintage `i` of one list: generated from entry `i` when the list has one
   * (a NULL entry stays NULL), otherwise a clone of the previous vintage.
   */
  method NextFraction(xs: seq<DistributionWithTrendStorage?>, i: nat, prev: DistributionWithTrend?, errTxt: string)
    returns (d: DistributionWithTrend?, newErrTxt: string)
    requires |xs| > 0
    requires i >= |xs| ==> i > 0 && DistSpec(prev) == StorageSpec(Last(xs, i - 1))
    ensures DistSpec(d) == StorageSpec(Last(xs, i))
    ensures d != null ==> fresh(d)
    ensures newErrTxt == errTxt + GenErr(xs, i)
  {
    newErrTxt := errTxt;
    d := null;
    if i < |xs| {
      if xs[i] != null {
        d, newErrTxt := xs[i].GenerateDistributionWithTrend(newErrTxt);
      }
    } else if prev != null {
      d := prev.Clone();
    }
  }

  /**
   * The DEM storage's version of NextFraction as written: past the end of a
   * list it clones the previous vintage without checking it for NULL, so it
   * can only be called when that vintage exists.
   */
  method NextFractionAsWritten(xs: seq<DistributionWithTrendStorage?>, i: nat, prev: DistributionWithTrend?, errTxt: string)
    returns (d: DistributionWithTrend?, newErrTxt: string)
    requires |xs| > 0
    requires i >= |xs| ==> i > 0 && DistSpec(prev) == StorageSpec(Last(xs, i - 1))
    requires i >= |xs| ==> prev != null
    ensures DistSpec(d) == StorageSpec(Last(xs, i))
    ensures d != null ==> fresh(d)
    ensures newErrTxt == errTxt + GenErr(xs, i)
  {
    newErrTxt := errTxt;
    d := null;
    if i < |xs| {
      if xs[i] != null {
        d, newErrTxt := xs[i].GenerateDistributionWithTrend(newErrTxt);
      }
    } else {
      d := prev.Clone();
    }
  }

  /** Vintage `i` of every list, in list order. */
  method NextFractions(lists: seq<seq<DistributionWithTrendStorage?>>, i: nat,
                       prev: seq<DistributionWithTrend?>, errTxt: string)
    returns (cur: seq<DistributionWithTrend?>, newErrTxt: string)
    requires NonEmptyLists(lists) && |prev| == |lists|
    requires forall s :: 0 <= s < |lists| && i >= |lists[s]| ==>
               i > 0 && DistSpec(prev[s]) == StorageSpec(Last(lists[s], i - 1))
    ensures DistSpecs(cur) == VintageSpecs(lists, i)
    ensures fresh(Built(cur))
    ensures newErrTxt == GenErrs(errTxt, lists, i, |lists|)
  {
    cur := [];
    newErrTxt := errTxt;
    var s := 0;
    while s < |lists|
      invariant 0 <= s <= |lists| && |cur| == s
      invariant forall k :: 0 <= k < s ==> DistSpec(cur[k]) == StorageSpec(Last(lists[k], i))
      invariant forall k :: 0 <= k < s && cur[k] != null ==> fresh(cur[k])
      invariant newErrTxt == GenErrs(errTxt, lists, i, s)
    {
      var d;
      d, newErrTxt := NextFraction(lists[s], i, prev[s], newErrTxt);
      cur := cur + [d];
      s := s + 1;
    }
  }

  /**
   * The step from vintage `i - 1` to vintage `i` may clone: a list without
   * its own entry `i` continues what vintage `i - 1` described.
   */
  lemma CarriedFromPrevious(lists: seq<seq<DistributionWithTrendStorage?>>, prev: seq<DistributionWithTrend?>, i: nat)
    requires NonEmptyLists(lists) && |prev| == |lists|
    requires i > 0 ==> DistSpecs(prev) == VintageSpecs(lists, i - 1)
    ensures forall s :: 0 <= s < |lists| && i >= |lists[s]| ==>
              i > 0 && DistSpec(prev[s]) == StorageSpec(Last(lists[s], i - 1))
  {
    forall s | 0 <= s < |lists| && i >= |lists[s]|
      ensures i > 0 && DistSpec(prev[s]) == StorageSpec(Last(lists[s], i - 1))
    {
      assert DistSpecs(prev)[s] == VintageSpecs(lists, i - 1)[s];
    }
  }

  /** The one-year correlation of a fraction's vintage 0, 1 when it is NULL. */
  function AlphaOf(s: DistributionWithTrendStorage?): real
  {
    if s == null then 1.0 else s.GetOneYearCorrelation()
  }

  /** A mixture's alpha: one entry per constituent, from its vintage-0 fraction. */
  predicate MixAlphaLayout(alpha: seq<real>, fractions: seq<seq<DistributionWithTrendStorage?>>)
    requires NonEmptyLists(fractions)
  {
    |alpha| == |fractions| && forall s :: 0 <= s < |fractions| ==> alpha[s] == AlphaOf(fractions[s][0])
  }

  /** The alpha a mixture of these fractions carries. */
  function MixAlphaOf(fractions: seq<seq<DistributionWithTrendStorage?>>): (alpha: seq<real>)
    requires NonEmptyLists(fractions)
    ensures MixAlphaLayout(alpha, fractions)
  {
    seq(|fractions|, s requires 0 <= s < |fractions| => AlphaOf(fractions[s][0]))
  }

  method MixAlpha(fractions: seq<seq<DistributionWithTrendStorage?>>) returns (alpha: seq<real>)
    requires NonEmptyLists(fractions)
    ensures alpha == MixAlphaOf(fractions)
  {
    alpha := [];
    var s := 0;
    while s < |fractions|
      invariant 0 <= s <= |fractions| && |alpha| == s
      invariant forall k :: 0 <= k < s ==> alpha[k] == AlphaOf(fractions[k][0])
    {
      alpha := alpha + [AlphaOf(fractions[s][0])];
      s := s + 1;
    }
  }

  // ---------------------------------------------------------------------
  // Mixtures of constituents
  // ---------------------------------------------------------------------

  /** `from` followed by the volume diagnostics of the first `k` vintages: one check per vintage. */
  function VolumeErrors(from: string, kit: StorageKit, lists: seq<seq<DistributionWithTrendStorage?>>, k: nat): string
    requires NonEmptyLists(lists)
  {
    if k == 0 then from else VolumeErrors(from, kit, lists, k - 1) + kit.volumeErr(VintageSpecs(lists, k - 1))
  }

  /** `from` followed by the generation diagnostics of the first `k` vintages of every list. */
  function GenerationErrors(from: string, lists: seq<seq<DistributionWithTrendStorage?>>, k: nat): string
  {
    if k == 0 then from else GenErrs(GenerationErrors(from, lists, k - 1), lists, k - 1, |lists|)
  }

  /** One vintage of a mixture's fractions: generated into `tmpErrTxt`, checked into `errTxt`. */
  method MixVintage(kit: StorageKit, fractions: seq<seq<DistributionWithTrendStorage?>>, i: nat,
                    prev: seq<DistributionWithTrend?>, tmpErrTxt: string, errTxt: string)
    returns (cur: seq<DistributionWithTrend?>, newTmpErrTxt: string, newErrTxt: string)
    requires NonEmptyLists(fractions) && |prev| == |fractions|
    requires i > 0 ==> DistSpecs(prev) == VintageSpecs(fractions, i - 1)
    ensures DistSpecs(cur) == VintageSpecs(fractions, i) && fresh(Built(cur))
    ensures newTmpErrTxt == GenErrs(tmpErrTxt, fractions, i, |fractions|)
    ensures newErrTxt == errTxt + kit.volumeErr(VintageSpecs(fractions, i))
  {
    CarriedFromPrevious(fractions, prev, i);
    cur, newTmpErrTxt := NextFractions(fractions, i, prev, tmpErrTxt);
    newErrTxt := errTxt + kit.volumeErr(DistSpecs(cur));
  }

  /** The built (non-NULL) distributions of a list. */
  function Built(ds: seq<DistributionWithTrend?>): (r: set<DistributionWithTrend>)
    ensures forall j :: 0 <= j < |ds| && ds[j] != null ==> ds[j] in r
  {
    set j | 0 <= j < |ds| && ds[j] != null :: ds[j]
  }

  /** Every built distribution of the vintages is in `made`. */
  predicate AllIn(all: seq<seq<DistributionWithTrend?>>, made: set<DistributionWithTrend>)
  {
    forall k, j :: 0 <= k < |all| && 0 <= j < |all[k]| && all[k][j] != null ==> all[k][j] in made
  }

  /** One more vintage, with its built distributions added to `made`, extends AllIn. */
  lemma AllInSnoc(all: seq<seq<DistributionWithTrend?>>, made: set<DistributionWithTrend>, cur: seq<DistributionWithTrend?>)
    requires AllIn(all, made)
    ensures AllIn(all + [cur], made + Built(cur))
  {
    var allNext := all + [cur];
    assert forall k :: 0 <= k < |all| ==> allNext[k] == all[k];
  }

  /** The first `|all|` vintages of a mixture's fractions. */
  predicate SpecsSoFar(fractions: seq<seq<DistributionWithTrendStorage?>>, all: seq<seq<DistributionWithTrend?>>)
    requires NonEmptyLists(fractions)
  {
    forall k :: 0 <= k < |all| ==> DistSpecs(all[k]) == VintageSpecs(fractions, k)
  }

  /** One more vintage's fractions extend SpecsSoFar. */
  lemma SpecsSoFarSnoc(fractions: seq<seq<DistributionWithTrendStorage?>>, all: seq<seq<DistributionWithTrend?>>,
                       cur: seq<DistributionWithTrend?>)
    requires NonEmptyLists(fractions) && SpecsSoFar(fractions, all)
    requires DistSpecs(cur) == VintageSpecs(fractions, |all|)
    ensures SpecsSoFar(fractions, all + [cur])
  {
    var allNext := all + [cur];
    assert forall k :: 0 <= k < |all| ==> allNext[k] == all[k];
  }

  /**
   * The fraction loop of CreateDistributionsRockMix: every vintage's
   * fractions, generation diagnostics into `tmpErrTxt` and one volume check
   * per vintage into `errTxt`.
   */
  method MixVolumeFractions(kit: StorageKit, fractions: seq<seq<DistributionWithTrendStorage?>>, maxV: nat,
                            tmpErrTxt: string, errTxt: string)
    returns (all: seq<seq<DistributionWithTrend?>>, newTmpErrTxt: string, newErrTxt: string)
    requires NonEmptyLists(fractions)
    ensures |all| == maxV
    ensures forall i :: 0 <= i < maxV ==> DistSpecs(all[i]) == VintageSpecs(fractions, i) && fresh(Built(all[i]))
    ensures newTmpErrTxt == GenerationErrors(tmpErrTxt, fractions, maxV)
    ensures newErrTxt == VolumeErrors(errTxt, kit, fractions, maxV)
  {
    all := [];
    newTmpErrTxt := tmpErrTxt;
    newErrTxt := errTxt;
    var prev: seq<DistributionWithTrend?> := seq(|fractions|, _ => null);
    ghost var made: set<DistributionWithTrend> := {};
    var i := 0;
    while i < maxV
      invariant i == |all| <= maxV && |prev| == |fractions|
      invariant SpecsSoFar(fractions, all) && AllIn(all, made) && fresh(made)
      invariant i > 0 ==> prev == all[i - 1]
      invariant newTmpErrTxt == GenerationErrors(tmpErrTxt, fractions, i)
      invariant newErrTxt == VolumeErrors(errTxt, kit, fractions, i)
    {
      var cur;
      cur, newTmpErrTxt, newErrTxt := MixVintage(kit, fractions, i, prev, newTmpErrTxt, newErrTxt);
      SpecsSoFarSnoc(fractions, all, cur);
      AllInSnoc(all, made, cur);
      made := made + Built(cur);
      all := all + [cur];
      prev := cur;
      i := i + 1;
    }
  }

  /** Mixture of rocks: every vintage mixes the carried-forward constituent rocks. */
  method MixOfRockVintages(kit: StorageKit, labels: seq<string>, all: seq<seq<DistributionWithTrend?>>,
                           mix: MixMethod, alpha: seq<real>, tmpErrTxt: string)
    returns (rocks: seq<DistributionsRock?>, newTmpErrTxt: string)
    requires forall s :: 0 <= s < |labels| ==> |kit.rockOf(labels[s])| > 0
    ensures |rocks| == |all|
    ensures forall i :: 0 <= i < |all| ==>
              rocks[i] != null && fresh(rocks[i]) &&
              rocks[i].kind == MixOfRock(ModelsAt(kit.rockOf, labels, i), all[i], mix, alpha)
    ensures newTmpErrTxt == ReadErrors(tmpErrTxt, kit.rockErr, labels, |labels|)
  {
    var maxV := |all|;
    var cols;
    cols, newTmpErrTxt := ReadColumns(kit.rockOf, kit.rockErr, labels, maxV, tmpErrTxt);
    forall i | 0 <= i < maxV
      ensures Row(cols, i) == ModelsAt(kit.rockOf, labels, i)
    {
      ColumnsRow(cols, kit.rockOf, labels, maxV, i);
    }
    rocks := BuildRocks(seq(maxV, i requires 0 <= i < maxV => MixOfRock(Row(cols, i), all[i], mix, alpha)));
  }

  /** The constituents among the first `count` that are fluids (or, for `fluid == false`, not fluids), in order. */
  function Positions(types: seq<ConstituentType>, fluid: bool, count: nat): (pos: seq<nat>)
    requires count <= |types|
    ensures forall k :: 0 <= k < |pos| ==> pos[k] < count && (types[pos[k]] == Fluid) == fluid
  {
    if count == 0 then []
    else Positions(types, fluid, count - 1) + (if (types[count - 1] == Fluid) == fluid then [count - 1] else [])
  }

  /** Each position list is increasing: the constituents keep their order. */
  lemma {:induction false} PositionsIncreasing(types: seq<ConstituentType>, fluid: bool, count: nat)
    requires count <= |types|
    ensures forall a, b :: 0 <= a < b < |Positions(types, fluid, count)| ==>
              Positions(types, fluid, count)[a] < Positions(types, fluid, count)[b]
  {
    if count > 0 {
      PositionsIncreasing(types, fluid, count - 1);
      var prev := Positions(types, fluid, count - 1);
      var pos := Positions(types, fluid, count);
      assert forall k :: 0 <= k < |prev| ==> pos[k] == prev[k] && prev[k] < count - 1;
    }
  }

  /** A constituent is in the position list of its own kind and only there. */
  lemma {:induction false} PositionsMembers(types: seq<ConstituentType>, fluid: bool, count: nat)
    requires count <= |types|
    ensures forall c :: 0 <= c < count ==> (c in Positions(types, fluid, count) <==> ((types[c] == Fluid) == fluid))
  {
    if count > 0 {
      PositionsMembers(types, fluid, count - 1);
      var prev := Positions(types, fluid, count - 1);
      var pos := Positions(types, fluid, count);
      assert count - 1 !in prev;
      forall c | 0 <= c < count
        ensures c in pos <==> ((types[c] == Fluid) == fluid)
      {
        if c < count - 1 {
          assert c in pos <==> c in prev;
        }
      }
    }
  }

  /** The two position lists together hold every constituent once. */
  lemma {:induction false} PositionsCount(types: seq<ConstituentType>, count: nat)
    requires count <= |types|
    ensures |Positions(types, true, count)| + |Positions(types, false, count)| == count
  {
    if count > 0 {
      PositionsCount(types, count - 1);
    }
  }

  /** `from` followed by the read diagnostics of the first `count` constituents, each read as a fluid or a solid. */
  function ConstituentReadErrors(from: string, kit: StorageKit, labels: seq<string>, types: seq<ConstituentType>,
                                 count: nat): string
    requires count <= |labels| && count <= |types|
  {
    if count == 0 then from
    else ConstituentReadErrors(from, kit, labels, types, count - 1) +
         (if types[count - 1] == Fluid then kit.fluidErr(labels[count - 1]) else kit.solidErr(labels[count - 1]))
  }

  /** Every constituent can be read with the reader its type selects. */
  predicate ConstituentsReadable(kit: StorageKit, labels: seq<string>, types: seq<ConstituentType>)
  {
    |types| == |labels| &&
    forall s :: 0 <= s < |labels| ==>
      (types[s] == Fluid ==> |kit.fluidOf(labels[s])| > 0) &&
      (types[s] != Fluid ==> |kit.solidOf(labels[s])| > 0)
  }

  /** The models of the constituents at `pos`, carried forward over `maxV` vintages, one column each. */
  ghost predicate PickedColumns<T>(cols: seq<seq<T>>, read: Reader<T>, labels: seq<string>, pos: seq<nat>, maxV: nat)
  {
    |cols| == |pos| &&
    (forall k :: 0 <= k < |cols| ==> |cols[k]| == maxV) &&
    (forall k, i :: 0 <= k < |cols| && 0 <= i < maxV && pos[k] < |labels| && |read(labels[pos[k]])| > 0 ==>
       cols[k][i] == Last(read(labels[pos[k]]), i))
  }

  /** The constituent loop of the solid-and-fluid branch: fluids to one list, everything else to the other. */
  method ReadConstituents(kit: StorageKit, labels: seq<string>, types: seq<ConstituentType>, maxV: nat, errTxt: string)
    returns (solidCols: seq<seq<DistributionsSolid?>>, fluidCols: seq<seq<DistributionsFluid?>>, newErrTxt: string)
    requires ConstituentsReadable(kit, labels, types)
    ensures PickedColumns(solidCols, kit.solidOf, labels, Positions(types, false, |types|), maxV)
    ensures PickedColumns(fluidCols, kit.fluidOf, labels, Positions(types, true, |types|), maxV)
    ensures newErrTxt == ConstituentReadErrors(errTxt, kit, labels, types, |labels|)
  {
    solidCols, fluidCols := [], [];
    newErrTxt := errTxt;
    var s := 0;
    while s < |labels|
      invariant 0 <= s <= |labels|
      invariant PickedColumns(solidCols, kit.solidOf, labels, Positions(types, false, s), maxV)
      invariant PickedColumns(fluidCols, kit.fluidOf, labels, Positions(types, true, s), maxV)
      invariant newErrTxt == ConstituentReadErrors(errTxt, kit, labels, types, s)
    {
      if types[s] == Fluid {
        var col := CarryForward(kit.fluidOf(labels[s]), maxV);
        newErrTxt := newErrTxt + kit.fluidErr(labels[s]);
        PickedColumnsSnoc(fluidCols, kit.fluidOf, labels, Positions(types, true, s), maxV, col, s);
        fluidCols := fluidCols + [col];
        assert Positions(types, false, s + 1) == Positions(types, false, s);
      } else {
        var col := CarryForward(kit.solidOf(labels[s]), maxV);
        newErrTxt := newErrTxt + kit.solidErr(labels[s]);
        PickedColumnsSnoc(solidCols, kit.solidOf, labels, Positions(types, false, s), maxV, col, s);
        solidCols := solidCols + [col];
        assert Positions(types, true, s + 1) == Positions(types, true, s);
      }
      s := s + 1;
    }
  }

  /** One more constituent's carried-forward column extends PickedColumns by its position. */
  lemma PickedColumnsSnoc<T>(cols: seq<seq<T>>, read: Reader<T>, labels: seq<string>, pos: seq<nat>, maxV: nat,
                             col: seq<T>, p: nat)
    requires PickedColumns(cols, read, labels, pos, maxV)
    requires p < |labels| && |read(labels[p])| > 0
    requires |col| == maxV && forall i :: 0 <= i < maxV ==> col[i] == Last(read(labels[p]), i)
    ensures PickedColumns(cols + [col], read, labels, pos + [p], maxV)
  {
    var colsNext, posNext := cols + [col], pos + [p];
    forall k, i | 0 <= k < |colsNext| && 0 <= i < maxV && posNext[k] < |labels| && |read(labels[posNext[k]])| > 0
      ensures colsNext[k][i] == Last(read(labels[posNext[k]]), i)
    {
      if k < |cols| {
        assert colsNext[k] == cols[k] && posNext[k] == pos[k];
      }
    }
  }

  /** Row `i` of picked columns is the vintage-`i` model of every picked constituent. */
  lemma PickedColumnsRow<T>(cols: seq<seq<T>>, read: Reader<T>, labels: seq<string>, pos: seq<nat>,
                            maxV: nat, i: nat)
    requires PickedColumns(cols, read, labels, pos, maxV) && i < maxV
    requires forall k :: 0 <= k < |pos| ==> pos[k] < |labels| && |read(labels[pos[k]])| > 0
    ensures Row(cols, i) == PickedModelsAt(read, labels, pos, i)
  {
  }

  /** Mixture of solids and fluids: each constituent goes to the fluid list iff it is a fluid. */
  method MixOfSolidAndFluidVintages(kit: StorageKit, labels: seq<string>, types: seq<ConstituentType>,
                                    all: seq<seq<DistributionWithTrend?>>, mix: MixMethod, alpha: seq<real>,
                                    errTxt: string)
    returns (rocks: seq<DistributionsRock?>, newErrTxt: string)
    requires ConstituentsReadable(kit, labels, types)
    requires forall i :: 0 <= i < |all| ==> |all[i]| == |labels|
    ensures |rocks| == |all|
    ensures forall i :: 0 <= i < |all| ==>
              rocks[i] != null && fresh(rocks[i]) &&
              rocks[i].kind == MixOfSolidAndFluid(
                PickedModelsAt(kit.solidOf, labels, Positions(types, false, |types|), i),
                PickedModelsAt(kit.fluidOf, labels, Positions(types, true, |types|), i),
                Pick(all[i], Positions(types, false, |types|)),
                Pick(all[i], Positions(types, true, |types|)),
                mix, alpha)
    ensures newErrTxt == ConstituentReadErrors(errTxt, kit, labels, types, |labels|)
  {
    var maxV := |all|;
    var solidCols, fluidCols;
    solidCols, fluidCols, newErrTxt := ReadConstituents(kit, labels, types, maxV, errTxt);
    var solidPos := Positions(types, false, |types|);
    var fluidPos := Positions(types, true, |types|);
    forall i | 0 <= i < maxV
      ensures Row(solidCols, i) == PickedModelsAt(kit.solidOf, labels, solidPos, i)
      ensures Row(fluidCols, i) == PickedModelsAt(kit.fluidOf, labels, fluidPos, i)
    {
      PickedColumnsRow(solidCols, kit.solidOf, labels, solidPos, maxV, i);
      PickedColumnsRow(fluidCols, kit.fluidOf, labels, fluidPos, maxV, i);
    }
    rocks := BuildRocks(seq(maxV, i requires 0 <= i < maxV =>
                              MixOfSolidAndFluid(Row(solidCols, i), Row(fluidCols, i),
                                                 Pick(all[i], solidPos), Pick(all[i], fluidPos), mix, alpha)));
  }

  /** The mixture kinds FindMixTypesForRock reports, with the reads they need possible. */
  predicate MixReadable(kit: StorageKit, labels: seq<string>)
  {
    var mt := kit.mixTypes(labels);
    |mt.types| == |labels| &&
    (mt.mixRock ==> forall s :: 0 <= s < |labels| ==> |kit.rockOf(labels[s])| > 0) &&
    (!mt.mixRock && mt.mixFluid && mt.mixSolid ==> ConstituentsReadable(kit, labels, mt.types))
  }

  /** The solid-and-fluid branch is taken: no rock mixture, but both solids and fluids. */
  predicate SolidAndFluidMix(kit: StorageKit, labels: seq<string>)
  {
    var mt := kit.mixTypes(labels);
    !mt.mixRock && mt.mixFluid && mt.mixSolid
  }

  /**
   * `from` followed by the diagnostics CreateDistributionsRockMix passes on:
   * the volume checks of every vintage, then the solid and fluid reads when
   * it mixes solids and fluids.
   */
  function MixErrors(from: string, kit: StorageKit, labels: seq<string>,
                     fractions: seq<seq<DistributionWithTrendStorage?>>, maxV: nat): string
    requires NonEmptyLists(fractions) && MixReadable(kit, labels)
  {
    var volume := VolumeErrors(from, kit, fractions, maxV);
    if SolidAndFluidMix(kit, labels)
    then ConstituentReadErrors(volume, kit, labels, kit.mixTypes(labels).types, |labels|)
    else volume
  }

  /** A rock and the distributions it holds; the constituent models it mixes are shared, not held. */
  function Owned(rock: DistributionsRock?): (r: set<object>)
    ensures rock != null ==> rock in r
  {
    if rock == null then {}
    else
      var held: set<DistributionWithTrend> :=
        match rock.kind
        case Tabulated(elastic, _, _, _) => Built(elastic)
        case MixOfRock(_, fractions, _, _) => Built(fractions)
        case MixOfSolidAndFluid(_, _, solidFractions, fluidFractions, _, _) => Built(solidFractions) + Built(fluidFractions)
        case Dem(_, _, aspectRatios, fractions, _) => Built(aspectRatios) + Built(fractions)
        case Bounding(_, _, weights, _, _) => Built(weights);
      {rock} + held
  }

  /** A rock of rocks for vintage `i`, as CreateDistributionsRockMix promises it. */
  predicate MixOfRockBuilt(kit: StorageKit, labels: seq<string>, fractions: seq<seq<DistributionWithTrendStorage?>>,
                           mix: MixMethod, i: nat, rock: DistributionsRock?)
    requires NonEmptyLists(fractions)
    requires forall s :: 0 <= s < |labels| ==> |kit.rockOf(labels[s])| > 0
  {
    rock != null && rock.kind.MixOfRock? &&
    rock.kind.rocks == ModelsAt(kit.rockOf, labels, i) &&
    DistSpecs(rock.kind.fractions) == VintageSpecs(fractions, i) &&
    rock.kind.mix == mix && rock.kind.alpha == MixAlphaOf(fractions)
  }

  /** A rock of solids and fluids for vintage `i`, as CreateDistributionsRockMix promises it. */
  predicate MixOfSolidAndFluidBuilt(kit: StorageKit, labels: seq<string>, types: seq<ConstituentType>,
                                    fractions: seq<seq<DistributionWithTrendStorage?>>,
                                    mix: MixMethod, i: nat, rock: DistributionsRock?)
    requires NonEmptyLists(fractions) && |fractions| == |labels| && ConstituentsReadable(kit, labels, types)
  {
    var solids := Positions(types, false, |types|);
    var fluids := Positions(types, true, |types|);
    rock != null && rock.kind.MixOfSolidAndFluid? &&
    rock.kind.solids == PickedModelsAt(kit.solidOf, labels, solids, i) &&
    rock.kind.fluids == PickedModelsAt(kit.fluidOf, labels, fluids, i) &&
    DistSpecs(rock.kind.solidFractions) == Pick(VintageSpecs(fractions, i), solids) &&
    DistSpecs(rock.kind.fluidFractions) == Pick(VintageSpecs(fractions, i), fluids) &&
    rock.kind.mix == mix && rock.kind.alpha == MixAlphaOf(fractions)
  }

  /**
   * The opening of CreateDistributionsRockMix: the vintage count, the alpha
   * and every vintage's fractions with their diagnostics.
   */
  method MixFractions(kit: StorageKit, fr: seq<seq<DistributionWithTrendStorage?>>, errTxt: string)
    returns (maxV: nat, alpha: seq<real>, all: seq<seq<DistributionWithTrend?>>, tmpErrTxt: string, newErrTxt: string)
    requires NonEmptyLists(fr)
    ensures maxV == MaxOf(Counts(fr)) && alpha == MixAlphaOf(fr) && |all| == maxV
    ensures forall i :: 0 <= i < maxV ==> DistSpecs(all[i]) == VintageSpecs(fr, i) && fresh(Built(all[i]))
    ensures tmpErrTxt == GenerationErrors("", fr, maxV)
    ensures newErrTxt == VolumeErrors(errTxt, kit, fr, maxV)
  {
    maxV := MaxVintage(Counts(fr));
    alpha := MixAlpha(fr);
    all, tmpErrTxt, newErrTxt := MixVolumeFractions(kit, fr, maxV, "", errTxt);
  }

  /** The rock-of-rocks branch of CreateDistributionsRockMix, with the opening it shares. */
  method RockMixture(kit: StorageKit, labels: seq<string>, fr: seq<seq<DistributionWithTrendStorage?>>,
                     mix: MixMethod, errTxt: string)
    returns (rocks: seq<DistributionsRock?>, newErrTxt: string)
    requires NonEmptyLists(fr) && |fr| == |labels|
    requires forall s :: 0 <= s < |labels| ==> |kit.rockOf(labels[s])| > 0
    ensures |rocks| == MaxOf(Counts(fr))
    ensures newErrTxt == VolumeErrors(errTxt, kit, fr, |rocks|)
    ensures forall i :: 0 <= i < |rocks| ==> MixOfRockBuilt(kit, labels, fr, mix, i, rocks[i]) && fresh(Owned(rocks[i]))
  {
    var maxV, alpha, all, tmpErrTxt;
    maxV, alpha, all, tmpErrTxt, newErrTxt := MixFractions(kit, fr, errTxt);
    tmpErrTxt := tmpErrTxt + kit.mixTypes(labels).err;
    rocks, tmpErrTxt := MixOfRockVintages(kit, labels, all, mix, alpha, tmpErrTxt);
  }

  /** The solid-and-fluid branch of CreateDistributionsRockMix, with the opening it shares. */
  method SolidAndFluidMixture(kit: StorageKit, labels: seq<string>, types: seq<ConstituentType>,
                              fr: seq<seq<DistributionWithTrendStorage?>>, mix: MixMethod, errTxt: string)
    returns (rocks: seq<DistributionsRock?>, newErrTxt: string)
    requires NonEmptyLists(fr) && |fr| == |labels| && ConstituentsReadable(kit, labels, types)
    ensures |rocks| == MaxOf(Counts(fr))
    ensures newErrTxt == ConstituentReadErrors(VolumeErrors(errTxt, kit, fr, |rocks|), kit, labels, types, |labels|)
    ensures forall i :: 0 <= i < |rocks| ==>
              MixOfSolidAndFluidBuilt(kit, labels, types, fr, mix, i, rocks[i]) && fresh(Owned(rocks[i]))
  {
    var maxV, alpha, all, tmpErrTxt;
    maxV, alpha, all, tmpErrTxt, newErrTxt := MixFractions(kit, fr, errTxt);
    rocks, newErrTxt := MixOfSolidAndFluidVintages(kit, labels, types, all, mix, alpha, newErrTxt);
    PickedVintageSpecs(fr, types, all);
    forall i | 0 <= i < maxV
      ensures fresh(Built(Pick(all[i], Positions(types, false, |types|))))
      ensures fresh(Built(Pick(all[i], Positions(types, true, |types|))))
    {
    }
  }

  /** CreateDistributionsRockMix for constituents that are neither all rocks nor solids and fluids: no rock is built. */
  method UnmixedVintages(kit: StorageKit, fr: seq<seq<DistributionWithTrendStorage?>>, errTxt: string)
    returns (rocks: seq<DistributionsRock?>, newErrTxt: string)
    requires NonEmptyLists(fr)
    ensures |rocks| == MaxOf(Counts(fr))
    ensures newErrTxt == VolumeErrors(errTxt, kit, fr, |rocks|)
    ensures forall i :: 0 <= i < |rocks| ==> rocks[i] == null
  {
    var maxV, alpha, all, tmpErrTxt;
    maxV, alpha, all, tmpErrTxt, newErrTxt := MixFractions(kit, fr, errTxt);
    rocks := seq(maxV, _ => null);
  }

  /**
   * One mixed rock per vintage. The volume checks go to `errTxt`; generation,
   * mixture-type and rock-read diagnostics are collected in a local text that
   * is then dropped; solid and fluid read diagnostics go to `errTxt`. The
   * mixture types are looked up first here; the lookup changes nothing, so
   * the order does not show.
   */
  method CreateDistributionsRockMix(kit: StorageKit, labels: seq<string>,
                                    fractions: seq<seq<DistributionWithTrendStorage?>>,
                                    mix: MixMethod, errTxt: string)
    returns (rocks: seq<DistributionsRock?>, newErrTxt: string)
    requires |fractions| >= |labels| && NonEmptyLists(fractions[..|labels|])
    requires MixReadable(kit, labels)
    ensures |rocks| == MaxOf(Counts(fractions[..|labels|]))
    ensures newErrTxt == MixErrors(errTxt, kit, labels, fractions[..|labels|], |rocks|)
    ensures kit.mixTypes(labels).mixRock ==>
              forall i :: 0 <= i < |rocks| ==> MixOfRockBuilt(kit, labels, fractions[..|labels|], mix, i, rocks[i])
    ensures SolidAndFluidMix(kit, labels) ==>
              forall i :: 0 <= i < |rocks| ==>
                MixOfSolidAndFluidBuilt(kit, labels, kit.mixTypes(labels).types, fractions[..|labels|], mix, i, rocks[i])
    ensures !kit.mixTypes(labels).mixRock && !SolidAndFluidMix(kit, labels) ==>
              forall i :: 0 <= i < |rocks| ==> rocks[i] == null
    ensures forall i :: 0 <= i < |rocks| ==> fresh(Owned(rocks[i]))
  {
    var fr := fractions[..|labels|];
    var mt := kit.mixTypes(labels);
    if mt.mixRock {
      rocks, newErrTxt := RockMixture(kit, labels, fr, mix, errTxt);
    } else if mt.mixFluid && mt.mixSolid {
      rocks, newErrTxt := SolidAndFluidMixture(kit, labels, mt.types, fr, mix, errTxt);
    } else {
      rocks, newErrTxt := UnmixedVintages(kit, fr, errTxt);
    }
  }

  /** Splitting every vintage's fractions into solids and fluids splits their specifications the same way. */
  lemma PickedVintageSpecs(fr: seq<seq<DistributionWithTrendStorage?>>, types: seq<ConstituentType>,
                           all: seq<seq<DistributionWithTrend?>>)
    requires NonEmptyLists(fr) && |types| <= |fr|
    requires forall i :: 0 <= i < |all| ==> |all[i]| == |fr| && DistSpecs(all[i]) == VintageSpecs(fr, i)
    ensures forall i :: 0 <= i < |all| ==>
              DistSpecs(Pick(all[i], Positions(types, false, |types|))) == Pick(VintageSpecs(fr, i), Positions(types, false, |types|)) &&
              DistSpecs(Pick(all[i], Positions(types, true, |types|))) == Pick(VintageSpecs(fr, i), Positions(types, true, |types|))
  {
    forall i | 0 <= i < |all|
      ensures DistSpecs(Pick(all[i], Positions(types, false, |types|))) == Pick(VintageSpecs(fr, i), Positions(types, false, |types|))
      ensures DistSpecs(Pick(all[i], Positions(types, true, |types|))) == Pick(VintageSpecs(fr, i), Positions(types, true, |types|))
    {
      PickedSpecs(all[i], VintageSpecs(fr, i), Positions(types, false, |types|));
      PickedSpecs(all[i], VintageSpecs(fr, i), Positions(types, true, |types|));
    }
  }

  /** Picking distributions and then taking their specs is picking the specs. */
  lemma PickedSpecs(ds: seq<DistributionWithTrend?>, specs: seq<Option<DistributionSpec>>, pos: seq<nat>)
    requires DistSpecs(ds) == specs
    requires forall k :: 0 <= k < |pos| ==> pos[k] < |ds|
    ensures DistSpecs(Pick(ds, pos)) == Pick(specs, pos)
  {
    assert forall k :: 0 <= k < |pos| ==> DistSpecs(Pick(ds, pos))[k] == DistSpecs(ds)[pos[k]];
  }

  /** The heading a Reuss, Voigt or Hill storage puts before the diagnostics of its mixture. */
  function ProblemsHeading(mix: MixMethod): string
  {
    match mix
    case Reuss => "\nProblems with the Reuss rock physics model for <rock>:\n"
    case Voigt => "\nProblems with the Voigt rock physics model for <rock>:\n"
    case Hill => "\nProblems with the Hill rock physics model for <rock>:\n"
  }

  /** The wrappers' error handling: the heading and the inner text are appended only when there is inner text. */
  function WithHeading(errTxt: string, heading: string, inner: string): string
  {
    if inner != "" then errTxt + heading + inner else errTxt
  }

  /** The caller's text is always kept as a prefix, and changes exactly when there are inner problems. */
  lemma WithHeadingAppends(errTxt: string, heading: string, inner: string)
    ensures |errTxt| <= |WithHeading(errTxt, heading, inner)|
    ensures WithHeading(errTxt, heading, inner)[..|errTxt|] == errTxt
    ensures WithHeading(errTxt, heading, inner) == errTxt <==> inner == ""
  {
    if inner != "" {
      assert |WithHeading(errTxt, heading, inner)| == |errTxt| + |heading| + |inner|;
      assert (errTxt + heading + inner)[..|errTxt|] == errTxt;
    }
  }

  /** The Reuss, Voigt and Hill rock storages: a mixture of constituents by one mixing method. */
  class MixRockStorage {
    const mix: MixMethod
    const labels: seq<string>
    const fractions: seq<seq<DistributionWithTrendStorage?>>

    constructor (mix: MixMethod, labels: seq<string>, fractions: seq<seq<DistributionWithTrendStorage?>>)
      ensures this.mix == mix && this.labels == labels && this.fractions == fractions
    {
      this.mix := mix;
      this.labels := labels;
      this.fractions := fractions;
    }

    method GenerateDistributionsRock(kit: StorageKit, errTxt: string) returns (rocks: seq<DistributionsRock?>, newErrTxt: string)
      requires |fractions| >= |labels| && NonEmptyLists(fractions[..|labels|])
      requires MixReadable(kit, labels)
      ensures |rocks| == MaxOf(Counts(fractions[..|labels|]))
      ensures newErrTxt == WithHeading(errTxt, ProblemsHeading(mix), MixErrors("", kit, labels, fractions[..|labels|], |rocks|))
      ensures kit.mixTypes(labels).mixRock ==>
                forall i :: 0 <= i < |rocks| ==> MixOfRockBuilt(kit, labels, fractions[..|labels|], mix, i, rocks[i])
      ensures SolidAndFluidMix(kit, labels) ==>
                forall i :: 0 <= i < |rocks| ==>
                  MixOfSolidAndFluidBuilt(kit, labels, kit.mixTypes(labels).types, fractions[..|labels|], mix, i, rocks[i])
      ensures !kit.mixTypes(labels).mixRock && !SolidAndFluidMix(kit, labels) ==>
                forall i :: 0 <= i < |rocks| ==> rocks[i] == null
      ensures forall i :: 0 <= i < |rocks| ==> fresh(Owned(rocks[i]))
    {
      var tmpErrTxt;
      rocks, tmpErrTxt := CreateDistributionsRockMix(kit, labels, fractions, mix, "");
      newErrTxt := errTxt;
      if tmpErrTxt != "" {
        newErrTxt := newErrTxt + ProblemsHeading(mix);
        newErrTxt := newErrTxt + tmpErrTxt;
      }
    }
  }

  // ---------------------------------------------------------------------
  // Tabulated and bounding rocks: three distributions per vintage
  // ---------------------------------------------------------------------

  /** `from` followed by the generation diagnostics of the first `k` vintages of three lists, interleaved per vintage. */
  function TripleErrors(from: string, a: seq<DistributionWithTrendStorage?>, b: seq<DistributionWithTrendStorage?>,
                        c: seq<DistributionWithTrendStorage?>, k: nat): string
  {
    if k == 0 then from else TripleErrors(from, a, b, c, k - 1) + GenErr(a, k - 1) + GenErr(b, k - 1) + GenErr(c, k - 1)
  }

  /** What vintage `i` of three non-empty lists describes, after carry-forward. */
  function TripleSpecs(a: seq<DistributionWithTrendStorage>, b: seq<DistributionWithTrendStorage>,
                       c: seq<DistributionWithTrendStorage>, i: nat): seq<Option<DistributionSpec>>
    requires |a| > 0 && |b| > 0 && |c| > 0
  {
    [Some(Last(a, i).spec), Some(Last(b, i).spec), Some(Last(c, i).spec)]
  }

  /** Three vintage-0 one-year correlations. */
  function TripleAlpha(a: seq<DistributionWithTrendStorage>, b: seq<DistributionWithTrendStorage>,
                       c: seq<DistributionWithTrendStorage>): seq<real>
    requires |a| > 0 && |b| > 0 && |c| > 0
  {
    [a[0].GetOneYearCorrelation(), b[0].GetOneYearCorrelation(), c[0].GetOneYearCorrelation()]
  }

  lemma MaxOfThree(a: nat, b: nat, c: nat)
    ensures MaxOf([a, b, c]) == Max(Max(a, b), c)
  {
    assert [a, b, c][..2] == [a, b];
    assert [a, b][..1] == [a];
    assert [a][..0] == [];
    assert MaxOf([a]) == a;
    assert MaxOf([a, b]) == Max(a, b);
  }

  /** Three built distributions. */
  predicate TripleBuilt(ds: seq<DistributionWithTrend?>)
  {
    |ds| == 3 && ds[0] != null && ds[1] != null && ds[2] != null
  }

  /** Two vintages' triples share no distribution object in the same slot. */
  predicate ApartFrom(ds: seq<DistributionWithTrend?>, prev: seq<DistributionWithTrend?>)
  {
    |ds| == 3 && |prev| == 3 && ds[0] != prev[0] && ds[1] != prev[1] && ds[2] != prev[2]
  }

  /** Vintage `i` of three lists, each generated or cloned from vintage `i - 1`. */
  method NextTriple(a: seq<DistributionWithTrendStorage>, b: seq<DistributionWithTrendStorage>,
                    c: seq<DistributionWithTrendStorage>, i: nat, prev: seq<DistributionWithTrend?>, errTxt: string)
    returns (t: seq<DistributionWithTrend?>, newErrTxt: string)
    requires |a| > 0 && |b| > 0 && |c| > 0 && |prev| == 3
    requires i > 0 ==> DistSpecs(prev) == TripleSpecs(a, b, c, i - 1)
    ensures TripleBuilt(t) && DistSpecs(t) == TripleSpecs(a, b, c, i) && fresh(Built(t))
    ensures ApartFrom(t, prev)
    ensures newErrTxt == errTxt + GenErr(a, i) + GenErr(b, i) + GenErr(c, i)
  {
    assert i > 0 ==> DistSpec(prev[0]) == DistSpecs(prev)[0] && DistSpec(prev[1]) == DistSpecs(prev)[1] &&
                     DistSpec(prev[2]) == DistSpecs(prev)[2];
    var da, db, dc;
    da, newErrTxt := NextFraction(a, i, prev[0], errTxt);
    db, newErrTxt := NextFraction(b, i, prev[1], newErrTxt);
    dc, newErrTxt := NextFraction(c, i, prev[2], newErrTxt);
    t := [da, db, dc];
  }

  /** The first `|triples|` vintages of three lists: built, describing those vintages, and apart from their predecessors. */
  predicate TriplesSoFar(a: seq<DistributionWithTrendStorage>, b: seq<DistributionWithTrendStorage>,
                         c: seq<DistributionWithTrendStorage>, triples: seq<seq<DistributionWithTrend?>>)
    requires |a| > 0 && |b| > 0 && |c| > 0
  {
    (forall k :: 0 <= k < |triples| ==> TripleBuilt(triples[k]) && DistSpecs(triples[k]) == TripleSpecs(a, b, c, k)) &&
    (forall k :: 1 <= k < |triples| ==> ApartFrom(triples[k], triples[k - 1]))
  }

  /** One more vintage's triple extends TriplesSoFar. */
  lemma TriplesSoFarSnoc(a: seq<DistributionWithTrendStorage>, b: seq<DistributionWithTrendStorage>,
                         c: seq<DistributionWithTrendStorage>, triples: seq<seq<DistributionWithTrend?>>,
                         t: seq<DistributionWithTrend?>)
    requires |a| > 0 && |b| > 0 && |c| > 0
    requires TriplesSoFar(a, b, c, triples)
    requires TripleBuilt(t) && DistSpecs(t) == TripleSpecs(a, b, c, |triples|)
    requires |triples| > 0 ==> ApartFrom(t, triples[|triples| - 1])
    ensures TriplesSoFar(a, b, c, triples + [t])
  {
    var n := |triples|;
    var triplesNext := triples + [t];
    assert forall k :: 0 <= k < n ==> triplesNext[k] == triples[k];
  }

  /**
   * The per-vintage loop shared by the tabulated and bounding storages:
   * vintage `i` of each of three lists, generated or cloned from vintage `i - 1`.
   */
  method TripleVintages(a: seq<DistributionWithTrendStorage>, b: seq<DistributionWithTrendStorage>,
                        c: seq<DistributionWithTrendStorage>, errTxt: string)
    returns (triples: seq<seq<DistributionWithTrend?>>, newErrTxt: string)
    requires |a| > 0 && |b| > 0 && |c| > 0
    ensures |triples| == MaxOf([|a|, |b|, |c|])
    ensures forall i :: 0 <= i < |triples| ==>
              TripleBuilt(triples[i]) && DistSpecs(triples[i]) == TripleSpecs(a, b, c, i) && fresh(Built(triples[i]))
    ensures forall i :: 1 <= i < |triples| ==> ApartFrom(triples[i], triples[i - 1])
    ensures newErrTxt == TripleErrors(errTxt, a, b, c, |triples|)
  {
    MaxOfThree(|a|, |b|, |c|);
    var maxV := Max(Max(|a|, |b|), |c|);
    triples := [];
    newErrTxt := errTxt;
    var prev: seq<DistributionWithTrend?> := [null, null, null];
    ghost var made: set<DistributionWithTrend> := {};
    var i := 0;
    while i < maxV
      invariant i == |triples| <= maxV && |prev| == 3
      invariant TriplesSoFar(a, b, c, triples)
      invariant AllIn(triples, made) && fresh(made)
      invariant i > 0 ==> triples[i - 1] == prev
      invariant newErrTxt == TripleErrors(errTxt, a, b, c, i)
    {
      var t;
      t, newErrTxt := NextTriple(a, b, c, i, prev, newErrTxt);
      TriplesSoFarSnoc(a, b, c, triples, t);
      AllInSnoc(triples, made, t);
      made := made + Built(t);
      triples := triples + [t];
      prev := t;
      i := i + 1;
    }
  }

  /** The tabulated-velocity and tabulated-modulus rock storages. */
  class TabulatedRockStorage {
    const tabulated: TabulatedKind
    const first: seq<DistributionWithTrendStorage>     // vp, or the bulk modulus
    const second: seq<DistributionWithTrendStorage>    // vs, or the shear modulus
    const density: seq<DistributionWithTrendStorage>
    const correlations: seq<real>                        // first-second, first-density, second-density

    constructor (tabulated: TabulatedKind, first: seq<DistributionWithTrendStorage>,
                 second: seq<DistributionWithTrendStorage>, density: seq<DistributionWithTrendStorage>,
                 correlations: seq<real>)
      ensures this.tabulated == tabulated && this.first == first && this.second == second
      ensures this.density == density && this.correlations == correlations
    {
      this.tabulated := tabulated;
      this.first := first;
      this.second := second;
      this.density := density;
      this.correlations := correlations;
    }

    method GenerateDistributionsRock(errTxt: string) returns (rocks: seq<DistributionsRock?>, newErrTxt: string)
      requires |first| > 0 && |second| > 0 && |density| > 0
      ensures |rocks| == MaxOf([|first|, |second|, |density|])
      ensures forall i :: 0 <= i < |rocks| ==>
                rocks[i] != null && fresh(rocks[i]) && rocks[i].kind.Tabulated? &&
                TripleBuilt(rocks[i].kind.elastic) && fresh(Built(rocks[i].kind.elastic)) &&
                DistSpecs(rocks[i].kind.elastic) == TripleSpecs(first, second, density, i) &&
                rocks[i].kind.correlations == correlations && rocks[i].kind.tabulated == tabulated &&
                rocks[i].kind.alpha == TripleAlpha(first, second, density)
      ensures forall i :: 1 <= i < |rocks| ==> ApartFrom(rocks[i].kind.elastic, rocks[i - 1].kind.elastic)
      ensures newErrTxt == TripleErrors(errTxt, first, second, density, |rocks|)
    {
      var alpha := TripleAlpha(first, second, density);
      var triples;
      triples, newErrTxt := TripleVintages(first, second, density, errTxt);
      rocks := BuildRocks(seq(|triples|, i requires 0 <= i < |triples| =>
                                Tabulated(triples[i], correlations, tabulated, alpha)));
    }
  }

  const UpperBoundNotOk: string :=
    "The upper bound does not follow the requirements for the bounding model.\n" +
    " The solid and fluid being mix need to be tabulated where the variables don't have distributions nor trends\n"
  const LowerBoundNotOk: string :=
    "The lower bound does not follow the requirements for the bounding model.\n" +
    " The solid and fluid being mix need to be tabulated where the variables don't have distributions nor trends\n"
  const BoundTypeMessages: string :=
    "The upper bound in the Bounding rock physics model needs to follow a Voigt model\n" +
    "The lower bound in the Bounding rock physics model needs to follow a Reuss model\n"
  const BoundingHeading: string := "\nProblems with the Bounding rock physics model:\n"

  /** A bound that can be read and whose vintage 0 can be asked whether it suits bounding. */
  predicate BoundReadable(kit: StorageKit, name: string)
  {
    |kit.rockOf(name)| > 0 && kit.rockOf(name)[0] != null
  }

  /** `s`, followed by `msg` when `problem` holds. */
  function AppendIf(s: string, problem: bool, msg: string): string
  {
    if problem then s + msg else s
  }

  /** Reading a bound: its rocks carried forward, its diagnostics and its suitability for bounding. */
  method ReadBound(kit: StorageKit, name: string, maxV: nat, tmpErrTxt: string, notOk: string)
    returns (col: seq<DistributionsRock?>, newTmpErrTxt: string)
    requires BoundReadable(kit, name)
    ensures |col| == maxV && forall i :: 0 <= i < maxV ==> col[i] == Last(kit.rockOf(name), i)
    ensures newTmpErrTxt == AppendIf(tmpErrTxt + kit.rockErr(name), !kit.okForBounding(kit.rockOf(name)[0]), notOk)
  {
    col := CarryForward(kit.rockOf(name), maxV);
    newTmpErrTxt := tmpErrTxt + kit.rockErr(name);
    if !kit.okForBounding(kit.rockOf(name)[0]) {
      newTmpErrTxt := newTmpErrTxt + notOk;
    }
  }

  /** The diagnostics a bounding storage collects before its heading. */
  function BoundingErrors(kit: StorageKit, upper: string, lower: string,
                          a: seq<DistributionWithTrendStorage?>, b: seq<DistributionWithTrendStorage?>,
                          c: seq<DistributionWithTrendStorage?>, maxV: nat): string
    requires BoundReadable(kit, upper) && BoundReadable(kit, lower)
  {
    var upperText := AppendIf("" + kit.rockErr(upper), !kit.okForBounding(kit.rockOf(upper)[0]), UpperBoundNotOk);
    var lowerText := AppendIf(upperText + kit.rockErr(lower), !kit.okForBounding(kit.rockOf(lower)[0]), LowerBoundNotOk);
    TripleErrors(AppendIf(lowerText, !kit.boundTypeNamesMatch, BoundTypeMessages), a, b, c, maxV)
  }

  class BoundingRockStorage {
    const upper: string
    const lower: string
    const porosity: seq<DistributionWithTrendStorage>
    const bulkWeight: seq<DistributionWithTrendStorage>
    const pWaveWeight: seq<DistributionWithTrendStorage>
    const correlationWeights: real

    constructor (upper: string, lower: string, porosity: seq<DistributionWithTrendStorage>,
                 bulkWeight: seq<DistributionWithTrendStorage>, pWaveWeight: seq<DistributionWithTrendStorage>,
                 correlationWeights: real)
      ensures this.upper == upper && this.lower == lower && this.porosity == porosity
      ensures this.bulkWeight == bulkWeight && this.pWaveWeight == pWaveWeight
      ensures this.correlationWeights == correlationWeights
    {
      this.upper := upper;
      this.lower := lower;
      this.porosity := porosity;
      this.bulkWeight := bulkWeight;
      this.pWaveWeight := pWaveWeight;
      this.correlationWeights := correlationWeights;
    }

    /** Every vintage is built, whatever the diagnostics; the diagnostics get one heading. */
    method GenerateDistributionsRock(kit: StorageKit, errTxt: string) returns (rocks: seq<DistributionsRock?>, newErrTxt: string)
      requires |porosity| > 0 && |bulkWeight| > 0 && |pWaveWeight| > 0
      requires BoundReadable(kit, upper) && BoundReadable(kit, lower)
      ensures |rocks| == MaxOf([|porosity|, |bulkWeight|, |pWaveWeight|])
      ensures forall i :: 0 <= i < |rocks| ==>
                rocks[i] != null && fresh(rocks[i]) && rocks[i].kind.Bounding? &&
                rocks[i].kind.upper == Last(kit.rockOf(upper), i) &&
                rocks[i].kind.lower == Last(kit.rockOf(lower), i) &&
                TripleBuilt(rocks[i].kind.weights) && fresh(Built(rocks[i].kind.weights)) &&
                DistSpecs(rocks[i].kind.weights) == TripleSpecs(porosity, bulkWeight, pWaveWeight, i) &&
                rocks[i].kind.correlationWeights == correlationWeights &&
                rocks[i].kind.alpha == TripleAlpha(porosity, bulkWeight, pWaveWeight)
      ensures newErrTxt == WithHeading(errTxt, BoundingHeading,
                                     BoundingErrors(kit, upper, lower, porosity, bulkWeight, pWaveWeight, |rocks|))
    {
      MaxOfThree(|porosity|, |bulkWeight|, |pWaveWeight|);
      var maxV := Max(Max(|porosity|, |bulkWeight|), |pWaveWeight|);
      var alpha := TripleAlpha(porosity, bulkWeight, pWaveWeight);
      var tmpErrTxt := "";
      var uppers, lowers;
      uppers, tmpErrTxt := ReadBound(kit, upper, maxV, tmpErrTxt, UpperBoundNotOk);
      lowers, tmpErrTxt := ReadBound(kit, lower, maxV, tmpErrTxt, LowerBoundNotOk);
      if !kit.boundTypeNamesMatch {
        tmpErrTxt := tmpErrTxt + BoundTypeMessages;
      }
      var triples;
      triples, tmpErrTxt := TripleVintages(porosity, bulkWeight, pWaveWeight, tmpErrTxt);
      rocks := BuildRocks(seq(maxV, i requires 0 <= i < maxV =>
                                Bounding(uppers[i], lowers[i], triples[i], correlationWeights, alpha)));
      newErrTxt := errTxt;
      if tmpErrTxt != "" {
        newErrTxt := newErrTxt + BoundingHeading;
        newErrTxt := newErrTxt + tmpErrTxt;
      }
    }
  }

  // ---------------------------------------------------------------------
  // DEM and Gassmann rocks
  // ---------------------------------------------------------------------

  /** DEM's alpha: the inclusions' aspect ratios, then the host fraction, then the inclusion fractions. */
  predicate DemAlphaLayout(alpha: seq<real>, aspect: seq<seq<DistributionWithTrendStorage?>>,
                           volumes: seq<seq<DistributionWithTrendStorage?>>)
    requires NonEmptyLists(aspect) && NonEmptyLists(volumes)
    requires forall s :: 0 <= s < |aspect| ==> aspect[s][0] != null
  {
    |alpha| == |aspect| + |volumes| &&
    (forall s :: 0 <= s < |aspect| ==> alpha[s] == aspect[s][0].GetOneYearCorrelation()) &&
    (forall c :: 0 <= c < |volumes| ==> alpha[|aspect| + c] == AlphaOf(volumes[c][0]))
  }

  /** The alpha a DEM rock of these aspect ratios and fractions carries. */
  function DemAlphaOf(aspect: seq<seq<DistributionWithTrendStorage?>>,
                      volumes: seq<seq<DistributionWithTrendStorage?>>): (alpha: seq<real>)
    requires NonEmptyLists(aspect) && NonEmptyLists(volumes)
    requires forall s :: 0 <= s < |aspect| ==> aspect[s][0] != null
    ensures DemAlphaLayout(alpha, aspect, volumes)
  {
    seq(|aspect|, s requires 0 <= s < |aspect| => aspect[s][0].GetOneYearCorrelation()) + MixAlphaOf(volumes)
  }

  method DemAlpha(aspect: seq<seq<DistributionWithTrendStorage?>>, volumes: seq<seq<DistributionWithTrendStorage?>>)
    returns (alpha: seq<real>)
    requires NonEmptyLists(aspect) && NonEmptyLists(volumes)
    requires forall s :: 0 <= s < |aspect| ==> aspect[s][0] != null
    ensures DemAlphaLayout(alpha, aspect, volumes) && alpha == DemAlphaOf(aspect, volumes)
  {
    alpha := [];
    var s := 0;
    while s < |aspect|
      invariant 0 <= s <= |aspect| && |alpha| == s
      invariant forall k :: 0 <= k < s ==> alpha[k] == aspect[k][0].GetOneYearCorrelation()
    {
      alpha := alpha + [aspect[s][0].GetOneYearCorrelation()];
      s := s + 1;
    }
    var c := 0;
    while c < |volumes|
      invariant 0 <= c <= |volumes| && |alpha| == |aspect| + c
      invariant forall k :: 0 <= k < |aspect| ==> alpha[k] == aspect[k][0].GetOneYearCorrelation()
      invariant forall k :: 0 <= k < c ==> alpha[|aspect| + k] == AlphaOf(volumes[k][0])
    {
      alpha := alpha + [AlphaOf(volumes[c][0])];
      c := c + 1;
    }
    DemAlphaLayoutUnique(alpha, DemAlphaOf(aspect, volumes), aspect, volumes);
  }

  /** DemAlphaLayout fixes every entry of alpha. */
  lemma DemAlphaLayoutUnique(a: seq<real>, b: seq<real>, aspect: seq<seq<DistributionWithTrendStorage?>>,
                             volumes: seq<seq<DistributionWithTrendStorage?>>)
    requires NonEmptyLists(aspect) && NonEmptyLists(volumes)
    requires forall s :: 0 <= s < |aspect| ==> aspect[s][0] != null
    requires DemAlphaLayout(a, aspect, volumes) && DemAlphaLayout(b, aspect, volumes)
    ensures a == b
  {
    forall k | 0 <= k < |a|
      ensures a[k] == b[k]
    {
      if k >= |aspect| {
        var c := k - |aspect|;
        assert a[|aspect| + c] == AlphaOf(volumes[c][0]) == b[|aspect| + c];
      }
    }
  }

  /**
   * A DEM storage whose host fraction is given for vintage 0 only, and left
   * NULL there, next to an inclusion fraction with two vintages: vintage 1
   * must carry the host fraction forward, and every previous vintage that
   * describes it is NULL, so NextFractionAsWritten cannot be called for it.
   */
  lemma DemClonesNullHostFraction(d: DistributionWithTrendStorage)
    ensures var volumes := [[null], [d, d]];
            NonEmptyLists(volumes) && MaxOf(Counts(volumes)) == 2 && 1 >= |volumes[0]| &&
            forall prev: DistributionWithTrend? :: DistSpec(prev) == StorageSpec(Last(volumes[0], 1 - 1)) ==> prev == null
  {
    var volumes: seq<seq<DistributionWithTrendStorage?>> := [[null], [d, d]];
    assert Counts(volumes) == [1, 2];
    assert [1, 2][..1] == [1] && [1][..0] == [];
  }

  /**
   * The same for the aspect ratios: an inclusion whose aspect ratio is given
   * for two vintages, the second NULL, next to a fraction with three
   * vintages. Vintage 2 must carry the aspect ratio forward from vintage 1,
   * which is NULL, so NextFractionAsWritten cannot be called for it.
   */
  lemma DemClonesNullAspectRatio(d: DistributionWithTrendStorage)
    ensures var aspects := [[d, null]];
            var volumes := [[d], [d, d, d]];
            NonEmptyLists(aspects) && NonEmptyLists(volumes) &&
            MaxOf(Counts(aspects) + Counts(volumes)) == 3 && 2 >= |aspects[0]| &&
            forall prev: DistributionWithTrend? :: DistSpec(prev) == StorageSpec(Last(aspects[0], 2 - 1)) ==> prev == null
  {
    var aspects: seq<seq<DistributionWithTrendStorage?>> := [[d, null]];
    var volumes: seq<seq<DistributionWithTrendStorage?>> := [[d], [d, d, d]];
    var counts := Counts(aspects) + Counts(volumes);
    assert counts == [2, 1, 3];
    assert counts[..2] == [2, 1] && [2, 1][..1] == [2] && [2][..0] == [];
  }

  /** `from` followed by the diagnostics of DEM's first `k` vintages: aspect ratios, fractions, then the volume check. */
  function DemErrors(from: string, volumeErr: VolumeCheck, aspect: seq<seq<DistributionWithTrendStorage?>>,
                     volumes: seq<seq<DistributionWithTrendStorage?>>, k: nat): string
    requires NonEmptyLists(volumes)
  {
    if k == 0 then from
    else GenErrs(GenErrs(DemErrors(from, volumeErr, aspect, volumes, k - 1), aspect, k - 1, |aspect|),
                 volumes, k - 1, |volumes|) + volumeErr(VintageSpecs(volumes, k - 1))
  }

  /** GenErrs only appends: `from` is a prefix of the result. */
  lemma {:induction false} GenErrsAppends(from: string, lists: seq<seq<DistributionWithTrendStorage?>>, i: nat, count: nat)
    requires count <= |lists|
    ensures from <= GenErrs(from, lists, i, count)
  {
    if count > 0 {
      GenErrsAppends(from, lists, i, count - 1);
      var e := GenErrs(from, lists, i, count - 1);
      assert e <= e + GenErr(lists[count - 1], i);
    }
  }

  lemma PrefixTransitive(a: string, b: string, c: string)
    requires a <= b && b <= c
    ensures a <= c
  {
    assert c[..|a|] == c[..|b|][..|a|];
  }

  /** One more vintage only appends to DEM's diagnostics. */
  lemma DemErrorsStep(from: string, volumeErr: VolumeCheck, aspect: seq<seq<DistributionWithTrendStorage?>>,
                      volumes: seq<seq<DistributionWithTrendStorage?>>, k: nat)
    requires NonEmptyLists(volumes) && k > 0
    ensures DemErrors(from, volumeErr, aspect, volumes, k - 1) <= DemErrors(from, volumeErr, aspect, volumes, k)
  {
    var e := DemErrors(from, volumeErr, aspect, volumes, k - 1);
    GenErrsAppends(e, aspect, k - 1, |aspect|);
    var e1 := GenErrs(e, aspect, k - 1, |aspect|);
    GenErrsAppends(e1, volumes, k - 1, |volumes|);
    var e2 := GenErrs(e1, volumes, k - 1, |volumes|);
    var ek := e2 + volumeErr(VintageSpecs(volumes, k - 1));
    assert e2 <= ek;
    PrefixTransitive(e, e1, e2);
    PrefixTransitive(e, e2, ek);
  }

  /** The diagnostics of fewer vintages are a prefix of those of more. */
  lemma {:induction false} DemErrorsGrow(from: string, volumeErr: VolumeCheck, aspect: seq<seq<DistributionWithTrendStorage?>>,
                                         volumes: seq<seq<DistributionWithTrendStorage?>>, j: nat, k: nat)
    requires NonEmptyLists(volumes) && j <= k
    ensures DemErrors(from, volumeErr, aspect, volumes, j) <= DemErrors(from, volumeErr, aspect, volumes, k)
  {
    if j < k {
      DemErrorsGrow(from, volumeErr, aspect, volumes, j, k - 1);
      DemErrorsStep(from, volumeErr, aspect, volumes, k);
      PrefixTransitive(DemErrors(from, volumeErr, aspect, volumes, j), DemErrors(from, volumeErr, aspect, volumes, k - 1),
                       DemErrors(from, volumeErr, aspect, volumes, k));
    }
  }

  /**
   * DEM builds a vintage only while the error text is empty, and error text
   * only grows: the vintages it builds are the first ones.
   */
  lemma DemBuiltVintagesArePrefix(volumeErr: VolumeCheck, from: string, aspect: seq<seq<DistributionWithTrendStorage?>>,
                                  volumes: seq<seq<DistributionWithTrendStorage?>>, rocks: seq<DistributionsRock?>)
    requires NonEmptyLists(volumes)
    requires forall i :: 0 <= i < |rocks| ==> (rocks[i] != null <==> DemErrors(from, volumeErr, aspect, volumes, i + 1) == "")
    ensures forall i, j :: 0 <= j <= i < |rocks| && rocks[i] != null ==> rocks[j] != null
  {
    forall i, j | 0 <= j <= i < |rocks| && rocks[i] != null
      ensures rocks[j] != null
    {
      DemErrorsGrow(from, volumeErr, aspect, volumes, j + 1, i + 1);
      var ej, ei := DemErrors(from, volumeErr, aspect, volumes, j + 1), DemErrors(from, volumeErr, aspect, volumes, i + 1);
      assert ei == "";
      assert |ej| <= |ei|;
    }
  }

  /** The error text after each of DEM's first `n` vintages. */
  function DemTexts(from: string, volumeErr: VolumeCheck, aspect: seq<seq<DistributionWithTrendStorage?>>,
                    volumes: seq<seq<DistributionWithTrendStorage?>>, n: nat): (r: seq<string>)
    requires NonEmptyLists(volumes)
    ensures |r| == n
  {
    if n == 0 then [] else DemTexts(from, volumeErr, aspect, volumes, n - 1) + [DemErrors(from, volumeErr, aspect, volumes, n)]
  }

  /** Entry `k` of DemTexts is the error text once vintages 0 to `k` are done. */
  lemma {:induction false} DemTextsAt(from: string, volumeErr: VolumeCheck, aspect: seq<seq<DistributionWithTrendStorage?>>,
                                      volumes: seq<seq<DistributionWithTrendStorage?>>, n: nat, k: nat)
    requires NonEmptyLists(volumes) && k < n
    ensures DemTexts(from, volumeErr, aspect, volumes, n)[k] == DemErrors(from, volumeErr, aspect, volumes, k + 1)
  {
    var init := DemTexts(from, volumeErr, aspect, volumes, n - 1);
    assert DemTexts(from, volumeErr, aspect, volumes, n) == init + [DemErrors(from, volumeErr, aspect, volumes, n)];
    if k < n - 1 {
      DemTextsAt(from, volumeErr, aspect, volumes, n - 1, k);
      assert (init + [DemErrors(from, volumeErr, aspect, volumes, n)])[k] == init[k];
    }
  }

  /** A DEM rock for vintage `i` of the given host and inclusions. */
  predicate DemKind(aspects: seq<seq<DistributionWithTrendStorage?>>, volumes: seq<seq<DistributionWithTrendStorage?>>,
                    host: DistributionsSolid?, inclusions: seq<DistributionsFluid?>, alpha: seq<real>,
                    i: nat, kind: RockKind)
    requires NonEmptyLists(aspects) && NonEmptyLists(volumes)
  {
    kind.Dem? && kind.host == host && kind.inclusions == inclusions &&
    DistSpecs(kind.aspectRatios) == VintageSpecs(aspects, i) &&
    DistSpecs(kind.fractions) == VintageSpecs(volumes, i) &&
    kind.alpha == alpha
  }

  /** Vintage `k` of DEM: a rock exactly when its error text is empty, and then the vintage's DEM rock. */
  predicate DemEntry(aspects: seq<seq<DistributionWithTrendStorage?>>, volumes: seq<seq<DistributionWithTrendStorage?>>,
                     host: DistributionsSolid?, inclusions: seq<DistributionsFluid?>, alpha: seq<real>,
                     k: nat, rock: DistributionsRock?, text: string)
    requires NonEmptyLists(aspects) && NonEmptyLists(volumes)
  {
    (rock != null <==> text == "") &&
    (rock != null ==> DemKind(aspects, volumes, host, inclusions, alpha, k, rock.kind))
  }

  /**
   * The first `|rocks|` vintages of DEM: `texts` holds the error text after
   * each, a rock is built exactly for the vintages after which the text is
   * empty, and each built rock is the vintage's DEM rock.
   */
  predicate DemSoFar(volumeErr: VolumeCheck, aspects: seq<seq<DistributionWithTrendStorage?>>,
                     volumes: seq<seq<DistributionWithTrendStorage?>>, hosts: seq<DistributionsSolid?>,
                     inclusions: seq<seq<DistributionsFluid?>>, alpha: seq<real>, from: string,
                     rocks: seq<DistributionsRock?>, texts: seq<string>)
    requires NonEmptyLists(aspects) && NonEmptyLists(volumes)
    requires |rocks| <= |hosts| && |inclusions| == |hosts|
  {
    texts == DemTexts(from, volumeErr, aspects, volumes, |rocks|) &&
    forall k :: 0 <= k < |rocks| ==> DemEntry(aspects, volumes, hosts[k], inclusions[k], alpha, k, rocks[k], texts[k])
  }

  /** One more vintage, with its error text and (when that is empty) its DEM rock, extends DemSoFar. */
  lemma DemSoFarSnoc(volumeErr: VolumeCheck, aspects: seq<seq<DistributionWithTrendStorage?>>,
                     volumes: seq<seq<DistributionWithTrendStorage?>>, hosts: seq<DistributionsSolid?>,
                     inclusions: seq<seq<DistributionsFluid?>>, alpha: seq<real>, from: string,
                     rocks: seq<DistributionsRock?>, texts: seq<string>, rock: DistributionsRock?, text: string)
    requires NonEmptyLists(aspects) && NonEmptyLists(volumes)
    requires |rocks| < |hosts| && |inclusions| == |hosts|
    requires DemSoFar(volumeErr, aspects, volumes, hosts, inclusions, alpha, from, rocks, texts)
    requires text == DemErrors(from, volumeErr, aspects, volumes, |rocks| + 1)
    requires DemEntry(aspects, volumes, hosts[|rocks|], inclusions[|rocks|], alpha, |rocks|, rock, text)
    ensures DemSoFar(volumeErr, aspects, volumes, hosts, inclusions, alpha, from, rocks + [rock], texts + [text])
  {
    var n := |rocks|;
    var rocksNext, textsNext := rocks + [rock], texts + [text];
    assert |rocksNext| == n + 1;
    assert DemTexts(from, volumeErr, aspects, volumes, n + 1) == texts + [text];
    forall k | 0 <= k < n + 1
      ensures DemEntry(aspects, volumes, hosts[k], inclusions[k], alpha, k, rocksNext[k], textsNext[k])
    {
      if k < n {
        assert rocksNext[k] == rocks[k] && textsNext[k] == texts[k];
      }
    }
  }

  /**
   * One DEM vintage: aspect ratios and fractions generated or cloned, the
   * volume check, and the rock built only if the error text is still empty.
   */
  method DemVintage(volumeErr: VolumeCheck, aspects: seq<seq<DistributionWithTrendStorage?>>,
                    volumes: seq<seq<DistributionWithTrendStorage?>>, i: nat,
                    prevAspects: seq<DistributionWithTrend?>, prevVolumes: seq<DistributionWithTrend?>,
                    host: DistributionsSolid?, fluids: seq<DistributionsFluid?>, alpha: seq<real>,
                    ghost from: string, errTxt: string)
    returns (rock: DistributionsRock?, curAspects: seq<DistributionWithTrend?>,
             curVolumes: seq<DistributionWithTrend?>, newErrTxt: string)
    requires NonEmptyLists(aspects) && NonEmptyLists(volumes)
    requires |prevAspects| == |aspects| && |prevVolumes| == |volumes|
    requires i > 0 ==> DistSpecs(prevAspects) == VintageSpecs(aspects, i - 1)
    requires i > 0 ==> DistSpecs(prevVolumes) == VintageSpecs(volumes, i - 1)
    requires errTxt == DemErrors(from, volumeErr, aspects, volumes, i)
    ensures DistSpecs(curAspects) == VintageSpecs(aspects, i)
    ensures DistSpecs(curVolumes) == VintageSpecs(volumes, i)
    ensures newErrTxt == DemErrors(from, volumeErr, aspects, volumes, i + 1)
    ensures DemEntry(aspects, volumes, host, fluids, alpha, i, rock, newErrTxt)
    ensures fresh(Owned(rock))
  {
    CarriedFromPrevious(aspects, prevAspects, i);
    CarriedFromPrevious(volumes, prevVolumes, i);
    curAspects, newErrTxt := NextFractions(aspects, i, prevAspects, errTxt);
    curVolumes, newErrTxt := NextFractions(volumes, i, prevVolumes, newErrTxt);
    newErrTxt := newErrTxt + volumeErr(DistSpecs(curVolumes));
    rock := null;
    if newErrTxt == "" {
      rock := new DistributionsRock(Dem(host, fluids, curAspects, curVolumes, alpha));
    }
  }

  /** DemSoFar read back through DemTextsAt: a rock is built exactly for the vintages after which DemErrors is empty. */
  lemma DemSoFarTexts(volumeErr: VolumeCheck, aspects: seq<seq<DistributionWithTrendStorage?>>,
                      volumes: seq<seq<DistributionWithTrendStorage?>>, hosts: seq<DistributionsSolid?>,
                      inclusions: seq<seq<DistributionsFluid?>>, alpha: seq<real>, from: string,
                      rocks: seq<DistributionsRock?>, texts: seq<string>)
    requires NonEmptyLists(aspects) && NonEmptyLists(volumes)
    requires |rocks| <= |hosts| && |inclusions| == |hosts|
    requires DemSoFar(volumeErr, aspects, volumes, hosts, inclusions, alpha, from, rocks, texts)
    ensures forall k :: 0 <= k < |rocks| ==> (rocks[k] != null <==> DemErrors(from, volumeErr, aspects, volumes, k + 1) == "")
    ensures forall k :: 0 <= k < |rocks| && rocks[k] != null ==>
              DemKind(aspects, volumes, hosts[k], inclusions[k], alpha, k, rocks[k].kind)
  {
    forall k | 0 <= k < |rocks|
      ensures rocks[k] != null <==> DemErrors(from, volumeErr, aspects, volumes, k + 1) == ""
      ensures rocks[k] != null ==> DemKind(aspects, volumes, hosts[k], inclusions[k], alpha, k, rocks[k].kind)
    {
      assert DemEntry(aspects, volumes, hosts[k], inclusions[k], alpha, k, rocks[k], texts[k]);
      DemTextsAt(from, volumeErr, aspects, volumes, |rocks|, k);
    }
  }

  /**
   * The vintage loop of the DEM storage: every vintage is generated and
   * checked, and its rock is built only while the error text is empty.
   */
  method DemVintages(volumeErr: VolumeCheck, aspects: seq<seq<DistributionWithTrendStorage?>>,
                     volumes: seq<seq<DistributionWithTrendStorage?>>, hosts: seq<DistributionsSolid?>,
                     inclusions: seq<seq<DistributionsFluid?>>, alpha: seq<real>, errTxt: string)
    returns (rocks: seq<DistributionsRock?>, newErrTxt: string)
    requires NonEmptyLists(aspects) && NonEmptyLists(volumes)
    requires |inclusions| == |hosts|
    ensures |rocks| == |hosts|
    ensures newErrTxt == DemErrors(errTxt, volumeErr, aspects, volumes, |rocks|)
    ensures forall k :: 0 <= k < |rocks| ==> (rocks[k] != null <==> DemErrors(errTxt, volumeErr, aspects, volumes, k + 1) == "")
    ensures forall k :: 0 <= k < |rocks| && rocks[k] != null ==>
              DemKind(aspects, volumes, hosts[k], inclusions[k], alpha, k, rocks[k].kind)
    ensures forall k :: 0 <= k < |rocks| ==> fresh(Owned(rocks[k]))
  {
    newErrTxt := errTxt;
    rocks := [];
    ghost var texts := [];
    var prevAspects: seq<DistributionWithTrend?> := seq(|aspects|, _ => null);
    var prevVolumes: seq<DistributionWithTrend?> := seq(|volumes|, _ => null);
    var i := 0;
    while i < |hosts|
      invariant i == |rocks| <= |hosts|
      invariant |prevAspects| == |aspects| && |prevVolumes| == |volumes|
      invariant i > 0 ==> DistSpecs(prevAspects) == VintageSpecs(aspects, i - 1)
      invariant i > 0 ==> DistSpecs(prevVolumes) == VintageSpecs(volumes, i - 1)
      invariant newErrTxt == DemErrors(errTxt, volumeErr, aspects, volumes, i)
      invariant DemSoFar(volumeErr, aspects, volumes, hosts, inclusions, alpha, errTxt, rocks, texts)
      invariant forall k :: 0 <= k < i ==> fresh(Owned(rocks[k]))
    {
      var rock;
      rock, prevAspects, prevVolumes, newErrTxt :=
        DemVintage(volumeErr, aspects, volumes, i, prevAspects, prevVolumes, hosts[i], inclusions[i], alpha, errTxt, newErrTxt);
      DemSoFarSnoc(volumeErr, aspects, volumes, hosts, inclusions, alpha, errTxt, rocks, texts, rock, newErrTxt);
      rocks, texts := rocks + [rock], texts + [newErrTxt];
      i := i + 1;
    }
    DemSoFarTexts(volumeErr, aspects, volumes, hosts, inclusions, alpha, errTxt, rocks, texts);
  }

  class DemRockStorage {
    const host: string
    const hostFraction: seq<DistributionWithTrendStorage?>
    const inclusions: seq<string>
    const inclusionFractions: seq<seq<DistributionWithTrendStorage?>>
    const aspectRatios: seq<seq<DistributionWithTrendStorage?>>

    constructor (host: string, hostFraction: seq<DistributionWithTrendStorage?>, inclusions: seq<string>,
                 inclusionFractions: seq<seq<DistributionWithTrendStorage?>>,
                 aspectRatios: seq<seq<DistributionWithTrendStorage?>>)
      ensures this.host == host && this.hostFraction == hostFraction && this.inclusions == inclusions
      ensures this.inclusionFractions == inclusionFractions && this.aspectRatios == aspectRatios
    {
      this.host := host;
      this.hostFraction := hostFraction;
      this.inclusions := inclusions;
      this.inclusionFractions := inclusionFractions;
      this.aspectRatios := aspectRatios;
    }

    /** The fraction lists in DEM order: the host first, then the inclusions. */
    function Volumes(): (v: seq<seq<DistributionWithTrendStorage?>>)
      ensures |v| == |inclusionFractions| + 1 && v[0] == hostFraction
      ensures forall s :: 0 <= s < |inclusionFractions| ==> v[s + 1] == inclusionFractions[s]
    {
      [hostFraction] + inclusionFractions
    }

    /** One aspect-ratio list per inclusion. */
    function Aspects(): seq<seq<DistributionWithTrendStorage?>>
      requires |aspectRatios| >= |inclusionFractions|
    {
      aspectRatios[..|inclusionFractions|]
    }

    /** The inclusions that are read, one per fraction list. */
    function Labels(): seq<string>
      requires |inclusions| >= |inclusionFractions|
    {
      inclusions[..|inclusionFractions|]
    }

    function VintageCount(): nat
      requires |aspectRatios| >= |inclusionFractions|
    {
      MaxOf(Counts(Aspects()) + Counts(Volumes()))
    }

    /** The configuration the DEM storage is built with: matching lists, none of them empty. */
    predicate Configured()
    {
      |inclusions| >= |inclusionFractions| && |aspectRatios| >= |inclusionFractions| &&
      NonEmptyLists(Aspects()) && NonEmptyLists(Volumes()) &&
      (forall s :: 0 <= s < |inclusionFractions| ==> aspectRatios[s][0] != null)
    }

    /** The host and every inclusion name a model that exists. */
    predicate KitReadable(kit: StorageKit)
      requires |inclusions| >= |inclusionFractions|
    {
      |kit.solidOf(host)| > 0 && forall s :: 0 <= s < |Labels()| ==> |kit.fluidOf(Labels()[s])| > 0
    }

    /** The error text once the host and the inclusions are read. */
    function ReadText(kit: StorageKit, errTxt: string): string
      requires |inclusions| >= |inclusionFractions|
    {
      ReadErrors(errTxt + kit.solidErr(host), kit.fluidErr, Labels(), |Labels()|)
    }

    /** The error text after the host, the inclusions and the first `k` vintages. */
    function CheckedText(kit: StorageKit, errTxt: string, k: nat): string
      requires Configured()
    {
      DemErrors(ReadText(kit, errTxt), kit.volumeErr, Aspects(), Volumes(), k)
    }

    /** Vintage `i`'s rock: the host's and inclusions' vintage-`i` models with vintage `i`'s aspect ratios and fractions. */
    predicate BuiltVintage(kit: StorageKit, i: nat, rock: DistributionsRock)
      requires Configured() && KitReadable(kit)
    {
      DemKind(Aspects(), Volumes(), Last(kit.solidOf(host), i), ModelsAt(kit.fluidOf, Labels(), i),
              DemAlphaOf(Aspects(), Volumes()), i, rock.kind)
    }

    /** One DEM rock per vintage while the error text stays empty, NULL from the first problem on. */
    method GenerateDistributionsRock(kit: StorageKit, errTxt: string) returns (rocks: seq<DistributionsRock?>, newErrTxt: string)
      requires Configured() && KitReadable(kit)
      ensures |rocks| == VintageCount()
      ensures newErrTxt == CheckedText(kit, errTxt, |rocks|)
      ensures forall i :: 0 <= i < |rocks| ==> (rocks[i] != null <==> CheckedText(kit, errTxt, i + 1) == "")
      ensures forall i :: 0 <= i < |rocks| && rocks[i] != null ==> BuiltVintage(kit, i, rocks[i])
      ensures forall i :: 0 <= i < |rocks| ==> fresh(Owned(rocks[i]))
    {
      var aspects := Aspects();
      var volumes := Volumes();
      var labels := Labels();
      var alpha := DemAlpha(aspects, volumes);
      var maxV := MaxVintage(Counts(aspects) + Counts(volumes));
      var hosts := CarryForward(kit.solidOf(host), maxV);
      newErrTxt := errTxt + kit.solidErr(host);
      var fluids;
      fluids, newErrTxt := ReadColumns(kit.fluidOf, kit.fluidErr, labels, maxV, newErrTxt);
      var inclusionModels := seq(maxV, i requires 0 <= i < maxV => Row(fluids, i));
      rocks, newErrTxt := DemVintages(kit.volumeErr, aspects, volumes, hosts, inclusionModels, alpha, newErrTxt);
      forall i | 0 <= i < |rocks| && rocks[i] != null
        ensures BuiltVintage(kit, i, rocks[i])
      {
        ColumnsRow(fluids, kit.fluidOf, labels, maxV, i);
        assert inclusionModels[i] == ModelsAt(kit.fluidOf, labels, i);
      }
    }
  }

  const GassmannNotImplemented: string := "The Gassmann model has not been implemented yet for rocks\n"

  class GassmannRockStorage {
    const dryRock: string
    const fluid: string

    constructor (dryRock: string, fluid: string)
      ensures this.dryRock == dryRock && this.fluid == fluid
    {
      this.dryRock := dryRock;
      this.fluid := fluid;
    }

    /** The Gassmann rock is not implemented: one NULL vintage and a diagnostic. */
    method GenerateDistributionsRock(errTxt: string) returns (rocks: seq<DistributionsRock?>, newErrTxt: string)
      ensures rocks == [null]
      ensures newErrTxt == errTxt + GassmannNotImplemented
    {
      rocks := [null];
      newErrTxt := errTxt;
      if rocks[0] == null {
        newErrTxt := newErrTxt + GassmannNotImplemented;
      }
    }
  }
}
