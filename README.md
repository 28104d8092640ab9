# Rock-physics tabulation, vintage factories and spatial well filtering

This project models four pieces of the CRAVA seismic inversion program, in
Dafny, and proves properties of them:

* **The tabulation cache of a rock distribution** (`RockTabulation`,
  `distributions_rock.dfy`). A rock distribution with two trend parameters
  samples each trend axis over [s_min, s_max] and builds the mesh of trend
  points. In every cell of a 10 x 10 mesh it draws 1024 rocks and stores the
  sample mean and the unbiased sample covariance of (vp, vs, rho).
  GetExpectation and GetCovariance answer a query by four-corner bilinear
  blending of the stored cells. GenerateWellSample chains samples along a
  well, and EvolveSample makes a time update.
* **The vintage factories of the rock storages** (`RockStorage`,
  `distributions_rock_storage.dfy`). The tabulated-velocity,
  tabulated-modulus, Reuss, Voigt, Hill, DEM, Gassmann and bounding storages
  each turn their per-vintage input lists into one rock per vintage:
  * the number of vintages is the longest list;
  * a missing vintage of a distribution with trend is a fresh clone of the
    previous vintage;
  * a missing vintage of a constituent or bound model shares the previous
    vintage's object;
  * the `alpha` vector of one-year correlations has a builder-specific
    layout;
  * constituents are split into solids and fluids;
  * diagnostics are only ever appended to the error texts.
* **The tabulated-modulus solid distribution** (`SolidTabulatedModulus`,
  `distributions_solid_tabulated_modulus.dfy`). It holds the symmetric,
  unit-diagonal correlation matrix, the distribution and trend flags, and
  sampling through the tabulation's quantile map.
* **The spatial well filter's bookkeeping** (`SpatialFilter`,
  `spatial_well_filter.dfy`):
  * gap filling of residual well logs: leading gaps copy the first
    residual, interior gaps are linearly interpolated, trailing gaps carry
    the last residual;
  * the block layout and masking of the filtered logs;
  * the prior spatial correlation matrix of a well;
  * the accumulation, normalisation and mirroring of the noise covariance
    `sigmae`;
  * the bit decoding of the local-noise configurations.

Two support modules hold shapes the core uses but does not define:
* `Distributions` (`distributions.dfy`) holds the distribution with trend
  and its storage, whose `Clone` and `GenerateDistributionWithTrend` return
  fresh objects, and a random stream of uniforms;
* `Common` (`common.dfy`) holds `Option`.

Conventions used throughout:
* `double` and `float` are `real`, and `floor` is `.Floor`.
* Missing log values are the sentinel `RMISSING` = -99999.
* Some helpers have bodies that are not part of this model: the reads of
  rock, solid and fluid models, `CheckVolumeConsistency`,
  `FindMixTypesForRock`, `GetQuantileValues`, `getRealValueCyclic`, and a
  rock model's `GenerateSample`/`UpdateSample`. Each is a function-typed
  parameter or field, and it yields both its result and the diagnostics it
  appends.
* Random draws are read from a stream indexed by the number of draws made
  so far.

## Model

| member | source | states |
|---|---|---|
| RockTabulation.SampleTrendValues | rplib/distributionsrock.cpp:179-193 | the sampled axis has the requested length; its last element is s_max, its first is s_min (when n >= 2), and interior element i is s_min + ((s_max - s_min)/n)(i - 1) |
| RockTabulation.SampledAxisRepeatsFirst | rplib/distributionsrock.cpp:185-191 | on an axis of three or more samples the first two elements are both s_min, so the grid spacing read from them is zero |
| RockTabulation.SampledAxisInterior | rplib/distributionsrock.cpp:190-192 | interior samples are nondecreasing and at least s_min, and they stay strictly below s_max when s_max > s_min |
| RockTabulation.FindTabulatedTrendParams | rplib/distributionsrock.cpp:127-156 | the four trend cases: both axes sampled over their own bounds; first only, where the second axis becomes [0.0]; second only, where the first becomes [0.0] and the second is left as it was; neither, where both become [0.0] |
| RockTabulation.SetupTrendMesh | rplib/distributionsrock.cpp:159-175 | the mesh is \|t1\| x \|t2\| and cell (i, j) is the trend point [t1[i], t2[j]] |
| RockTabulation.FindExpectation | rplib/distributionsrock.cpp:196-206 | the accumulator loop returns the sample mean sum(p)/\|p\| |
| RockTabulation.FindCovariance | rplib/distributionsrock.cpp:209-223 | the accumulator loop returns the sum of (p[i]-mp)(q[i]-mq) over p's length, divided by n-1 only when n > 1 |
| RockTabulation.CrossSumSymmetric | rplib/distributionsrock.cpp:217-219 | the sum of cross products is symmetric in (p, mp) and (q, mq) |
| RockTabulation.CrossSumSelfNonNegative | rplib/distributionsrock.cpp:217-219 | the sum of squared deviations is nonnegative |
| RockTabulation.SampleCovarianceSymmetric | rplib/distributionsrock.cpp:209-223 | the sample covariance is symmetric, and a variance is nonnegative |
| RockTabulation.SumCentered | rplib/distributionsrock.cpp:196-223 | subtracting c from every element lowers the sum by \|p\|c |
| RockTabulation.DeviationsFromMeanSumToZero | rplib/distributionsrock.cpp:196-223 | the deviations from FindExpectation's mean sum to zero |
| RockTabulation.CellCovarianceSymmetric | rplib/distributionsrock.cpp:94-105 | a cell's 3x3 covariance, filled in its upper triangle and mirrored, is symmetric with a nonnegative diagonal |
| RockTabulation.TabulateCell | rplib/distributionsrock.cpp:74-105 | one mesh cell: the mean and covariance of the cell's 1024 consecutive draws at its trend point |
| RockTabulation.DrawCell | rplib/distributionsrock.cpp:76-80 | the three draw buffers hold the components of the cell's consecutive draws |
| RockTabulation.CellStatistics | rplib/distributionsrock.cpp:82-105 | the three means and the six covariances the cell stores, mirrored into a 3x3 matrix |
| RockTabulation.TabulateRow | rplib/distributionsrock.cpp:72-121 | one mesh row of expectations and covariances, each cell from its own stretch of the random stream |
| RockTabulation.TabulateMesh | rplib/distributionsrock.cpp:71-122 | every cell of the mesh is tabulated from its trend point, row after row |
| RockTabulation.TabulatedRock.SetupExpectationAndCovariances | rplib/distributionsrock.cpp:36-124 | both axes have 10 sampled values, the tables are 10 x 10, and every cell holds the statistics of its draws |
| RockTabulation.FindInterpolationStartIndex | rplib/distributionsrock.cpp:279-291 | 0 for an empty axis, else s divided by the spacing of the first two elements, with no offset by t[0] |
| RockTabulation.StartIndexOfGridPoint | rplib/distributionsrock.cpp:279-291 | at grid point i·(t[1]-t[0]) the start index is exactly i |
| RockTabulation.SampledAxisNotIndexable | rplib/distributionsrock.cpp:279-291 | an axis from SampleTrendValues with three or more samples cannot be indexed: its spacing is zero |
| RockTabulation.SetupTablesNotInterpolable | rplib/distributionsrock.cpp:252-273 | tables with the 10 sampled values per axis that SetupExpectationAndCovariances builds are neither 1 x 1 nor interpolable, so neither lookup's requirement holds for them |
| RockTabulation.EvenAxisIndexable | rplib/distributionsrock.cpp:279-291 | an evenly spaced axis over a non-empty range, the spacing the start index assumes, can be indexed and its first interval is the spacing |
| RockTabulation.FindInterpolationWeights | rplib/distributionsrock.cpp:294-315 | the four weights lie in [0,1] and sum to 1; the marginals are the fractional parts of di and dj; at integer (di, dj) the weights are (1,0,0,0) |
| RockTabulation.BlendBounds | rplib/distributionsrock.cpp:353 | a convex blend of four corner values lies between their bounds |
| RockTabulation.BlendAbove | rplib/distributionsrock.cpp:353 | a convex blend of values at least lo is at least lo |
| RockTabulation.BlendBelow | rplib/distributionsrock.cpp:353 | a convex blend of values at most hi is at most hi |
| RockTabulation.WeightedSumAbove | rplib/distributionsrock.cpp:353 | a convex combination of four reals is at least their lower bound |
| RockTabulation.WeightedSumBelow | rplib/distributionsrock.cpp:353 | a convex combination of four reals is at most their upper bound |
| RockTabulation.InterpolateExpectation | rplib/distributionsrock.cpp:318-354 | mean[p] becomes the weighted sum of component p at the four corners from (floor di, floor dj), and no other entry changes |
| RockTabulation.InterpolateCovariance | rplib/distributionsrock.cpp:397-434 | cov(p, q) becomes the weighted sum of entry (p, q) at the four corners, and no other entry changes |
| RockTabulation.TabulatedRock.GetExpectation | rplib/distributionsrock.cpp:226-274 | a 1 x 1 table returns cell (0,0); otherwise it returns the three blended components |
| RockTabulation.TabulatedRock.GetCovariance | rplib/distributionsrock.cpp:358-394 | a 1 x 1 table returns cell (0,0); otherwise it returns the six blended upper entries, mirrored |
| RockTabulation.DegenerateLookupIgnoresTrend | rplib/distributionsrock.cpp:254-256 | with both axes of size 1 both lookups (here and at lines 367-369 of GetCovariance) return cell (0,0) whatever the trend |
| RockTabulation.ExpectationAtGridPoint | rplib/distributionsrock.cpp:258-273 | at a query on a grid point the lookup returns that cell's stored expectation |
| RockTabulation.ExpectationBetweenCorners | rplib/distributionsrock.cpp:318-354 | each blended component lies between the smallest and the largest of its four corner values |
| RockTabulation.ExpectationAtCellCentre | rplib/distributionsrock.cpp:294-354 | an example: halfway between corners 1, 3, 5 and 7 the lookup returns 4 |
| RockTabulation.CovarianceLookupSymmetric | rplib/distributionsrock.cpp:382-391 | the interpolated covariance is 3x3 and symmetric; when the corner cells are symmetric, each entry is also the blend of that entry at the four corners |
| RockTabulation.GenerateWellSample | rplib/distributionsrock.cpp:8-25 | index 0 of vp, vs and rho holds a fresh sample; index i holds that sample updated i times with a spatial, not a time, correlation; entries past vp's length are untouched |
| RockTabulation.Store | rplib/distributionsrock.cpp:14-20 | one sample's seismic parameters are written at index i of the three logs and nothing else changes |
| RockTabulation.EvolveSample | rplib/distributionsrock.cpp:27-32 | a time update of the rock with the zero trend vector of length 2 |
| RockStorage.MaxOfIsMaximum | rplib/distributionsrockstorage.cpp:61-65 | the vintage count bounds every list's count, and it equals one of them when there is a list |
| RockStorage.Counts | rplib/distributionsrockstorage.cpp:57-59 | one count per constituent, equal to its number of vintages |
| RockStorage.MaxVintage | rplib/distributionsrockstorage.cpp:61-65 | the loop computes the largest count, 0 for no constituent |
| RockStorage.CarryForward | rplib/distributionsrockstorage.cpp:691-696 | maxV entries; each configured vintage is kept, and each later vintage shares the previous entry |
| RockStorage.ColumnsRow | rplib/distributionsrockstorage.cpp:139-146 | a vintage's row of carried-forward constituent models is each constituent's own or last model |
| RockStorage.ReadColumns | rplib/distributionsrockstorage.cpp:703-720 | every label is read once, in order; its models are carried forward to maxV vintages and its diagnostics appended |
| RockStorage.BuildRocks | rplib/distributionsrockstorage.cpp:310-319 | one new rock of the given kind per vintage |
| RockStorage.DistSpecs | rplib/distributionsrockstorage.cpp:76-79 | one specification (or none, for NULL) per distribution |
| RockStorage.VintageSpecs | rplib/distributionsrockstorage.cpp:81-93 | one specification per constituent for a vintage |
| RockStorage.NextFraction | rplib/distributionsrockstorage.cpp:85-92 | a vintage's fraction is generated from its own storage, or cloned from the previous vintage when the list is shorter; a NULL stays NULL; generation diagnostics are appended |
| RockStorage.NextFractionAsWritten | rplib/distributionsrockstorage.cpp:735-750 | DEM's carry-forward as written, which clones the previous vintage without a NULL check and so needs it non-NULL |
| RockStorage.NextFractions | rplib/distributionsrockstorage.cpp:83-93 | a vintage's fractions for every constituent, each new, with the diagnostics of each generation in order |
| RockStorage.CarriedFromPrevious | rplib/distributionsrockstorage.cpp:89-92 | a constituent with fewer vintages than i gets the specification of its vintage i-1 |
| RockStorage.MixAlphaOf | rplib/distributionsrockstorage.cpp:67-73 | alpha has one entry per constituent: the vintage-0 one-year correlation of its fraction, or 1 for a NULL fraction |
| RockStorage.MixAlpha | rplib/distributionsrockstorage.cpp:67-73 | the loop builds MixAlphaOf's vector |
| RockStorage.MixVintage | rplib/distributionsrockstorage.cpp:81-96 | a vintage's fractions and their generation diagnostics, then exactly one volume check of that vintage |
| RockStorage.Built | rplib/distributionsrockstorage.cpp:81-96 | the set of non-NULL distributions of a list contains each of them |
| RockStorage.AllInSnoc | rplib/distributionsrockstorage.cpp:81-96 | the objects made so far grow with each vintage's new distributions |
| RockStorage.SpecsSoFarSnoc | rplib/distributionsrockstorage.cpp:81-96 | appending one vintage's fractions keeps every vintage's specifications right |
| RockStorage.MixVolumeFractions | rplib/distributionsrockstorage.cpp:75-96 | maxV vintages of new fractions with the right specifications; one volume check per vintage to errTxt; generation diagnostics to the local text |
| RockStorage.MixOfRockVintages | rplib/distributionsrockstorage.cpp:118-151 | one rock of rocks per vintage, from that vintage's shared constituent models and its fractions |
| RockStorage.Positions | rplib/distributionsrockstorage.cpp:162-223 | the constituent positions of one side (fluid or solid), each below the count and of that side |
| RockStorage.PositionsIncreasing | rplib/distributionsrockstorage.cpp:162-223 | the positions keep the constituents' order |
| RockStorage.PositionsMembers | rplib/distributionsrockstorage.cpp:164-194 | a constituent goes to the fluid list exactly when its type is FLUID, otherwise to the solid list |
| RockStorage.PositionsCount | rplib/distributionsrockstorage.cpp:159-223 | the solid and fluid lists together hold every constituent once |
| RockStorage.ReadConstituents | rplib/distributionsrockstorage.cpp:162-223 | each constituent is read as a fluid or a solid by its type; its models are carried forward; read diagnostics go to errTxt |
| RockStorage.PickedColumnsSnoc | rplib/distributionsrockstorage.cpp:176-189 | adding one constituent's column extends the picked columns |
| RockStorage.PickedColumnsRow | rplib/distributionsrockstorage.cpp:179-214 | a vintage's row of picked columns is the picked constituents' models for that vintage |
| RockStorage.MixOfSolidAndFluidVintages | rplib/distributionsrockstorage.cpp:153-232 | one rock of solids and fluids per vintage, with the solid and fluid models and fractions in constituent order |
| RockStorage.MixFractions | rplib/distributionsrockstorage.cpp:53-96 | the opening of the mixture: vintage count, alpha and every vintage's fractions |
| RockStorage.RockMixture | rplib/distributionsrockstorage.cpp:118-151 | the rock-of-rocks branch: every vintage a new rock of rocks; errTxt only gets the volume checks |
| RockStorage.SolidAndFluidMixture | rplib/distributionsrockstorage.cpp:153-232 | the solid-and-fluid branch: every vintage a new mixed rock; errTxt gets the volume checks and the solid and fluid reads |
| RockStorage.UnmixedVintages | rplib/distributionsrockstorage.cpp:75 | neither branch: every vintage stays NULL |
| RockStorage.CreateDistributionsRockMix | rplib/distributionsrockstorage.cpp:37-235 | max_vintage rocks; rock of rocks when mix_rock, solid and fluid mix when both flags, else all NULL; every built rock and the distributions it holds are new objects; the local diagnostics are dropped |
| RockStorage.PickedVintageSpecs | rplib/distributionsrockstorage.cpp:186-217 | splitting a vintage's fractions into solids and fluids splits their specifications the same way |
| RockStorage.PickedSpecs | rplib/distributionsrockstorage.cpp:186-217 | picking distributions commutes with taking their specifications |
| RockStorage.WithHeadingAppends | rplib/distributionsrockstorage.cpp:466-469 | the caller's error text stays a prefix, and it changes exactly when the inner text is non-empty |
| RockStorage.MixRockStorage.GenerateDistributionsRock | rplib/distributionsrockstorage.cpp:431-472 | the Reuss rocks of CreateDistributionsRockMix, and likewise the Voigt (lines 490-532) and Hill (lines 550-591) rocks; their diagnostics are appended under "Problems with the X rock physics model" only when there are any; every built rock and the distributions it holds are new objects |
| RockStorage.MaxOfThree | rplib/distributionsrockstorage.cpp:286-287 | the maximum of three counts is std::max applied twice |
| RockStorage.NextTriple | rplib/distributionsrockstorage.cpp:295-308 | a vintage's three distributions, generated or cloned from the previous vintage, all new and distinct from it |
| RockStorage.TriplesSoFarSnoc | rplib/distributionsrockstorage.cpp:294-322 | one more vintage extends the triples built so far |
| RockStorage.TripleVintages | rplib/distributionsrockstorage.cpp:294-322 | max_vintage triples with the right specifications; each vintage's objects are apart from the previous one's; diagnostics in order |
| RockStorage.TabulatedRockStorage.GenerateDistributionsRock | rplib/distributionsrockstorage.cpp:264-326 | one new tabulated rock per vintage (velocity here, modulus at lines 355-414), with its variables, its correlations and the 3-vector alpha from vintage 0 |
| RockStorage.ReadBound | rplib/distributionsrockstorage.cpp:855-879 | a bound's rocks are carried forward by sharing, and "does not follow the requirements" is added when vintage 0 is not fit for bounding |
| RockStorage.BoundingRockStorage.GenerateDistributionsRock | rplib/distributionsrockstorage.cpp:825-959 | every vintage is built whatever the errors, from the shared bounds and new weights; the diagnostics get one heading |
| RockStorage.DemAlphaOf | rplib/distributionsrockstorage.cpp:647-658 | DEM's alpha: the aspect ratios, then the host fraction, then the inclusion fractions |
| RockStorage.DemAlpha | rplib/distributionsrockstorage.cpp:647-658 | the loops build DemAlphaOf's vector |
| RockStorage.DemAlphaLayoutUnique | rplib/distributionsrockstorage.cpp:647-658 | the layout determines alpha completely |
| RockStorage.DemClonesNullHostFraction | rplib/distributionsrockstorage.cpp:745-750 | a NULL host fraction with a two-vintage inclusion makes the as-written DEM carry-forward clone through NULL |
| RockStorage.DemClonesNullAspectRatio | rplib/distributionsrockstorage.cpp:735-740 | an aspect ratio whose second vintage is NULL, next to a three-vintage fraction, makes the as-written DEM carry-forward clone through NULL |
| RockStorage.GenErrsAppends | rplib/distributionsrockstorage.cpp:737-747 | generation only appends diagnostics |
| RockStorage.DemErrorsStep | rplib/distributionsrockstorage.cpp:731-753 | each DEM vintage only appends to the error text |
| RockStorage.DemErrorsGrow | rplib/distributionsrockstorage.cpp:731-753 | an earlier vintage's error text is a prefix of every later one |
| RockStorage.DemBuiltVintagesArePrefix | rplib/distributionsrockstorage.cpp:755-760 | the non-NULL DEM rocks form a prefix of the vintages |
| RockStorage.DemTexts | rplib/distributionsrockstorage.cpp:731-761 | one error text per vintage |
| RockStorage.DemTextsAt | rplib/distributionsrockstorage.cpp:731-761 | entry k is the error text after k+1 vintages |
| RockStorage.DemSoFarSnoc | rplib/distributionsrockstorage.cpp:731-761 | one more vintage, built exactly when its text is empty, extends the loop invariant |
| RockStorage.DemVintage | rplib/distributionsrockstorage.cpp:733-760 | one DEM vintage, with the corrected carry-forward of ## Findings: aspect ratios and fractions with their specifications, the volume check, and a new rock exactly when the error text is empty |
| RockStorage.DemSoFarTexts | rplib/distributionsrockstorage.cpp:755-760 | the invariant read back: vintage k has a rock exactly when the text after it is empty |
| RockStorage.DemVintages | rplib/distributionsrockstorage.cpp:722-763 | the vintage loop, with the corrected carry-forward of ## Findings: max_vintage entries, each non-NULL exactly when the error text after it is empty, and each built rock with its distributions new |
| RockStorage.DemRockStorage.Volumes | rplib/distributionsrockstorage.cpp:641-645 | the fraction lists in DEM order: the host first, then the inclusions |
| RockStorage.DemRockStorage.GenerateDistributionsRock | rplib/distributionsrockstorage.cpp:624-764 | max_vintage entries after the host and inclusion reads, with the corrected carry-forward of ## Findings; vintage i is a DEM rock of vintage i's models exactly when errTxt is still empty after it, a new rock holding new aspect-ratio and fraction distributions |
| RockStorage.GassmannRockStorage.GenerateDistributionsRock | rplib/distributionsrockstorage.cpp:779-798 | always [NULL], with the "not been implemented yet" diagnostic appended |
| SolidTabulatedModulus.CorrelationMatrix | rplib/distributionssolidtabulatedmodulus.cpp:25-35 | the matrix is 3x3 and symmetric with a unit diagonal; (0,1), (0,2) and (1,2) hold corr_k_mu, corr_k_rho and corr_mu_rho |
| SolidTabulatedModulus.TrendFlags | rplib/distributionssolidtabulatedmodulus.cpp:47-57 | two flags; flag i is set exactly when one of the three variables uses trend cube i |
| SolidTabulatedModulus.DistributionsSolidTabulatedModulus.constructor | rplib/distributionssolidtabulatedmodulus.cpp:5-59 | establishes the tabulation of (k, mu, rho) with that correlation matrix and the supplied quantile map, has_distribution_ as the disjunction of the three flags, and has_trend_ |
| SolidTabulatedModulus.DistributionsSolidTabulatedModulus.GetSample | rplib/distributionssolidtabulatedmodulus.cpp:86-101 | k, mu and rho are the quantile outputs at (trend[0], trend[1]), and u is kept in the solid |
| SolidTabulatedModulus.DistributionsSolidTabulatedModulus.GenerateSample | rplib/distributionssolidtabulatedmodulus.cpp:73-84 | exactly three uniforms are drawn, and the solid is GetSample of them |
| SolidTabulatedModulus.DistributionsSolidTabulatedModulus.HasDistribution | rplib/distributionssolidtabulatedmodulus.cpp:103-107 | true exactly when one of the three variables is a distribution |
| SolidTabulatedModulus.DistributionsSolidTabulatedModulus.HasTrend | rplib/distributionssolidtabulatedmodulus.cpp:109-113 | per trend axis, true exactly when one of the three variables uses it |
| SolidTabulatedModulus.DistributionsSolidTabulatedModulus.UpdateSample | rplib/distributionssolidtabulatedmodulus.cpp:115-120 | never updates a sample: always NULL |
| SolidTabulatedModulus.DistributionsSolidTabulatedModulus.DeletedDistributions | rplib/distributionssolidtabulatedmodulus.cpp:61-71 | the destructor deletes exactly the distributions that are not shared |
| SpatialFilter.PrevPresent | src/spatialwellfilter.cpp:803-826 | the last present sample before i, or -1 |
| SpatialFilter.NextPresent | src/spatialwellfilter.cpp:803-826 | the first present sample after i, or n |
| SpatialFilter.InterpolatedLog | src/spatialwellfilter.cpp:775-827 | the gap-filled residual log, one value per sample |
| SpatialFilter.MakeInterpolatedResiduals | src/spatialwellfilter.cpp:775-827 | every entry offset+i is the gap-filled residual of sample i, and entries outside offset..offset+n-1 are untouched |
| SpatialFilter.ScanSample | src/spatialwellfilter.cpp:806-826 | one step of the general loop: the gap counter and the filled prefix advance by one sample |
| SpatialFilter.CloseGap | src/spatialwellfilter.cpp:811-819 | the nmiss missing entries before a present residual r_i become the blend of the carried residual and r_i, with weight j/(nmiss+1) at j before i |
| SpatialFilter.ScaleAndAdd | src/spatialwellfilter.cpp:815-817 | one entry is scaled by w and gets (1-w)·res added, and no other entry changes |
| SpatialFilter.GapValue | src/spatialwellfilter.cpp:811-819 | the blend CloseGap writes is the interpolated value of that sample |
| SpatialFilter.PrevPresentAtLeast | src/spatialwellfilter.cpp:803-826 | a present sample before i bounds the previous present sample from below |
| SpatialFilter.NextPresentAtMost | src/spatialwellfilter.cpp:803-826 | a present sample after i bounds the next present sample from above |
| SpatialFilter.PresentNeighbour | src/spatialwellfilter.cpp:787-791 | with a present sample somewhere, every sample has a present neighbour on one side |
| SpatialFilter.PrevPresentIs | src/spatialwellfilter.cpp:822-826 | across a run of missing samples, the previous present sample is the one before the run |
| SpatialFilter.NextPresentIs | src/spatialwellfilter.cpp:806-819 | across a run of missing samples, the next present sample is the one after the run |
| SpatialFilter.LeadingGap | src/spatialwellfilter.cpp:787-798 | before the first present sample there is none earlier, and the next is the first |
| SpatialFilter.InteriorGap | src/spatialwellfilter.cpp:811-819 | inside an interior gap the neighbours are the gap's two ends |
| SpatialFilter.TrailingGap | src/spatialwellfilter.cpp:822-826 | after the last present sample there is none later |
| SpatialFilter.Zero | src/spatialwellfilter.cpp:107-108 | a rows x cols matrix of zeros |
| SpatialFilter.Identity | src/spatialwellfilter.cpp:730 | a size x size matrix, the unit filter |
| SpatialFilter.SetEntry | src/spatialwellfilter.cpp:284-292 | one entry replaced and every other kept |
| SpatialFilter.DotZero | src/spatialwellfilter.cpp:730 | the product with a zero row is 0 |
| SpatialFilter.DotUnit | src/spatialwellfilter.cpp:730 | the product with a unit row picks its element |
| SpatialFilter.MatVecIdentity | src/spatialwellfilter.cpp:730 | the unit filter leaves the residual vector unchanged |
| SpatialFilter.ResidualVector | src/spatialwellfilter.cpp:708-728 | nLogs·n residuals: alpha, then beta when Vs is used, then rho |
| SpatialFilter.Masked | src/spatialwellfilter.cpp:736-757 | one filtered value per sample |
| SpatialFilter.CalculateFilteredLogs | src/spatialwellfilter.cpp:702-772 | the filtered logs and their names: 0.0 where the raw log is missing, else the filtered value of its block |
| SpatialFilter.BuildResiduals | src/spatialwellfilter.cpp:712-728 | the residual vector is the gap-filled logs laid end to end |
| SpatialFilter.MaskFiltered | src/spatialwellfilter.cpp:732-757 | alpha reads block 0, beta block 1 when Vs is used, and rho the block after them |
| SpatialFilter.Blocks | src/spatialwellfilter.cpp:714-728 | three blocks written side by side form their concatenation |
| SpatialFilter.IdentityFilterLayout | src/spatialwellfilter.cpp:714-757 | with the unit filter each present sample filters to its own residual in its own block |
| SpatialFilter.Pow2 | src/spatialwellfilter.cpp:99-102 | nDim doubles once per angle, starting from 1 |
| SpatialFilter.BlockTraceTranspose | src/spatialwellfilter.cpp:284-312 | for a symmetric sigmaeW the diagonal sum of block (r,c) equals that of block (c,r) |
| SpatialFilter.ConfScale | src/spatialwellfilter.cpp:367-377 | one scale per angle |
| SpatialFilter.ConfScales | src/spatialwellfilter.cpp:370-377 | the factor loop sets scale[angle] to maxScale[angle] exactly when bit angle of conf is set, else 1.0 |
| SpatialFilter.BitHalf | src/spatialwellfilter.cpp:370-376 | bit a+1 of c is bit a of c/2 |
| SpatialFilter.ConfigurationsDiffer | src/spatialwellfilter.cpp:367-377 | two distinct configurations below 2^k differ in some bit below k |
| SpatialFilter.DistinctScales | src/spatialwellfilter.cpp:367-377 | with no maxScale equal to 1, distinct configurations give distinct scale vectors |
| SpatialFilter.VpRhoCompletedAsWritten | src/spatialwellfilter.cpp:590-593 | completeSigmaEVpRho as written: three entries divided by lastn, and (0,1) copied from sigmae_[0](1,0) |
| SpatialFilter.VpRhoAsWrittenAsymmetric | src/spatialwellfilter.cpp:590-593 | a concrete input for which the as-written result is not symmetric |
| SpatialFilter.VpRhoCompleted | src/spatialwellfilter.cpp:590-593 | the corrected completion: symmetric, each entry the lower-triangle entry divided by lastn |
| SpatialFilter.UpdateSigmaEVpRho | src/spatialwellfilter.cpp:552-582 | nDim zero 2x2 matrices only when the list is empty; the three lower entries of the first get the diagonal sums of their blocks |
| SpatialFilter.CompleteSigmaEVpRho | src/spatialwellfilter.cpp:584-593 | the first matrix becomes the corrected completion, and the others are unchanged |
| SpatialFilter.SpatialWellFilter.CompleteSigmaEVpRhoAsWritten | src/spatialwellfilter.cpp:584-593 | as the filter runs it: the first matrix becomes the as-written completion, with (0,1) read from this filter's own sigmae[0], and the others are unchanged |
| SpatialFilter.Completed3 | src/spatialwellfilter.cpp:304-312 | the completed 3x3 noise covariance is symmetric, each entry the lower-triangle entry divided by lastn |
| SpatialFilter.MirroredAccumulation | src/spatialwellfilter.cpp:284-312 | for a symmetric sigmaeW and a symmetric start, accumulating then completing gives, in every entry (r,c) above or below the diagonal, (start + the diagonal sum of block (r,c))/lastn |
| SpatialFilter.SpatialWellFilter.constructor | src/spatialwellfilter.cpp:26-33 | nWells wells, each without a prior spatial correlation |
| SpatialFilter.SpatialWellFilter.SetPriorSpatialCorr | src/spatialwellfilter.cpp:50-75 | the well's prior correlation becomes the symmetric n x n matrix of correlations of its cell offsets; nothing else changes |
| SpatialFilter.SpatialWellFilter.InitSigmaE | src/spatialwellfilter.cpp:99-113 | nDim is 2^nAngles, and 2^nAngles zero 3x3 matrices are created only when sigmae_ is empty |
| SpatialFilter.SpatialWellFilter.UpdateSigmaE | src/spatialwellfilter.cpp:276-293 | the six lower entries of sigmae[0] get the diagonal sums of their blocks of sigmaeW, the upper entries and the other matrices are unchanged |
| SpatialFilter.SpatialWellFilter.CompleteSigmaE | src/spatialwellfilter.cpp:297-312 | sigmae[0] becomes its lower triangle divided by lastn and mirrored, and the other matrices are unchanged |
| SpatialFilter.FillSpatialCorr | src/spatialwellfilter.cpp:62-74 | the nested loops fill each (l1, l2) with l2 <= l1 and its mirror with the correlation at the offset of the two cells |
| SpatialFilter.ZeroList | src/spatialwellfilter.cpp:104-113 | count zero size x size matrices |
| SpatialFilter.SpatialCorr | src/spatialwellfilter.cpp:62-74 | the prior correlation is n x n and symmetric, and its diagonal is the correlation at offset 0 |
| SpatialFilter.EvenSpatialCorr | src/spatialwellfilter.cpp:62-74 | for an even correlation function every entry, above or below the diagonal, is the correlation at its own offset |

## Left out

- Logging, timing and memory ownership are not modelled. The one exception is the set of distributions the tabulated-modulus solid deletes. Deleting `tabulated_` is not modelled either: the tabulation is a value here.
- Floating-point rounding is not modelled. This covers `double`/`float` arithmetic and the `static_cast<float>` of the filtered values, which all become `real`.
- The bodies of several helpers are not part of this model: reading rock, solid and fluid models, `CheckVolumeConsistency`, `FindMixTypesForRock`, `GetQuantileValues`, `getRealValueCyclic` (FFTGrid access) and a rock model's `GenerateSample`/`UpdateSample`. Each is a function-typed parameter or field.
- RockTabulation.TabulatedRock.SetupExpectationAndCovariances requires a trend on both axes. The cell loops always run over 10 x 10 cells, and a collapsed axis has one value, so the source would read past the mesh.
- RockTabulation.TabulatedRock.GetExpectation requires, off the 1 x 1 case, that every corner it reads exists and that each axis is empty or has two distinct first values. The source's corner guards `m > 0` and `n > 0` are always true, and a size-1 axis next to a longer one has its second element read; such inputs are excluded, not given a meaning. The requirement also excludes every table the program itself builds with a trend: SetupExpectationAndCovariances samples axes whose first interval is empty (see ## Findings), so the lookup is modelled only for tables made by hand.
- RockTabulation.TabulatedRock.GetCovariance has the same requirement as GetExpectation, for the same reasons, and it too excludes every table SetupExpectationAndCovariances builds.
- RockTabulation.ExpectationAtGridPoint, RockTabulation.ExpectationBetweenCorners and RockTabulation.CovarianceLookupSymmetric are stated for interpolable tables, so they never apply to a table SetupExpectationAndCovariances builds; they describe the lookup on hand-made tables.
- RockTabulation.GenerateWellSample requires vp, vs and rho to be three distinct arrays, and so does its Store helper. Calls with aliased output vectors are not modelled. It also requires vp.Length >= 1 and vs and rho at least as long as vp, because the source writes index 0 of all three unguarded and then loops over vp's length writing vs and rho at each index.
- RockTabulation.SampleTrendValues requires n >= 1, because the source writes `s[n-1]` unguarded.
- The `typeid(...).name()` checks of the bounding storage are not modelled. They depend on the compiler's type-name string, so both are one boolean of the kit that adds both messages.
- RockStorage: every input list is required to be non-empty, because the source reads vintage 0 of each list unguarded.
- SpatialFilter.MakeInterpolatedResiduals requires a present sample among the first n, because the leading scan has no bound. It also requires the residual vector to hold offset + n entries.
- SpatialFilter.SpatialWellFilter.CompleteSigmaE requires lastn > 0; the source divides by lastn unguarded.
- `adjustDiagSigma`, `computeSigmaEAdjusted` and the local-noise loop of `completeSigmaE`/`completeSigmaEVpRho` are not modelled beyond the scale decoding. These are the eigen-decomposition adjustments and the Crava posterior calls, so the local-noise entries sigmae[conf] stay as accumulated.
- `doFiltering` and `doVpRhoFiltering` are not modelled beyond the `sigmae_` initialisation: the Cholesky solve, the matrix products (Filter·PostCov, Aw·residuals) and `fillValuesInSigmapost` are matrix numerics. The products enter the model as their results.
- The integer width of `factor` and `nDim` is not modelled. With 31 or more angles the `int` doubling overflows in the source; here it is unbounded.
- SpatialFilter.ConfScales: the test `(conf & factor) > 0` is written as `(conf / factor) % 2 == 1`. The two agree for a power-of-two factor.

## Findings

| source | as written | input that shows it | evidently intended | confidence | as-written member | corrected member |
|---|---|---|---|---|---|---|
| rplib/distributionsrock.cpp:287-288 | FindInterpolationStartIndex takes the cell width from `tabulated_s[1] - tabulated_s[0]`, but SampleTrendValues (lines 187-191) sets `s[1]` to `s_min`, the value of `s[0]`, so the width is zero | any table SetupExpectationAndCovariances builds, with sMin 0 and sMax 1 on both axes: the division `s/dx` is by zero | not evident: the index assumes evenly spaced values, and either the sampling or the width could be the one meant | not executed | RockTabulation.SampledAxisNotIndexable, RockTabulation.SetupTablesNotInterpolable | RockTabulation.EvenAxisIndexable |
| rplib/distributionsrockstorage.cpp:739-740 | the DEM carry-forward clones `all_aspect_ratios[i-1][s]` with no NULL check | an aspect ratio list [d, NULL] next to a fraction list of three vintages: vintage 2 calls Clone() on NULL | a NULL aspect ratio is carried forward as NULL, as for the fractions | not executed | RockStorage.NextFractionAsWritten, RockStorage.DemClonesNullAspectRatio | RockStorage.NextFraction |
| rplib/distributionsrockstorage.cpp:749-750 | the DEM carry-forward clones `all_volume_fractions[i-1][s]` with no NULL check | a host fraction list [NULL] next to an inclusion fraction list of two vintages: vintage 1 calls Clone() on NULL | a NULL fraction is carried forward as NULL, as `CreateDistributionsRockMix` does at line 90 | not executed | RockStorage.NextFractionAsWritten, RockStorage.DemClonesNullHostFraction | RockStorage.NextFraction |
| src/spatialwellfilter.cpp:593 | `completeSigmaEVpRho` sets entry (0,1) from `sigmae_[0](1,0)`, the 3x3 noise matrix, not from its own (1,0) | sigmaeVpRho[0] = [[1,0],[0.5,1]], sigmae_[0] all zero, lastn 1: (0,1) becomes 0 and (1,0) 0.5 | (0,1) mirrors the normalised (1,0), so the 2x2 matrix is symmetric | not executed | SpatialFilter.VpRhoCompletedAsWritten, SpatialFilter.VpRhoAsWrittenAsymmetric | SpatialFilter.VpRhoCompleted |
