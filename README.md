# SCANsat service core, modelled in Dafny

The SCANsat service gives remote clients access to the SCANsat mapping mod of
Kerbal Space Program. This project models the two parts of the service that
hold logic of their own:

* **Landing-site assessment.**
  - Coordinate helpers: latitude clamping, and longitude normalisation with the truncated `%` of C#.
  - The grid of slope samples around a point.
  - The slope statistics: mean and maximum of |slope|, and the population deviation.
  - The weighted landing score and its three-tier recommendation.
  - The two public procedures that combine them: `Roughness` and `AssessLandingSite`.
* **Scanner families and scanner modules.**
  - Normalising a family value to the nine known bits.
  - Decomposing a sensor mask into its atomic families.
  - The status rows reported for a vehicle's scanner modules.
  - Looking up a module by part and family.
  - Starting and stopping a module.
  - Enabling exactly one module of a family while stopping every other module of that family.

Each part of the source has a Dafny module:

* `ServiceErrors`: the service's exception becomes a `Result`.
* `CoordinateMath`: the coordinate helpers.
* `SiteSampler`: the sample grid.
* `SiteStatistics`: the slope statistics.
* `LandingScorer`: the score and the recommendation.
* `LandingSite`: the two public procedures.
* `ScannerFamilyMask`: the family bits.
* `ScannerRegistry`: the scanner module class, the status rows and the lookup.
* `ScannerOrchestrator`: the procedures that read or change module state.

The parts of the source that loop or change state are methods:
* the sampler's nested loops;
* the statistics accumulation;
* the family enumeration;
* the row report;
* the start/stop logic.

Each such method is proved against a specification function. The function's own properties are lemmas.

Modelling choices:

* **Numbers.**
  - Doubles are Dafny `real`s.
  - `Math.PI` is the decimal literal of its double value.
  - `Math.Cos` and `Math.Sqrt` are function parameters (`cos`, `sqrt`). The model states the variance that `sqrt` is applied to.
* **Loop tolerance.** The `1e-9` tolerance of the sampler's loop bound is kept. With exact reals each axis has `floor((2R + 1e-9) / S) + 1` positions.
* **Mod queries.** Elevation, slope, coverage and point coverage are functions stored in a resolved `Body` value.
* **Scanner modules.**
  - A scanner part module is a `ScannerModule` object. Its part id, sensor mask and part title are fixed; its `active` flag is mutable.
  - A ghost `requests` log records every start and stop call. "Nothing was started or stopped" can therefore be stated.
  - A vehicle is the sequence of its scanner modules, each object listed once.
  - The source's reference test `module == selected` becomes a comparison of indices.
* **Masks** are `bv32`, as the C# `int` values are.

## Model

| member | source | states |
|---|---|---|
| ServiceErrors.RequirePositive | SCANsat.cs:252-256 | The check passes exactly when the value is strictly positive; otherwise it fails with "<name> must be > 0." |
| ServiceErrors.FirstFailure | SCANsat.cs:517-519 | A run of argument checks passes iff every check passes; otherwise the reported failure is the first failing check, all earlier ones having passed |
| CoordinateMath.ClampLatitude | SCANsat.cs:272-278 | The result always lies in [-89.9999, 89.9999]; an in-range latitude is returned unchanged, larger ones saturate to the bound on their side |
| CoordinateMath.ClampLatitudeMonotone | SCANsat.cs:272-278 | Clamping preserves the order of latitudes |
| CoordinateMath.ClampLatitudeIdempotent | SCANsat.cs:272-278 | Clamping a clamped latitude changes nothing |
| CoordinateMath.Truncate | SCANsat.cs:281 | Rounding toward zero: the result is within one unit of x on the side of zero |
| CoordinateMath.TurnRemainder | SCANsat.cs:281 | C#'s `longitude % 360.0`: lies strictly inside (-360, 360), takes the sign of the dividend, differs from it by whole turns, and is the identity inside (-360, 360) |
| CoordinateMath.NormalizeLongitude | SCANsat.cs:280-287 | The result lies in [-180, 180), differs from the input by a whole number of turns, and equals the input when it is already in range |
| CoordinateMath.SameTurnInRange | SCANsat.cs:280-287 | Two longitudes in [-180, 180) that differ by whole turns are equal |
| CoordinateMath.NormalizeLongitudeUnique | SCANsat.cs:280-287 | The normalised longitude is the only value in [-180, 180) naming the same point, which pins the result down completely |
| CoordinateMath.NormalizeLongitudeIdempotent | SCANsat.cs:280-287 | Normalising twice is normalising once |
| CoordinateMath.NormalizeLongitudePeriodic | SCANsat.cs:280-287 | Adding or removing a full turn does not change the normalised longitude |
| CoordinateMath.NormalizeLongitudeExamples | SCANsat.cs:280-287 | 180 and ±540 normalise to -180 (the antimeridian goes to the lower end); -190 normalises to 170 |
| CoordinateMath.MetersToDegrees | SCANsat.cs:309 | The scale is positive and is the inverse of the arc length of one degree on a sphere of the body's radius |
| CoordinateMath.FloorCosine | SCANsat.cs:310-312 | The result has magnitude at least 0.01 and keeps the sign of the cosine (zero counting as positive). A cosine of magnitude at least 0.01 is unchanged; a smaller one becomes exactly 0.01 or -0.01 by its sign |
| SiteSampler.MakeGrid | SCANsat.cs:306-312 | The grid centre lies within the latitude bound and in [-180, 180); the step is positive and the cosine used for east offsets is never zero |
| SiteSampler.OffsetNext | SCANsat.cs:314 | Each iteration of a loop advances the offset by exactly one step |
| SiteSampler.AxisCountSpec | SCANsat.cs:314-316 | The i-th offset from -R passes the loop test `<= R + 1e-9` exactly when i is below the per-axis count, so both loops run exactly that many times |
| SiteSampler.AxisCountPositive | SCANsat.cs:314-316 | For a non-negative radius and a positive step, each loop runs at least once |
| SiteSampler.RowLatitudeAt | SCANsat.cs:315 | The latitude computed at the top of a north iteration is the clamped latitude of that row |
| SiteSampler.Row | SCANsat.cs:316-320 | One east sweep visits the per-axis count of points; point j has the row's clamped latitude and the j-th normalised longitude |
| SiteSampler.GridRowsLength | SCANsat.cs:314-321 | n north iterations visit n times the per-axis count of points |
| SiteSampler.GridRowsAt | SCANsat.cs:314-321 | Sample a·k+b of the grid is column b of row a, in north-major then east order |
| SiteSampler.GridRowsInRange | SCANsat.cs:315-318 | Every sampled latitude is clamped into [-89.9999, 89.9999] and every sampled longitude is normalised into [-180, 180) |
| SiteSampler.SamplePointsInRange | SCANsat.cs:315-318 | Every point of a whole grid is a clamped latitude and a normalised longitude |
| SiteSampler.SampleSlopes | SCANsat.cs:319 | The samples are exactly one slope-oracle result per grid point, in visiting order |
| SiteSampler.ProbedIsSampleSlopes | SCANsat.cs:319 | Any sample list that probes the grid point by point is the sample list of the grid |
| SiteSampler.ProbedAppend | SCANsat.cs:319 | Appending the oracle's result for one more point extends a point-by-point probe |
| SiteSampler.ProbedNextColumn | SCANsat.cs:316-320 | One east iteration extends the probe by the next point of the current row |
| SiteSampler.ProbedRowDone | SCANsat.cs:316-321 | A completed east sweep completes the probe of one more row |
| SiteSampler.FallbackUnreachable | SCANsat.cs:323-324 | For a positive radius the grid has k·k points with k ≥ 1, so the centre-only fallback is never taken |
| SiteSampler.GridSizeExamples | SCANsat.cs:314-316 | The default radius 60 and step 20 give 7 positions per axis; radius 20 and step 20 visit -20, 0 and 20 |
| SiteSampler.SampleRow | SCANsat.cs:316-320 | The east loop appends one oracle call per point of the row, turning a probe of i rows into a probe of i+1 rows |
| SiteSampler.CollectSlopeSamples | SCANsat.cs:300-327 | Fails with "Body radius is unavailable." exactly when the body radius is not positive; otherwise returns one oracle call per grid point at clamped and normalised coordinates, in loop order |
| SiteStatistics.MaxAbsBounds | SCANsat.cs:333-340 | The maximum of the magnitudes is non-negative and at least every sample's magnitude |
| SiteStatistics.MaxAbsAttained | SCANsat.cs:333-340 | On a non-empty list, the maximum is the magnitude of one of the samples |
| SiteStatistics.SumAbsBounds | SCANsat.cs:333-340 | The sum of magnitudes is between 0 and the count times the maximum |
| SiteStatistics.SquaredDeviationsNonNegative | SCANsat.cs:343-347 | The sum of squared deviations is never negative |
| SiteStatistics.StatsBounds | SCANsat.cs:329-351 | On a non-empty list: 0 ≤ mean ≤ max; max bounds every magnitude and equals one of them; the variance is non-negative |
| SiteStatistics.UniformSlopesHaveNoVariance | SCANsat.cs:342-349 | Slopes of equal magnitude have that magnitude as mean and zero variance |
| SiteStatistics.UniformSums | SCANsat.cs:335-347 | Equal magnitudes sum to count times the magnitude, with no deviation from it |
| SiteStatistics.CalculateSlopeStats | SCANsat.cs:329-351 | No slopes give (0, 0, 0); otherwise the two accumulation loops give the mean and maximum of the magnitudes and sqrt of their population variance |
| LandingScorer.Clamp01 | SCANsat.cs:264-270 | The result lies in [0, 1]; a value in [0, 1] is returned unchanged, others saturate to the nearer end |
| LandingScorer.Clamp01Monotone | SCANsat.cs:264-270 | Saturation preserves order |
| LandingScorer.SafeLimit | SCANsat.cs:354-355 | A limit as used is at least 0.0001 and at least the given limit, and is one of the two |
| LandingScorer.HeadroomAntitone | SCANsat.cs:357-359 | A larger measured slope or roughness never earns a larger partial score |
| LandingScorer.HeadroomEnds | SCANsat.cs:357-359 | A measurement of 0 earns a partial score of 1; one at or past the limit earns 0 |
| LandingScorer.ComputeLandingScore | SCANsat.cs:353-362 | The score always lies in [0, 1] |
| LandingScorer.ScoreMonotone | SCANsat.cs:353-362 | With the limits held fixed, a site whose mean slope, maximum slope and roughness are each no smaller never scores higher |
| LandingScorer.FlatSiteScoresOne | SCANsat.cs:353-362 | A site with zero mean slope, maximum slope and roughness scores exactly 1, whatever the limits |
| LandingScorer.UnsafeSiteScoresZero | SCANsat.cs:353-362 | A site at or past both limits in every measurement scores exactly 0 |
| LandingScorer.Recommend | SCANsat.cs:545 | "good" iff score ≥ 0.75; "marginal" iff 0.45 ≤ score < 0.75; "avoid" iff score < 0.45; each boundary belongs to the upper tier |
| LandingScorer.RecommendMonotone | SCANsat.cs:545 | A higher score never receives a lower tier |
| LandingScorer.SteeperSiteNeverBetter | SCANsat.cs:353-362 | With fixed limits, a steeper or rougher site never receives a better recommendation |
| LandingSite.RoughnessChecks | SCANsat.cs:517-519 | The three checks of Roughness, in order, pass exactly when radius, step and sample offset are each positive |
| LandingSite.AssessmentChecks | SCANsat.cs:531-535 | The checks of AssessLandingSite are those of Roughness followed by the two safety-limit checks |
| LandingSite.Roughness | SCANsat.cs:514-525 | Fails iff an argument check fails (with the first failing check's message) or the body radius is not positive (then with "Body radius is unavailable."); otherwise returns sqrt of the variance of the sampled slopes |
| LandingSite.AssessLandingSite | SCANsat.cs:528-560 | Fails iff an argument check fails (first failure's message) or the body radius is not positive (then with "Body radius is unavailable."). Otherwise: the centre is reported as given; k·k ≥ 1 samples; the statistics of those samples; the body's coverage and the centre's coverage; a score in [0, 1] and its recommendation |
| ScannerFamilyMask.AtomicFamiliesAreBits | SCANsat.cs:192-204 | The nine enumerated families are the single bits 1<<0 … 1<<8, in ascending order, all inside the known mask |
| ScannerFamilyMask.NormalizeFamilyMask | SCANsat.cs:232-237 | The result has no bit outside the known mask (≤ 511); SAR gives the high-resolution altimetry bit; a value already inside the mask is kept |
| ScannerFamilyMask.NormalizeFamilyMaskIdempotent | SCANsat.cs:232-237 | Normalising a normalised mask changes nothing |
| ScannerFamilyMask.NormalizeIsMasking | SCANsat.cs:15 | Normalisation is exactly the intersection with KnownScanMask = (1 << 9) - 1; the SAR alias adds nothing, since SAR has the value of AltimetryHiRes |
| ScannerFamilyMask.MatchingMembers | SCANsat.cs:192-208 | A family is yielded iff it is one of the candidates and shares a bit with the sensor mask |
| ScannerFamilyMask.MatchingBelow | SCANsat.cs:192-208 | Filtering keeps an upper bound on the yielded families |
| ScannerFamilyMask.MatchingAscending | SCANsat.cs:192-208 | Filtering keeps the candidates' ascending order |
| ScannerFamilyMask.MatchingNone | SCANsat.cs:205-206 | When no candidate shares a bit with the mask, nothing is yielded |
| ScannerFamilyMask.FamiliesOfSpec | SCANsat.cs:192-208 | The families of a mask are exactly the atomic single-bit families whose bit is set in it, in ascending bit order |
| ScannerFamilyMask.KnownBits | SCANsat.cs:15 | A mask meets KnownScanMask iff it has one of the nine atomic bits |
| ScannerFamilyMask.FamiliesOfEmpty | SCANsat.cs:192-208 | A mask yields no family iff it has none of the nine known bits (m & 511 == 0) |
| ScannerFamilyMask.EnumerateScannerFamilies | SCANsat.cs:192-208 | The loop yields exactly the families of the mask, in ascending bit order |
| ScannerRegistry.ScannerModule.constructor | SCANsat.cs:166-176 | A module starts with its part id, mask, title and scanning flag, and with no start or stop call made |
| ScannerRegistry.ScannerModule.StartScan | SCANsat.cs:383-384 | Starting makes the module scan and records one start call |
| ScannerRegistry.ScannerModule.StopScan | SCANsat.cs:383-384 | Stopping makes the module idle and records one stop call |
| ScannerRegistry.Views | SCANsat.cs:178-190 | The observed state of a vehicle lists every module's part id, mask, title and scanning flag, in module order |
| ScannerRegistry.RowsFor | SCANsat.cs:219-229 | A reported module gets one row per family, in family order, or a single Nothing row when it has none; every row carries the module's vehicle, part id, title, mask and scanning flag |
| ScannerRegistry.FamilyListsAt | SCANsat.cs:221 | Each module's list is the decomposition of its own sensor mask |
| ScannerRegistry.FamilyListsSound | SCANsat.cs:221 | Every listed family is atomic and shares a bit with its module's mask |
| ScannerRegistry.RowsForOfKept | SCANsat.cs:215-229 | Every row of a module the filters keep satisfies the report's row invariant |
| ScannerRegistry.DescribeRowsKept | SCANsat.cs:210-230 | Every reported row passes both filters: it is scanning when activeOnly is set, and its mask meets a non-zero filter. Its family is an atomic family of its mask, or Nothing |
| ScannerRegistry.DescribeLength | SCANsat.cs:210-230 | The report has max(1, number of families) rows per kept module and none for skipped modules |
| ScannerRegistry.DescribeEmpty | SCANsat.cs:210-230 | The report is empty iff every module is skipped by a filter |
| ScannerRegistry.ModuleRows | SCANsat.cs:219-229 | The rows produced for one module are the rows of its observed state and its family decomposition |
| ScannerRegistry.KeptModuleRows | SCANsat.cs:213-229 | An inactive module under activeOnly, or one disjoint from a non-zero filter, produces no rows; any other module produces its rows |
| ScannerRegistry.ReportModule | SCANsat.cs:212-229 | Each pass of the module loop extends the report by that module's rows |
| ScannerRegistry.DescribeScannerModules | SCANsat.cs:210-230 | The report is the concatenation, in module order, of the rows of every module the normalised filter and the activeOnly flag keep |
| ScannerRegistry.FindMatching | SCANsat.cs:239-245 | Finds the first module on the given part whose mask meets the family mask, and finds none iff no such module exists |
| ScannerOrchestrator.DecimalText | SCANsat.cs:614 | A part id is written as a non-empty string of decimal digits that denotes exactly that id, with no leading zero (0 is written "0") |
| ScannerOrchestrator.SetScannerState | SCANsat.cs:375-385 | The module ends in the requested state; no start or stop call is made when it is already there, and exactly the matching one otherwise |
| ScannerOrchestrator.IsScannerEnabled | SCANsat.cs:604-617 | Fails with "Scanner family is required." when the family normalises to 0; otherwise succeeds iff a module on the part meets the family. The reported flag is that of the first such module; the not-found message names the vehicle, part and family |
| ScannerOrchestrator.SetScannerEnabled | SCANsat.cs:620-633 | Has the same failure cases as IsScannerEnabled, and a failure changes no module. On success, only the first matching module is set to the requested state, with the start or stop call only if its state changes |
| ScannerOrchestrator.CandidatesBelow | SCANsat.cs:646-648 | The candidates are exactly the indices of modules whose mask meets the family mask, in ascending module order |
| ScannerOrchestrator.CandidatesFollowMasks | SCANsat.cs:646-648 | Which modules are candidates depends only on their masks, never on their scanning flags |
| ScannerOrchestrator.FirstWhere | SCANsat.cs:651-654 | The first candidate passing a test is found, with every earlier candidate failing it; none is found iff no candidate passes |
| ScannerOrchestrator.EarlierCandidatesFail | SCANsat.cs:651-654 | Every candidate before the found one, in module order, fails the test |
| ScannerOrchestrator.FoundIffPresent | SCANsat.cs:651-654 | A candidate passing a test is found iff some module is a candidate passing it |
| ScannerOrchestrator.Select | SCANsat.cs:650-654 | Selects a candidate: the first on the preferred part when the preferred id is non-zero and present; else the first scanning candidate; else the first candidate |
| ScannerOrchestrator.ExclusiveApply | SCANsat.cs:656-659 | After the loop the selected module scans and every other candidate is stopped; non-candidates and all ids, masks and titles are untouched |
| ScannerOrchestrator.ExactlyOneActive | SCANsat.cs:636-662 | After the selection is applied, the selected module is the only scanning candidate |
| ScannerOrchestrator.ExclusiveApplyIdempotent | SCANsat.cs:656-659 | Applying the same selection twice is applying it once |
| ScannerOrchestrator.SelectionStable | SCANsat.cs:646-654 | After the selection is applied, the candidates are the same and the same module is selected again |
| ScannerOrchestrator.SecondCallChangesNothing | SCANsat.cs:636-662 | A second identical call selects the same module, so returns the same part id, and changes no module |
| ScannerOrchestrator.ExclusiveApplyCharacterized | SCANsat.cs:656-659 | Any state in which only the selected candidate scans and nothing else changed is the result of applying the selection |
| ScannerOrchestrator.KeepOnlySelected | SCANsat.cs:656-659 | Each listed module ends scanning iff it is the selected one; the others are unchanged; each module receives a start or stop call only if its state changed |
| ScannerOrchestrator.SetSingleScannerEnabled | SCANsat.cs:636-662 | Succeeds iff the family normalises to non-zero and some module meets it; otherwise fails with the matching message, changing no module. On success the new state is the selection applied to the old state, and the result is the selected module's part id. Only modules whose state changes get a start or stop call |

## Left out

- Reflection discovery and binding of the mod's types, methods and fields is left out: InitTypes, the cached member handles, ControllerInstance, RequireMethods, RequireScannerMethods, APIReady and ScannerAPIReady. These are foreign calls into an assembly that is not visible. The model assumes every member is bound.
- Host lookups are left out: FindBody, FindVessel, RequireBody and RequireVessel. The resolved body (a `Body` value) and the vehicle (its module sequence and name) are inputs.
- The legacy-service warning (a thread-local depth counter and a one-shot flag) and the Logger.cs logging are left out. They are logging, not behaviour.
- The mod's numeric queries are left out as operations; they are functions of the resolved body:
  - BodyKnown, Coverage, IsCovered, ResourceValue, Elevation, Slope, AvailableResources, ActiveSensors, ActiveVessels and ActualPasses;
  - ElevationCore and SlopeCore. The slope oracle takes the centre elevation internally, so `body.slope` stands for SlopeCore as a whole.
- CoverageBySensor is left out. It only adds the family check before delegating to Coverage.
- GetScanners and GetActiveScanners are left out. They only return the list DescribeScannerModules yields, with activeOnly set for the second.
- ScansatAlias.cs is not part of this model. It only delegates to this service and casts between duplicate enums.
- GetScannerModules' traversal of parts and their module lists is collapsed into the vehicle's sequence of scanner modules, in traversal order. Null parts and non-scanner modules never appear in it.
- GetSensorMask and IsScannerActive read the `mask` and `active` fields. Their fallbacks (mask 0 and not scanning when the reflected member is missing) fall under the binding assumption above.
- ScannerRegistry.ScannerModule.StartScan: the start call into the part module is assumed to make the module scan, and the stop call to stop it. Their real effect belongs to the external part module.
- RowsFor: the part title is one `title` per module. The source's choice between the part-info title and the part name is not modelled, and neither is a module whose part is missing.
- SetScannerState's rejection of a null module is left out: every caller passes a module it has found, and module references here cannot be null.
- RequireFinite and the NaN/infinity half of RequirePositive are left out, because every real is finite.
- Floating-point rounding is left out: the loop offsets are exact multiples of the step, and Math.Cos and Math.Sqrt are parameters. The cosine is applied to the clamped centre latitude converted to radians, as in the source.
- The `uint` width of part flight ids is left out: they are `nat`s. Masks keep their 32-bit width as `bv32`.
- Argument checks: the source throws at the first failing check; the model computes every check and reports the first failure. The result is the same because the checks have no effects.
- ScannerOrchestrator.FamilyText writes the value 2 as "AltimetryHiRes". C#'s name for a value that two enum members share (SAR and AltimetryHiRes) is not fixed by the language, so another runtime could write "SAR".
- In the source, the SAR branch of NormalizeFamilyMask compares the whole value with SAR. SAR has the value of AltimetryHiRes (2), so the branch returns what the masking would return anyway (`NormalizeIsMasking` proves this). SAR gets no special treatment "regardless of other bits".
