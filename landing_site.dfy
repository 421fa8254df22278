/// The two landing-site procedures of the service: Roughness, the standard
/// deviation of the slopes around a point, and AssessLandingSite, the full
/// assessment record with its score and recommendation.
module LandingSite {
  import opened ServiceErrors
  import opened SiteSampler
  import opened SiteStatistics
  import opened LandingScorer
  import opened ScannerFamilyMask

  /** A resolved celestial body: its radius and the mapping mod's queries
      about it, which this model treats as given functions. `slope` takes
      latitude, longitude and the sample offset in metres; `coverage` takes a
      scan type; `isCovered` takes latitude, longitude and a scan type. */
  datatype Body = Body(
    radius: real,
    elevation: (real, real) -> real,
    slope: (real, real, real) -> real,
    coverage: ScanType -> real,
    isCovered: (real, real, ScanType) -> bool)

  /** The record AssessLandingSite returns. */
  datatype LandingSiteAssessment = LandingSiteAssessment(
    latitudeDeg: real,
    longitudeDeg: real,
    elevationM: real,
    meanSlopeDeg: real,
    maxSlopeDeg: real,
    roughnessDeg: real,
    sampleCount: nat,
    hiResCoveragePercent: real,
    centerHiResCovered: bool,
    score: real,
    recommendation: string)

  /** The argument checks of Roughness, in the order they are made. */
  function RoughnessChecks(radiusMeters: real, stepMeters: real, sampleOffsetMeters: real): (checks: seq<Outcome>)
    ensures |checks| == 3
    ensures checks[0].Pass? <==> 0.0 < radiusMeters
    ensures checks[1].Pass? <==> 0.0 < stepMeters
    ensures checks[2].Pass? <==> 0.0 < sampleOffsetMeters
  {
    [RequirePositive("radiusMeters", radiusMeters),
     RequirePositive("stepMeters", stepMeters),
     RequirePositive("sampleOffsetMeters", sampleOffsetMeters)]
  }

  /** The argument checks of AssessLandingSite, in the order they are made:
      those of Roughness, then the two safety limits. */
  function AssessmentChecks(radiusMeters: real, stepMeters: real, sampleOffsetMeters: real,
                            maxSafeSlopeDeg: real, maxSafeRoughnessDeg: real): (checks: seq<Outcome>)
    ensures |checks| == 5
    ensures checks[..3] == RoughnessChecks(radiusMeters, stepMeters, sampleOffsetMeters)
    ensures checks[3].Pass? <==> 0.0 < maxSafeSlopeDeg
    ensures checks[4].Pass? <==> 0.0 < maxSafeRoughnessDeg
  {
    RoughnessChecks(radiusMeters, stepMeters, sampleOffsetMeters)
      + [RequirePositive("maxSafeSlopeDeg", maxSafeSlopeDeg),
         RequirePositive("maxSafeRoughnessDeg", maxSafeRoughnessDeg)]
  }

  /** The slopes the sampler probes around a point of a body. */
  function SiteSlopes(body: Body, latitude: real, longitude: real,
                      radiusMeters: real, stepMeters: real, sampleOffsetMeters: real,
                      cos: real -> real): seq<real>
    requires 0.0 < body.radius && 0.0 < stepMeters
  {
    SampleSlopes(SamplePoints(MakeGrid(latitude, longitude, radiusMeters, stepMeters, body.radius, cos)),
                 body.slope, sampleOffsetMeters)
  }

  /** Roughness: validates its three lengths, samples the slopes around the
      point and returns their standard deviation. */
  method Roughness(body: Body, latitude: real, longitude: real,
                   radiusMeters: real, stepMeters: real, sampleOffsetMeters: real,
                   cos: real -> real, sqrt: real -> real)
    returns (result: Result<real>)
    ensures result.Failure? <==>
      FirstFailure(RoughnessChecks(radiusMeters, stepMeters, sampleOffsetMeters)).Fail? || body.radius <= 0.0
    ensures FirstFailure(RoughnessChecks(radiusMeters, stepMeters, sampleOffsetMeters)).Fail? ==>
      result == Failure(FirstFailure(RoughnessChecks(radiusMeters, stepMeters, sampleOffsetMeters)).message)
    ensures FirstFailure(RoughnessChecks(radiusMeters, stepMeters, sampleOffsetMeters)).Pass? && body.radius <= 0.0 ==>
      result == Failure("Body radius is unavailable.")
    ensures result.Ok? ==>
      0.0 < radiusMeters && 0.0 < stepMeters && 0.0 < sampleOffsetMeters && 0.0 < body.radius &&
      result.value == sqrt(Variance(SiteSlopes(body, latitude, longitude, radiusMeters, stepMeters, sampleOffsetMeters, cos)))
  {
    var check := FirstFailure(RoughnessChecks(radiusMeters, stepMeters, sampleOffsetMeters));
    if check.Fail? {
      return Failure(check.message);
    }
    var checks := RoughnessChecks(radiusMeters, stepMeters, sampleOffsetMeters);
    assert checks[0].Pass? && checks[1].Pass? && checks[2].Pass?;
    var collected := CollectSlopeSamples(body.radius, latitude, longitude, radiusMeters, stepMeters,
                                         sampleOffsetMeters, cos, body.slope);
    if collected.Failure? {
      return Failure(collected.message);
    }
    var slopes := collected.value;
    ProbedIsSampleSlopes(slopes, SamplePoints(MakeGrid(latitude, longitude, radiusMeters, stepMeters, body.radius, cos)),
                         body.slope, sampleOffsetMeters);
    FallbackUnreachable(MakeGrid(latitude, longitude, radiusMeters, stepMeters, body.radius, cos));
    var stats := CalculateSlopeStats(slopes, sqrt);
    return Ok(stats.roughnessDeg);
  }

  /** AssessLandingSite: validates its lengths and limits, then records the
      centre elevation, the slope statistics of the sampled grid, the
      high-resolution altimetry coverage of the body and of the centre, the
      score and its recommendation. */
  method AssessLandingSite(body: Body, latitude: real, longitude: real,
                           radiusMeters: real, stepMeters: real, sampleOffsetMeters: real,
                           maxSafeSlopeDeg: real, maxSafeRoughnessDeg: real,
                           cos: real -> real, sqrt: real -> real)
    returns (result: Result<LandingSiteAssessment>)
    ensures result.Failure? <==>
      FirstFailure(AssessmentChecks(radiusMeters, stepMeters, sampleOffsetMeters,
                                    maxSafeSlopeDeg, maxSafeRoughnessDeg)).Fail? || body.radius <= 0.0
    ensures FirstFailure(AssessmentChecks(radiusMeters, stepMeters, sampleOffsetMeters,
                                          maxSafeSlopeDeg, maxSafeRoughnessDeg)).Fail? ==>
      result == Failure(FirstFailure(AssessmentChecks(radiusMeters, stepMeters, sampleOffsetMeters,
                                                      maxSafeSlopeDeg, maxSafeRoughnessDeg)).message)
    ensures FirstFailure(AssessmentChecks(radiusMeters, stepMeters, sampleOffsetMeters,
                                          maxSafeSlopeDeg, maxSafeRoughnessDeg)).Pass? && body.radius <= 0.0 ==>
      result == Failure("Body radius is unavailable.")
    ensures result.Ok? ==>
      0.0 < radiusMeters && 0.0 < stepMeters && 0.0 < sampleOffsetMeters && 0.0 < body.radius &&
      var a := result.value;
      var slopes := SiteSlopes(body, latitude, longitude, radiusMeters, stepMeters, sampleOffsetMeters, cos);
      var k := AxisCount(radiusMeters, stepMeters);
      // the centre is reported as given, not clamped or normalized
      a.latitudeDeg == latitude && a.longitudeDeg == longitude &&
      a.elevationM == body.elevation(latitude, longitude) &&
      // one sample per grid point, and at least one
      1 <= k && a.sampleCount == k * k && a.sampleCount == |slopes| &&
      a.meanSlopeDeg == MeanAbs(slopes) && a.maxSlopeDeg == MaxAbs(slopes) &&
      a.roughnessDeg == sqrt(Variance(slopes)) &&
      0.0 <= a.meanSlopeDeg <= a.maxSlopeDeg &&
      a.hiResCoveragePercent == body.coverage(AltimetryHiRes) &&
      a.centerHiResCovered == body.isCovered(latitude, longitude, AltimetryHiRes) &&
      a.score == ComputeLandingScore(a.meanSlopeDeg, a.maxSlopeDeg, a.roughnessDeg,
                                     maxSafeSlopeDeg, maxSafeRoughnessDeg) &&
      0.0 <= a.score <= 1.0 &&
      a.recommendation == Recommend(a.score)
  {
    var checks := AssessmentChecks(radiusMeters, stepMeters, sampleOffsetMeters, maxSafeSlopeDeg, maxSafeRoughnessDeg);
    var check := FirstFailure(checks);
    if check.Fail? {
      return Failure(check.message);
    }
    assert checks[..3][0].Pass? && checks[..3][1].Pass? && checks[..3][2].Pass?;
    assert checks[3].Pass? && checks[4].Pass?;
    var centerElevation := body.elevation(latitude, longitude);
    var collected := CollectSlopeSamples(body.radius, latitude, longitude, radiusMeters, stepMeters,
                                         sampleOffsetMeters, cos, body.slope);
    if collected.Failure? {
      return Failure(collected.message);
    }
    var slopes := collected.value;
    ghost var g := MakeGrid(latitude, longitude, radiusMeters, stepMeters, body.radius, cos);
    ProbedIsSampleSlopes(slopes, SamplePoints(g), body.slope, sampleOffsetMeters);
    FallbackUnreachable(g);
    StatsBounds(slopes);
    var stats := CalculateSlopeStats(slopes, sqrt);

    var hiResCoverage := body.coverage(AltimetryHiRes);
    var centerHiResCovered := body.isCovered(latitude, longitude, AltimetryHiRes);
    var score := ComputeLandingScore(stats.meanSlopeDeg, stats.maxSlopeDeg, stats.roughnessDeg,
                                     maxSafeSlopeDeg, maxSafeRoughnessDeg);
    var recommendation := Recommend(score);
    return Ok(LandingSiteAssessment(latitude, longitude, centerElevation,
                                    stats.meanSlopeDeg, stats.maxSlopeDeg, stats.roughnessDeg,
                                    |slopes|, hiResCoverage, centerHiResCovered, score, recommendation));
  }
}
