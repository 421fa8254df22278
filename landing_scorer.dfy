/// The landing score: three headroom scores against the safety limits,
/// weighted 0.5 / 0.3 / 0.2, and the three-tier recommendation derived from it.
module LandingScorer {

  /** Floor of both safety limits, which keeps the divisions defined. */
  const MinSafeLimit: real := 0.0001

  const MaxSlopeWeight: real := 0.5
  const RoughnessWeight: real := 0.3
  const MeanSlopeWeight: real := 0.2

  /** Lowest score recommended as "good", and lowest recommended as "marginal". */
  const GoodThreshold: real := 0.75
  const MarginalThreshold: real := 0.45

  /** Clamp01: saturates a value to [0, 1]. */
  function Clamp01(value: real): (r: real)
    ensures 0.0 <= r <= 1.0
    ensures 0.0 <= value <= 1.0 ==> r == value
    ensures value < 0.0 ==> r == 0.0
    ensures 1.0 < value ==> r == 1.0
  {
    if value < 0.0 then 0.0
    else if value > 1.0 then 1.0
    else value
  }

  /** Saturation never reorders values. */
  lemma Clamp01Monotone(a: real, b: real)
    requires a <= b
    ensures Clamp01(a) <= Clamp01(b)
  {
  }

  /** A safety limit as the scorer uses it: the larger of the limit and
      MinSafeLimit. */
  function SafeLimit(limit: real): (r: real)
    ensures MinSafeLimit <= r && limit <= r
    ensures r == limit || r == MinSafeLimit
  {
    if MinSafeLimit > limit then MinSafeLimit else limit
  }

  /** The share of the limit a measured value leaves unused, clamped to [0, 1]. */
  function Headroom(value: real, limit: real): real {
    var l := SafeLimit(limit);
    Clamp01((l - value) / l)
  }

  /** A larger measured value never leaves more headroom. */
  lemma HeadroomAntitone(a: real, b: real, limit: real)
    requires a <= b
    ensures Headroom(b, limit) <= Headroom(a, limit)
  {
    var l := SafeLimit(limit);
    assert (l - a) / l - (l - b) / l == (b - a) / l;
    Clamp01Monotone((l - b) / l, (l - a) / l);
  }

  /** Nothing measured leaves the whole limit unused; reaching the limit
      leaves none. */
  lemma HeadroomEnds(value: real, limit: real)
    ensures value == 0.0 ==> Headroom(value, limit) == 1.0
    ensures SafeLimit(limit) <= value ==> Headroom(value, limit) == 0.0
  {
    var l := SafeLimit(limit);
    assert (l - 0.0) / l == 1.0;
    if l <= value {
      assert (l - value) / l <= 0.0;
    }
  }

  /** ComputeLandingScore: the weighted sum of the headroom of the maximum
      slope, the roughness and the mean slope; always within [0, 1]. */
  function ComputeLandingScore(meanSlopeDeg: real, maxSlopeDeg: real, roughnessDeg: real,
                               maxSafeSlopeDeg: real, maxSafeRoughnessDeg: real): (score: real)
    ensures 0.0 <= score <= 1.0
  {
    var maxSlopeScore := Headroom(maxSlopeDeg, maxSafeSlopeDeg);
    var meanSlopeScore := Headroom(meanSlopeDeg, maxSafeSlopeDeg);
    var roughnessScore := Headroom(roughnessDeg, maxSafeRoughnessDeg);
    MaxSlopeWeight * maxSlopeScore + RoughnessWeight * roughnessScore + MeanSlopeWeight * meanSlopeScore
  }

  /** With the limits held fixed, a site whose mean slope, maximum slope and
      roughness are each no smaller never scores higher. */
  lemma ScoreMonotone(mean1: real, max1: real, rough1: real,
                      mean2: real, max2: real, rough2: real,
                      maxSafeSlopeDeg: real, maxSafeRoughnessDeg: real)
    requires mean1 <= mean2 && max1 <= max2 && rough1 <= rough2
    ensures ComputeLandingScore(mean2, max2, rough2, maxSafeSlopeDeg, maxSafeRoughnessDeg)
            <= ComputeLandingScore(mean1, max1, rough1, maxSafeSlopeDeg, maxSafeRoughnessDeg)
  {
    HeadroomAntitone(mean1, mean2, maxSafeSlopeDeg);
    HeadroomAntitone(max1, max2, maxSafeSlopeDeg);
    HeadroomAntitone(rough1, rough2, maxSafeRoughnessDeg);
  }

  /** A perfectly flat, smooth site scores 1 whatever the limits. */
  lemma FlatSiteScoresOne(maxSafeSlopeDeg: real, maxSafeRoughnessDeg: real)
    ensures ComputeLandingScore(0.0, 0.0, 0.0, maxSafeSlopeDeg, maxSafeRoughnessDeg) == 1.0
  {
    HeadroomEnds(0.0, maxSafeSlopeDeg);
    HeadroomEnds(0.0, maxSafeRoughnessDeg);
  }

  /** A site at or beyond every safety limit scores 0. */
  lemma UnsafeSiteScoresZero(meanSlopeDeg: real, maxSlopeDeg: real, roughnessDeg: real,
                             maxSafeSlopeDeg: real, maxSafeRoughnessDeg: real)
    requires SafeLimit(maxSafeSlopeDeg) <= meanSlopeDeg && SafeLimit(maxSafeSlopeDeg) <= maxSlopeDeg
    requires SafeLimit(maxSafeRoughnessDeg) <= roughnessDeg
    ensures ComputeLandingScore(meanSlopeDeg, maxSlopeDeg, roughnessDeg, maxSafeSlopeDeg, maxSafeRoughnessDeg) == 0.0
  {
    HeadroomEnds(meanSlopeDeg, maxSafeSlopeDeg);
    HeadroomEnds(maxSlopeDeg, maxSafeSlopeDeg);
    HeadroomEnds(roughnessDeg, maxSafeRoughnessDeg);
  }

  /** The recommendation of a score: "good" from 0.75, "marginal" from 0.45,
      "avoid" below; each boundary belongs to the upper tier. */
  function Recommend(score: real): (r: string)
    ensures r == "good" <==> GoodThreshold <= score
    ensures r == "marginal" <==> MarginalThreshold <= score < GoodThreshold
    ensures r == "avoid" <==> score < MarginalThreshold
  {
    if score >= GoodThreshold then "good"
    else if score >= MarginalThreshold then "marginal"
    else "avoid"
  }

  /** Orders the tiers: avoid < marginal < good. */
  function TierRank(recommendation: string): nat {
    if recommendation == "good" then 2
    else if recommendation == "marginal" then 1
    else 0
  }

  /** A higher score never gets a worse tier. */
  lemma RecommendMonotone(score1: real, score2: real)
    requires score1 <= score2
    ensures TierRank(Recommend(score1)) <= TierRank(Recommend(score2))
  {
  }

  /** With fixed limits, a rougher or steeper site never gets a better
      recommendation. */
  lemma SteeperSiteNeverBetter(mean1: real, max1: real, rough1: real,
                               mean2: real, max2: real, rough2: real,
                               maxSafeSlopeDeg: real, maxSafeRoughnessDeg: real)
    requires mean1 <= mean2 && max1 <= max2 && rough1 <= rough2
    ensures TierRank(Recommend(ComputeLandingScore(mean2, max2, rough2, maxSafeSlopeDeg, maxSafeRoughnessDeg)))
            <= TierRank(Recommend(ComputeLandingScore(mean1, max1, rough1, maxSafeSlopeDeg, maxSafeRoughnessDeg)))
  {
    ScoreMonotone(mean1, max1, rough1, mean2, max2, rough2, maxSafeSlopeDeg, maxSafeRoughnessDeg);
    RecommendMonotone(
      ComputeLandingScore(mean2, max2, rough2, maxSafeSlopeDeg, maxSafeRoughnessDeg),
      ComputeLandingScore(mean1, max1, rough1, maxSafeSlopeDeg, maxSafeRoughnessDeg));
  }
}
