/// Slope statistics of a sampled site: mean, maximum and population
/// standard deviation of the slope magnitudes.
module SiteStatistics {

  /** The statistics record of an assessment, in degrees. */
  datatype SiteAssessmentStats = SiteAssessmentStats(meanSlopeDeg: real, maxSlopeDeg: real, roughnessDeg: real)

  function Abs(x: real): real {
    if x < 0.0 then -x else x
  }

  /** Sum of the magnitudes, accumulated left to right. */
  function SumAbs(s: seq<real>): real {
    if s == [] then 0.0 else SumAbs(s[..|s| - 1]) + Abs(s[|s| - 1])
  }

  /** Running maximum of the magnitudes, starting from 0. */
  function MaxAbs(s: seq<real>): real {
    if s == [] then 0.0
    else
      var m := MaxAbs(s[..|s| - 1]);
      if Abs(s[|s| - 1]) > m then Abs(s[|s| - 1]) else m
  }

  /** Mean magnitude; 0 for no samples. */
  function MeanAbs(s: seq<real>): real {
    if s == [] then 0.0 else SumAbs(s) / (|s| as real)
  }

  /** Sum of squared deviations of the magnitudes from a given mean. */
  function SquaredDeviations(s: seq<real>, mean: real): real {
    if s == [] then 0.0
    else
      var delta := Abs(s[|s| - 1]) - mean;
      SquaredDeviations(s[..|s| - 1], mean) + delta * delta
  }

  /** Population variance of the magnitudes; 0 for no samples. */
  function Variance(s: seq<real>): real {
    if s == [] then 0.0 else SquaredDeviations(s, MeanAbs(s)) / (|s| as real)
  }

  /** No magnitude exceeds the maximum. */
  lemma {:induction false} MaxAbsBounds(s: seq<real>)
    ensures 0.0 <= MaxAbs(s)
    ensures forall i :: 0 <= i < |s| ==> Abs(s[i]) <= MaxAbs(s)
  {
    if s != [] {
      var prefix := s[..|s| - 1];
      MaxAbsBounds(prefix);
      assert forall i :: 0 <= i < |s| - 1 ==> s[i] == prefix[i];
    }
  }

  /** A non-empty sample set attains its maximum magnitude. */
  lemma {:induction false} MaxAbsAttained(s: seq<real>)
    requires s != []
    ensures exists i :: 0 <= i < |s| && MaxAbs(s) == Abs(s[i])
  {
    var prefix := s[..|s| - 1];
    if Abs(s[|s| - 1]) <= MaxAbs(prefix) && prefix != [] {
      MaxAbsAttained(prefix);
      var i :| 0 <= i < |prefix| && MaxAbs(prefix) == Abs(prefix[i]);
      assert s[i] == prefix[i];
    }
  }

  /** The magnitudes sum to at least 0 and at most |s| times the maximum. */
  lemma {:induction false} SumAbsBounds(s: seq<real>)
    ensures 0.0 <= SumAbs(s) <= (|s| as real) * MaxAbs(s)
  {
    if s != [] {
      var prefix := s[..|s| - 1];
      SumAbsBounds(prefix);
      MaxAbsBounds(prefix);
      assert MaxAbs(prefix) <= MaxAbs(s);
      assert (|prefix| as real) * MaxAbs(prefix) <= (|prefix| as real) * MaxAbs(s);
      assert (|s| as real) * MaxAbs(s) == (|prefix| as real) * MaxAbs(s) + MaxAbs(s);
    }
  }

  lemma {:induction false} SquaredDeviationsNonNegative(s: seq<real>, mean: real)
    ensures 0.0 <= SquaredDeviations(s, mean)
  {
    if s != [] {
      SquaredDeviationsNonNegative(s[..|s| - 1], mean);
    }
  }

  lemma MeanAtMostMax(sum: real, n: real, max: real)
    requires 0.0 < n && 0.0 <= sum <= n * max
    ensures 0.0 <= sum / n <= max
  {
    assert sum / n <= (n * max) / n;
  }

  /** What the statistics promise: the mean lies between 0 and the maximum,
      the maximum bounds every magnitude and is one of them, and the variance
      is not negative. */
  lemma StatsBounds(s: seq<real>)
    requires s != []
    ensures 0.0 <= MeanAbs(s) <= MaxAbs(s)
    ensures forall i :: 0 <= i < |s| ==> Abs(s[i]) <= MaxAbs(s)
    ensures exists i :: 0 <= i < |s| && MaxAbs(s) == Abs(s[i])
    ensures 0.0 <= Variance(s)
  {
    MaxAbsBounds(s);
    MaxAbsAttained(s);
    SumAbsBounds(s);
    MeanAtMostMax(SumAbs(s), |s| as real, MaxAbs(s));
    SquaredDeviationsNonNegative(s, MeanAbs(s));
  }

  /** When every sample has the same magnitude c the mean is c and the site
      has no roughness. */
  lemma UniformSlopesHaveNoVariance(s: seq<real>, c: real)
    requires s != []
    requires forall i :: 0 <= i < |s| ==> Abs(s[i]) == c
    ensures MeanAbs(s) == c && Variance(s) == 0.0
  {
    UniformSums(s, c);
    assert ((|s| as real) * c) / (|s| as real) == c;
  }

  lemma {:induction false} UniformSums(s: seq<real>, c: real)
    requires forall i :: 0 <= i < |s| ==> Abs(s[i]) == c
    ensures SumAbs(s) == (|s| as real) * c
    ensures SquaredDeviations(s, c) == 0.0
  {
    if s != [] {
      var prefix := s[..|s| - 1];
      assert forall i :: 0 <= i < |prefix| ==> prefix[i] == s[i];
      UniformSums(prefix, c);
    }
  }

  /** CalculateSlopeStats: one pass for the sum and the maximum of the
      magnitudes, a second for the squared deviations from the mean; the
      roughness is `sqrt` (the square root of the platform) of the variance. */
  method CalculateSlopeStats(slopes: seq<real>, sqrt: real -> real) returns (stats: SiteAssessmentStats)
    ensures slopes == [] ==> stats == SiteAssessmentStats(0.0, 0.0, 0.0)
    ensures slopes != [] ==>
      stats == SiteAssessmentStats(MeanAbs(slopes), MaxAbs(slopes), sqrt(Variance(slopes)))
  {
    if |slopes| == 0 {
      return SiteAssessmentStats(0.0, 0.0, 0.0);
    }

    var sum := 0.0;
    var max := 0.0;
    var i := 0;
    while i < |slopes|
      invariant 0 <= i <= |slopes|
      invariant sum == SumAbs(slopes[..i])
      invariant max == MaxAbs(slopes[..i])
    {
      var value := Abs(slopes[i]);
      assert slopes[..i + 1][..i] == slopes[..i];
      sum := sum + value;
      if value > max {
        max := value;
      }
      i := i + 1;
    }
    assert slopes[..i] == slopes;

    var mean := sum / (|slopes| as real);
    var varianceSum := 0.0;
    i := 0;
    while i < |slopes|
      invariant 0 <= i <= |slopes|
      invariant varianceSum == SquaredDeviations(slopes[..i], mean)
    {
      var delta := Abs(slopes[i]) - mean;
      assert slopes[..i + 1][..i] == slopes[..i];
      varianceSum := varianceSum + delta * delta;
      i := i + 1;
    }
    assert slopes[..i] == slopes;

    var stdDev := sqrt(varianceSum / (|slopes| as real));
    return SiteAssessmentStats(mean, max, stdDev);
  }
}
