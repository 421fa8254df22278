/// The landing-site sampler: a square grid of north/east offsets around a
/// centre, one slope query per grid point, collected row by row.
module SiteSampler {
  import opened CoordinateMath
  import opened ServiceErrors

  /** Slack on the inclusive upper bound of both loops, in metres. */
  const Tolerance: real := 0.000000001

  /** A point on the body, in degrees. */
  datatype Coordinate = Coordinate(latitude: real, longitude: real)

  /** Everything the two nested loops depend on: the clamped and normalized
      centre, the grid radius and step in metres, the degrees-per-metre scale
      and the floored cosine of the centre latitude. */
  datatype GridSpec = GridSpec(
    centerLat: real,
    centerLon: real,
    radius: real,
    step: real,
    metersToDegrees: real,
    cosLat: real)

  predicate ValidGrid(g: GridSpec) {
    0.0 < g.step && g.cosLat != 0.0
  }

  /** The grid the sampler builds from its inputs; `cos` is the platform's
      cosine, applied to the clamped centre latitude in radians. */
  function MakeGrid(latitude: real, longitude: real, radius: real, step: real,
                    bodyRadius: real, cos: real -> real): (g: GridSpec)
    requires 0.0 < bodyRadius && 0.0 < step
    ensures ValidGrid(g)
    ensures -MaxLatitude <= g.centerLat <= MaxLatitude
    ensures -180.0 <= g.centerLon < 180.0
  {
    GridSpec(ClampLatitude(latitude), NormalizeLongitude(longitude), radius, step,
             MetersToDegrees(bodyRadius), FloorCosine(cos(ClampLatitude(latitude) * (Pi / 180.0))))
  }

  /** The offset in metres of the i-th row (north) or column (east). */
  function Offset(radius: real, step: real, i: nat): real {
    -radius + (i as real) * step
  }

  /** How many offsets -radius, -radius + step, ... stay within
      radius + Tolerance: the loop runs this many times on each axis. */
  function AxisCount(radius: real, step: real): nat
    requires 0.0 < step
  {
    var span := 2.0 * radius + Tolerance;
    if span < 0.0 then 0 else (span / step).Floor + 1
  }

  lemma MulLeftMono(a: real, b: real, c: real)
    requires a <= b && 0.0 < c
    ensures a * c <= b * c
  {
  }

  lemma MulLeftStrictMono(a: real, b: real, c: real)
    requires a < b && 0.0 < c
    ensures a * c < b * c
  {
  }

  /** Consecutive offsets are one step apart. */
  lemma OffsetNext(radius: real, step: real, i: nat)
    ensures Offset(radius, step, i + 1) == Offset(radius, step, i) + step
  {
    assert ((i + 1) as real) * step == (i as real) * step + step;
  }

  /** The i-th offset passes the loop test exactly when i < AxisCount. */
  lemma AxisCountSpec(radius: real, step: real, i: nat)
    requires 0.0 < step
    ensures Offset(radius, step, i) <= radius + Tolerance <==> i < AxisCount(radius, step)
  {
    var span := 2.0 * radius + Tolerance;
    var q := span / step;
    var x := i as real;
    assert span == q * step;
    assert Offset(radius, step, i) <= radius + Tolerance <==> x * step <= span;
    if span < 0.0 {
      MulLeftMono(0.0, x, step);
    } else if x <= q {
      MulLeftMono(x, q, step);
      assert i <= q.Floor;
    } else {
      MulLeftStrictMono(q, x, step);
      assert q.Floor < i;
    }
  }

  /** For a positive radius the first offset always passes the test, so each
      axis has at least one sample. */
  lemma AxisCountPositive(radius: real, step: real)
    requires 0.0 <= radius && 0.0 < step
    ensures 1 <= AxisCount(radius, step)
  {
    AxisCountSpec(radius, step, 0);
  }

  /** Latitude of the i-th row: the centre moved i offsets north, clamped. */
  function RowLatitude(g: GridSpec, i: nat): real {
    ClampLatitude(g.centerLat + Offset(g.radius, g.step, i) * g.metersToDegrees)
  }

  /** The latitude the loop computes from its running north offset is that
      of row i. */
  lemma RowLatitudeAt(g: GridSpec, i: nat, northMeters: real)
    requires northMeters == Offset(g.radius, g.step, i)
    ensures ClampLatitude(g.centerLat + northMeters * g.metersToDegrees) == RowLatitude(g, i)
  {
  }

  /** Longitude of the j-th column: the east offset scaled by 1/cos of the
      centre latitude, then normalized. */
  function ColumnLongitude(g: GridSpec, j: nat): real
    requires ValidGrid(g)
  {
    NormalizeLongitude(g.centerLon + LongitudeDelta(Offset(g.radius, g.step, j), g.metersToDegrees, g.cosLat))
  }

  /** Degrees of longitude spanned by an east offset at the centre latitude. */
  function LongitudeDelta(eastMeters: real, metersToDegrees: real, cosLat: real): real
    requires cosLat != 0.0
  {
    (eastMeters * metersToDegrees) / cosLat
  }

  /** The points of row i, west to east. */
  function Row(g: GridSpec, i: nat): (row: seq<Coordinate>)
    requires ValidGrid(g)
    ensures |row| == AxisCount(g.radius, g.step)
    ensures forall j :: 0 <= j < |row| ==> row[j] == Coordinate(RowLatitude(g, i), ColumnLongitude(g, j))
  {
    seq(AxisCount(g.radius, g.step), j requires 0 <= j => Coordinate(RowLatitude(g, i), ColumnLongitude(g, j)))
  }

  /** The first n rows, south to north. */
  function GridRows(g: GridSpec, n: nat): seq<Coordinate>
    requires ValidGrid(g)
  {
    if n == 0 then [] else GridRows(g, n - 1) + Row(g, n - 1)
  }

  /** The points the sampler queries: the whole grid, or the centre alone
      when the loops make no iteration. */
  function SamplePoints(g: GridSpec): seq<Coordinate>
    requires ValidGrid(g)
  {
    var k := AxisCount(g.radius, g.step);
    if k == 0 then [Coordinate(g.centerLat, g.centerLon)] else GridRows(g, k)
  }

  /** samples holds one oracle answer per point, in the order of points. */
  ghost predicate Probed(samples: seq<real>, points: seq<Coordinate>,
                         slope: (real, real, real) -> real, sampleOffset: real)
  {
    && |samples| == |points|
    && forall n :: 0 <= n < |points| ==>
         samples[n] == slope(points[n].latitude, points[n].longitude, sampleOffset)
  }

  lemma {:induction false} GridRowsLength(g: GridSpec, n: nat)
    requires ValidGrid(g)
    ensures |GridRows(g, n)| == n * AxisCount(g.radius, g.step)
  {
    if n > 0 {
      GridRowsLength(g, n - 1);
    }
  }

  /** Row-major layout: the sample of row a, column b sits at a * k + b. */
  lemma {:induction false} GridRowsAt(g: GridSpec, n: nat, a: nat, b: nat)
    requires ValidGrid(g)
    requires a < n && b < AxisCount(g.radius, g.step)
    ensures a * AxisCount(g.radius, g.step) + b < |GridRows(g, n)|
    ensures GridRows(g, n)[a * AxisCount(g.radius, g.step) + b]
            == Coordinate(RowLatitude(g, a), ColumnLongitude(g, b))
  {
    var k := AxisCount(g.radius, g.step);
    GridRowsLength(g, n - 1);
    GridRowsLength(g, n);
    if a < n - 1 {
      GridRowsAt(g, n - 1, a, b);
      assert a * k + b < (n - 1) * k;
    } else {
      assert a * k + b == (n - 1) * k + b;
    }
  }

  /** A coordinate with a clamped latitude and a normalized longitude. */
  predicate InRange(p: Coordinate) {
    -MaxLatitude <= p.latitude <= MaxLatitude && -180.0 <= p.longitude < 180.0
  }

  /** Every point the grid loops query has a clamped latitude and a
      normalized longitude. */
  lemma {:induction false} GridRowsInRange(g: GridSpec, n: nat)
    requires ValidGrid(g)
    ensures forall m :: 0 <= m < |GridRows(g, n)| ==> InRange(GridRows(g, n)[m])
  {
    if n > 0 {
      GridRowsInRange(g, n - 1);
      var prefix, row := GridRows(g, n - 1), Row(g, n - 1);
      assert forall j :: 0 <= j < |row| ==> InRange(row[j]);
      assert GridRows(g, n) == prefix + row;
    }
  }

  /** The sampler never queries a point outside the clamped latitude band or
      the normalized longitude range, fallback included. */
  lemma SamplePointsInRange(g: GridSpec)
    requires ValidGrid(g)
    requires -MaxLatitude <= g.centerLat <= MaxLatitude && -180.0 <= g.centerLon < 180.0
    ensures forall m :: 0 <= m < |SamplePoints(g)| ==> InRange(SamplePoints(g)[m])
  {
    GridRowsInRange(g, AxisCount(g.radius, g.step));
  }

  /** The answers of the slope oracle at the given points, in order. */
  function SampleSlopes(points: seq<Coordinate>, slope: (real, real, real) -> real,
                        sampleOffset: real): (samples: seq<real>)
    ensures Probed(samples, points, slope, sampleOffset)
  {
    seq(|points|, n requires 0 <= n < |points| => slope(points[n].latitude, points[n].longitude, sampleOffset))
  }

  /** Probed fixes the samples completely. */
  lemma ProbedIsSampleSlopes(samples: seq<real>, points: seq<Coordinate>,
                             slope: (real, real, real) -> real, sampleOffset: real)
    requires Probed(samples, points, slope, sampleOffset)
    ensures samples == SampleSlopes(points, slope, sampleOffset)
  {
  }

  /** Querying one more point extends the samples by its answer. */
  lemma ProbedAppend(samples: seq<real>, points: seq<Coordinate>, p: Coordinate,
                     slope: (real, real, real) -> real, sampleOffset: real)
    requires Probed(samples, points, slope, sampleOffset)
    ensures Probed(samples + [slope(p.latitude, p.longitude, sampleOffset)], points + [p], slope, sampleOffset)
  {
  }

  lemma AppendNextOfSlice<T>(prefix: seq<T>, row: seq<T>, j: nat)
    requires j < |row|
    ensures prefix + row[..j + 1] == (prefix + row[..j]) + [row[j]]
  {
    assert row[..j + 1] == row[..j] + [row[j]];
  }

  /** Sampling the next column of row i extends the samples by its answer. */
  lemma ProbedNextColumn(samples: seq<real>, g: GridSpec, i: nat, j: nat,
                         slope: (real, real, real) -> real, sampleOffset: real)
    requires ValidGrid(g) && j < AxisCount(g.radius, g.step)
    requires Probed(samples, GridRows(g, i) + Row(g, i)[..j], slope, sampleOffset)
    ensures Probed(samples + [slope(RowLatitude(g, i), ColumnLongitude(g, j), sampleOffset)],
                   GridRows(g, i) + Row(g, i)[..j + 1], slope, sampleOffset)
  {
    var row := Row(g, i);
    AppendNextOfSlice(GridRows(g, i), row, j);
    assert row[j] == Coordinate(RowLatitude(g, i), ColumnLongitude(g, j));
    ProbedAppend(samples, GridRows(g, i) + row[..j], row[j], slope, sampleOffset);
  }

  /** A row sampled to its last column completes the grid's next row. */
  lemma ProbedRowDone(samples: seq<real>, g: GridSpec, i: nat,
                      slope: (real, real, real) -> real, sampleOffset: real)
    requires ValidGrid(g)
    requires Probed(samples, GridRows(g, i) + Row(g, i)[..AxisCount(g.radius, g.step)], slope, sampleOffset)
    ensures Probed(samples, GridRows(g, i + 1), slope, sampleOffset)
  {
    assert Row(g, i)[..AxisCount(g.radius, g.step)] == Row(g, i);
  }

  /** For a positive radius and step the grid has k * k points for some
      k >= 1, so the centre-only fallback is never taken. */
  lemma FallbackUnreachable(g: GridSpec)
    requires ValidGrid(g) && 0.0 < g.radius
    ensures 1 <= AxisCount(g.radius, g.step)
    ensures SamplePoints(g) == GridRows(g, AxisCount(g.radius, g.step))
    ensures |SamplePoints(g)| == AxisCount(g.radius, g.step) * AxisCount(g.radius, g.step)
  {
    AxisCountPositive(g.radius, g.step);
    GridRowsLength(g, AxisCount(g.radius, g.step));
  }

  /** The default tunables (radius 60 m, step 20 m) give 7 offsets per axis,
      so 49 samples; radius 20 m, step 20 m gives offsets -20, 0 and 20, so 9. */
  lemma GridSizeExamples()
    ensures AxisCount(60.0, 20.0) == 7
    ensures AxisCount(20.0, 20.0) == 3
    ensures Offset(20.0, 20.0, 0) == -20.0 && Offset(20.0, 20.0, 1) == 0.0 && Offset(20.0, 20.0, 2) == 20.0
  {
    assert (120.0 + Tolerance) / 20.0 == 6.00000000005;
    assert (40.0 + Tolerance) / 20.0 == 2.00000000005;
  }

  /** The inner loop of the sampler: one slope query per column of row i,
      west to east, appended to the samples of the rows before it. */
  method SampleRow(samples: seq<real>, g: GridSpec, i: nat, sampleLat: real,
                   slope: (real, real, real) -> real, sampleOffset: real)
    returns (extended: seq<real>)
    requires ValidGrid(g) && sampleLat == RowLatitude(g, i)
    requires Probed(samples, GridRows(g, i), slope, sampleOffset)
    ensures Probed(extended, GridRows(g, i + 1), slope, sampleOffset)
  {
    ghost var k := AxisCount(g.radius, g.step);
    extended := samples;
    var eastMeters := -g.radius;
    ghost var j: nat := 0;
    while eastMeters <= g.radius + Tolerance
      invariant j <= k
      invariant eastMeters == Offset(g.radius, g.step, j)
      invariant Probed(extended, GridRows(g, i) + Row(g, i)[..j], slope, sampleOffset)
      decreases k - j
    {
      AxisCountSpec(g.radius, g.step, j);
      var lonDeltaDeg := LongitudeDelta(eastMeters, g.metersToDegrees, g.cosLat);
      var sampleLon := NormalizeLongitude(g.centerLon + lonDeltaDeg);
      ProbedNextColumn(extended, g, i, j, slope, sampleOffset);
      extended := extended + [slope(sampleLat, sampleLon, sampleOffset)];
      OffsetNext(g.radius, g.step, j);
      eastMeters := eastMeters + g.step;
      j := j + 1;
    }
    AxisCountSpec(g.radius, g.step, j);
    ProbedRowDone(extended, g, i, slope, sampleOffset);
  }

  /** CollectSlopeSamples: walks the north offsets and, within each, the east
      offsets, querying the slope oracle once per point; falls back to the
      centre when the grid is empty; fails when the body has no radius. */
  method CollectSlopeSamples(bodyRadius: real, latitude: real, longitude: real,
                             radius: real, step: real, sampleOffset: real,
                             cos: real -> real, slope: (real, real, real) -> real)
    returns (result: Result<seq<real>>)
    requires 0.0 < step
    ensures result.Failure? <==> bodyRadius <= 0.0
    ensures result.Failure? ==> result.message == "Body radius is unavailable."
    ensures result.Ok? ==>
      Probed(result.value,
             SamplePoints(MakeGrid(latitude, longitude, radius, step, bodyRadius, cos)),
             slope, sampleOffset)
  {
    if bodyRadius <= 0.0 {
      return Failure("Body radius is unavailable.");
    }
    var centerLat := ClampLatitude(latitude);
    var centerLon := NormalizeLongitude(longitude);
    var metersToDegrees := MetersToDegrees(bodyRadius);
    var centerLatRad := centerLat * (Pi / 180.0);
    var cosLat := FloorCosine(cos(centerLatRad));
    var g := GridSpec(centerLat, centerLon, radius, step, metersToDegrees, cosLat);
    ghost var k := AxisCount(radius, step);
    assert g == MakeGrid(latitude, longitude, radius, step, bodyRadius, cos);

    var samples: seq<real> := [];
    var northMeters := -radius;
    var i: nat := 0;
    while northMeters <= radius + Tolerance
      invariant i <= k
      invariant northMeters == Offset(radius, step, i)
      invariant Probed(samples, GridRows(g, i), slope, sampleOffset)
      decreases k - i
    {
      AxisCountSpec(radius, step, i);
      var sampleLat := ClampLatitude(g.centerLat + northMeters * g.metersToDegrees);
      RowLatitudeAt(g, i, northMeters);
      samples := SampleRow(samples, g, i, sampleLat, slope, sampleOffset);
      OffsetNext(radius, step, i);
      northMeters := northMeters + step;
      i := i + 1;
    }
    AxisCountSpec(radius, step, i);
    GridRowsLength(g, k);

    if |samples| == 0 {
      samples := samples + [slope(centerLat, centerLon, sampleOffset)];
    }
    return Ok(samples);
  }
}
