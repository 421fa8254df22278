/// Coordinate helpers of the landing-site assessment: latitude saturation,
/// longitude reduction into [-180, 180) with the truncating remainder of the
/// source language, and the metres-to-degrees scale of a spherical body.
module CoordinateMath {

  /** Largest latitude magnitude used for sampling; keeps clear of the poles. */
  const MaxLatitude: real := 89.9999

  /** The decimal literal of Math.PI, the value of pi the source uses. */
  const Pi: real := 3.141592653589793

  /** One full turn of longitude, in degrees. */
  const FullTurn: real := 360.0

  /** Smallest magnitude the cosine of the centre latitude is allowed to take. */
  const MinCosine: real := 0.01

  /** x is a whole number. */
  predicate IsWhole(x: real) {
    x.Floor as real == x
  }

  /** ClampLatitude: saturates a latitude to [-MaxLatitude, MaxLatitude]. */
  function ClampLatitude(latitude: real): (r: real)
    ensures -MaxLatitude <= r <= MaxLatitude
    ensures -MaxLatitude <= latitude <= MaxLatitude ==> r == latitude
    ensures MaxLatitude < latitude ==> r == MaxLatitude
    ensures latitude < -MaxLatitude ==> r == -MaxLatitude
  {
    if latitude > MaxLatitude then MaxLatitude
    else if latitude < -MaxLatitude then -MaxLatitude
    else latitude
  }

  /** Saturation never reorders latitudes. */
  lemma ClampLatitudeMonotone(a: real, b: real)
    requires a <= b
    ensures ClampLatitude(a) <= ClampLatitude(b)
  {
  }

  /** Clamping twice is clamping once. */
  lemma ClampLatitudeIdempotent(latitude: real)
    ensures ClampLatitude(ClampLatitude(latitude)) == ClampLatitude(latitude)
  {
  }

  /** Rounds toward zero, as a conversion of a double to an integer does. */
  function Truncate(x: real): (n: int)
    ensures 0.0 <= x ==> n as real <= x < n as real + 1.0
    ensures x < 0.0 ==> n as real - 1.0 < x <= n as real
  {
    if 0.0 <= x then x.Floor else -((-x).Floor)
  }

  /** Adding a whole number keeps a number whole. */
  lemma ShiftWhole(w: real, k: int)
    requires IsWhole(w)
    ensures IsWhole(w + (k as real))
  {
    assert (w + (k as real)).Floor == w.Floor + k;
  }

  /** The remainder `x % 360.0` of the source language: x minus a whole
      number of turns, the quotient rounded toward zero, so that the result
      takes the sign of x. */
  function TurnRemainder(x: real): (r: real)
    ensures -FullTurn < r < FullTurn
    ensures 0.0 <= x ==> 0.0 <= r
    ensures x < 0.0 ==> r <= 0.0
    ensures IsWhole((x - r) / FullTurn)
    ensures -FullTurn < x < FullTurn ==> r == x
  {
    var t := Truncate(x / FullTurn);
    assert (x - (x - FullTurn * (t as real))) / FullTurn == t as real;
    x - FullTurn * (t as real)
  }

  /** NormalizeLongitude: reduces a longitude into [-180, 180) without
      changing the point it names (the shift is a whole number of turns). */
  function NormalizeLongitude(longitude: real): (r: real)
    ensures -180.0 <= r < 180.0
    ensures IsWhole((longitude - r) / 360.0)
    ensures -180.0 <= longitude < 180.0 ==> r == longitude
  {
    var reduced := TurnRemainder(longitude);
    var up: int := if reduced < -180.0 then 1 else 0;
    var lifted := reduced + 360.0 * (up as real);
    var down: int := if lifted >= 180.0 then 1 else 0;
    var result := lifted - 360.0 * (down as real);
    assert (longitude - result) / 360.0 == (longitude - reduced) / 360.0 + (down - up) as real;
    ShiftWhole((longitude - reduced) / 360.0, down - up);
    result
  }

  /** Two longitudes in [-180, 180) that name the same point are equal. */
  lemma SameTurnInRange(a: real, b: real)
    requires -180.0 <= a < 180.0 && -180.0 <= b < 180.0
    requires IsWhole((a - b) / 360.0)
    ensures a == b
  {
    var d := (a - b) / 360.0;
    assert -1.0 < d < 1.0;
  }

  /** The result of NormalizeLongitude is the only value in [-180, 180) that
      differs from the input by whole turns. */
  lemma NormalizeLongitudeUnique(longitude: real, r: real)
    requires -180.0 <= r < 180.0
    requires IsWhole((longitude - r) / 360.0)
    ensures NormalizeLongitude(longitude) == r
  {
    var n := NormalizeLongitude(longitude);
    var p := (longitude - r) / 360.0;
    var q := (longitude - n) / 360.0;
    assert (n - r) / 360.0 == p - q;
    assert (p - q).Floor == p.Floor - q.Floor;
    SameTurnInRange(n, r);
  }

  /** Normalizing a normalized longitude changes nothing. */
  lemma NormalizeLongitudeIdempotent(longitude: real)
    ensures NormalizeLongitude(NormalizeLongitude(longitude)) == NormalizeLongitude(longitude)
  {
  }

  /** A full turn east or west does not change the normalized longitude. */
  lemma NormalizeLongitudePeriodic(longitude: real)
    ensures NormalizeLongitude(longitude + 360.0) == NormalizeLongitude(longitude)
    ensures NormalizeLongitude(longitude - 360.0) == NormalizeLongitude(longitude)
  {
    var n := NormalizeLongitude(longitude);
    var q := (longitude - n) / 360.0;
    assert (longitude + 360.0 - n) / 360.0 == q + 1.0;
    assert (q + 1.0).Floor == q.Floor + 1;
    NormalizeLongitudeUnique(longitude + 360.0, n);
    assert (longitude - 360.0 - n) / 360.0 == q - 1.0;
    assert (q - 1.0).Floor == q.Floor - 1;
    NormalizeLongitudeUnique(longitude - 360.0, n);
  }

  /** Worked values at the antimeridian and for negative inputs. */
  lemma NormalizeLongitudeExamples()
    ensures NormalizeLongitude(180.0) == -180.0
    ensures NormalizeLongitude(-540.0) == -180.0
    ensures NormalizeLongitude(540.0) == -180.0
    ensures NormalizeLongitude(-190.0) == 170.0
  {
    NormalizeLongitudeUnique(180.0, -180.0);
    NormalizeLongitudeUnique(-540.0, -180.0);
    NormalizeLongitudeUnique(540.0, -180.0);
    NormalizeLongitudeUnique(-190.0, 170.0);
  }

  /** Degrees of arc per metre of surface distance on a sphere of the given
      radius; the source rejects a radius that is not positive before this. */
  function MetersToDegrees(bodyRadius: real): (d: real)
    requires 0.0 < bodyRadius
    ensures 0.0 < d
    ensures d * Pi * bodyRadius == 180.0
  {
    180.0 / (Pi * bodyRadius)
  }

  /** The cosine of the centre latitude, pushed away from zero to magnitude
      MinCosine while keeping its sign, so that east offsets stay bounded near
      the poles. */
  function FloorCosine(cosLat: real): (c: real)
    ensures MinCosine <= c || c <= -MinCosine
    ensures (0.0 <= c) == (0.0 <= cosLat)
    ensures (MinCosine <= cosLat || cosLat <= -MinCosine) ==> c == cosLat
    ensures -MinCosine < cosLat < MinCosine ==> c == (if 0.0 <= cosLat then MinCosine else -MinCosine)
  {
    if -MinCosine < cosLat < MinCosine then
      (if cosLat >= 0.0 then MinCosine else -MinCosine)
    else cosLat
  }
}
