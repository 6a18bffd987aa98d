/**
 * The decision rules of the rainbow agent (backend/agents/rainbow/agent.py):
 * the probability score and the fixed-offset viewing points.
 */
module RainbowAgent {
  import opened Wrappers
  import opened RainbowModels

  /** Coefficients written into the probability formula. */
  const PeakProbability: real := 0.8
  const SaturationRate: real := 1.0
  const OptimalElevation: real := 20.0
  const ElevationHalfWidth: real := 30.0

  function Abs(x: real): (r: real)
    ensures r >= 0.0 && (r == x || r == -x)
  {
    if x < 0.0 then -x else x
  }

  function Min(a: real, b: real): (r: real)
    ensures r <= a && r <= b && (r == a || r == b)
  {
    if a <= b then a else b
  }

  function Max(a: real, b: real): (r: real)
    ensures r >= a && r >= b && (r == a || r == b)
  {
    if a >= b then a else b
  }

  /** Rain factor: grows with the rate and saturates at 1.0 mm/h. */
  function PrecipitationFactor(precipitation: real): real {
    Min(precipitation / SaturationRate, 1.0)
  }

  /** Clear-sky factor: the fraction of the sky free of cloud. */
  function ClearSkyFactor(cloudCover: real): real {
    1.0 - cloudCover / 100.0
  }

  /** Elevation factor: 1 at 20 degrees, falling linearly to 0 at 30 degrees away; not clamped. */
  function ElevationFactor(elevation: real): real {
    1.0 - Abs(elevation - OptimalElevation) / ElevationHalfWidth
  }

  /** The product before clamping; no factor is clamped on its own. */
  function RawScore(precipitation: real, cloudCover: real, elevation: real): real {
    PeakProbability * PrecipitationFactor(precipitation) * ClearSkyFactor(cloudCover) * ElevationFactor(elevation)
  }

  /** `min(max(0.0, x), 1.0)` */
  function Clamp01(x: real): (r: real)
    ensures 0.0 <= r <= 1.0
    ensures 0.0 <= x <= 1.0 ==> r == x
    ensures x < 0.0 ==> r == 0.0
    ensures x > 1.0 ==> r == 1.0
  {
    Min(Max(0.0, x), 1.0)
  }

  /** The probability for explicit precipitation, cloud cover and sun elevation. */
  function Score(precipitation: real, cloudCover: real, elevation: real): (probability: real)
    ensures 0.0 <= probability <= 1.0
  {
    Clamp01(RawScore(precipitation, cloudCover, elevation))
  }

  /**
   * calculate_rainbow_probability: absent precipitation, cloud cover and elevation all read as 0.
   */
  function CalculateRainbowProbability(weatherCondition: WeatherCondition, sunPosition: SunPosition): (probability: real)
    ensures 0.0 <= probability <= 1.0
    ensures weatherCondition.precipitation.None? ==> probability == 0.0
  {
    Score(weatherCondition.precipitation.GetOr(0.0),
          weatherCondition.cloudCover.GetOr(0.0),
          sunPosition.elevation.GetOr(0.0))
  }

  /** Inputs inside the range the formula was written for. */
  predicate InRange(precipitation: real, cloudCover: real) {
    precipitation >= 0.0 && 0.0 <= cloudCover <= 100.0
  }

  // ---------------------------------------------------------------------------
  // Facts about the factors

  lemma FactorBounds(precipitation: real, cloudCover: real, elevation: real)
    requires InRange(precipitation, cloudCover)
    ensures 0.0 <= PrecipitationFactor(precipitation) <= 1.0
    ensures 0.0 <= ClearSkyFactor(cloudCover) <= 1.0
    ensures ElevationFactor(elevation) <= 1.0
  {
  }

  /** With two non-negative factors, the sign of a product `m` of three is that of the third. */
  lemma ProductSign(a: real, b: real, e: real, m: real)
    requires a >= 0.0 && b >= 0.0 && m == a * b * e
    ensures e <= 0.0 ==> m <= 0.0
    ensures a == 0.0 || b == 0.0 ==> m == 0.0
    ensures a > 0.0 && b > 0.0 && e > 0.0 ==> m > 0.0
  {
    var k := a * b;
    assert k >= 0.0;
    assert m == k * e;
    if a > 0.0 && b > 0.0 {
      assert k > 0.0;
    }
  }

  /** A product `m` of three factors in [0, 1] is in [0, 1], and at most each factor. */
  lemma UnitProduct(a: real, b: real, e: real, m: real)
    requires 0.0 <= a <= 1.0 && 0.0 <= b <= 1.0 && 0.0 <= e <= 1.0
    requires m == a * b * e
    ensures 0.0 <= m && m <= a && m <= b && m <= e
  {
    assert 0.0 <= b * e <= b && b * e <= e;
    assert a * (b * e) <= 1.0 * (b * e);
    assert a * (b * e) <= a * 1.0;
    assert m == a * (b * e);
  }

  /** Three factors in [0, 1] multiply to 1 only when each is 1. */
  lemma UnitProductIsOne(a: real, b: real, e: real, m: real)
    requires 0.0 <= a <= 1.0 && 0.0 <= b <= 1.0 && 0.0 <= e <= 1.0
    requires m == a * b * e && m == 1.0
    ensures a == 1.0 && b == 1.0 && e == 1.0
  {
    UnitProduct(a, b, e, m);
  }

  // The order facts below name every product (`r == u * v`) so that the solver
  // compares names rather than re-deriving products of products.

  /** A product of non-negative factors is non-negative. */
  lemma MulNonNegative(u: real, v: real, r: real)
    requires u >= 0.0 && v >= 0.0 && r == u * v
    ensures r >= 0.0
  {
  }

  /** A product of positive factors is positive. */
  lemma MulPositive(u: real, v: real, r: real)
    requires u > 0.0 && v > 0.0 && r == u * v
    ensures r > 0.0
  {
  }

  /** Scaling by a factor of at most 1 does not grow a non-negative value. */
  lemma MulAtMost(u: real, v: real, r: real)
    requires u >= 0.0 && v <= 1.0 && r == u * v
    ensures r <= u
  {
    assert u - r == u * (1.0 - v);
  }

  /** Scaling by a non-negative factor preserves order. */
  lemma MulMonotone(u: real, v1: real, v2: real, r1: real, r2: real)
    requires u >= 0.0 && v1 <= v2 && r1 == u * v1 && r2 == u * v2
    ensures r1 <= r2
  {
    assert r2 - r1 == u * (v2 - v1);
  }

  /** Scaling by a positive factor preserves strict order. */
  lemma MulStrict(u: real, v1: real, v2: real, r1: real, r2: real)
    requires u > 0.0 && v1 < v2 && r1 == u * v1 && r2 == u * v2
    ensures r1 < r2
  {
    assert r2 - r1 == u * (v2 - v1);
  }

  /**
   * The scaled products `r1` and `r2` of two non-negative factors with a first
   * factor `x1 <= x2` are ordered, unless `r1` is not positive.
   */
  lemma ScaledProductOrder(x1: real, x2: real, y: real, z: real, r1: real, r2: real)
    requires 0.0 <= x1 <= x2 && y >= 0.0
    requires r1 == PeakProbability * x1 * y * z && r2 == PeakProbability * x2 * y * z
    ensures r1 <= r2 || r1 <= 0.0
  {
    var k1, k2 := PeakProbability * x1, PeakProbability * x2;
    MulMonotone(PeakProbability, x1, x2, k1, k2);
    MulNonNegative(PeakProbability, x1, k1);
    var j1, j2 := k1 * y, k2 * y;
    MulMonotone(y, k1, k2, j1, j2);
    MulNonNegative(k1, y, j1);
    if z >= 0.0 {
      MulMonotone(z, j1, j2, r1, r2);
    } else {
      MulMonotone(j1, z, 0.0, r1, 0.0);
    }
  }

  /**
   * The scaled products `r1` and `r2` of three positive factors in [0, 1], whose
   * second factors are `y1 < y2`, are strictly ordered and at most the peak.
   */
  lemma ScaledProductStrict(x: real, y1: real, y2: real, z: real, r1: real, r2: real)
    requires 0.0 < x <= 1.0 && 0.0 <= y1 < y2 <= 1.0 && 0.0 < z <= 1.0
    requires r1 == PeakProbability * x * y1 * z && r2 == PeakProbability * x * y2 * z
    ensures r1 < r2 && 0.0 < r2 <= PeakProbability
  {
    var k := PeakProbability * x;
    MulPositive(PeakProbability, x, k);
    MulAtMost(PeakProbability, x, k);
    var k1, k2 := k * y1, k * y2;
    MulStrict(k, y1, y2, k1, k2);
    MulPositive(k, y2, k2);
    MulAtMost(k, y2, k2);
    MulStrict(z, k1, k2, r1, r2);
    MulPositive(k2, z, r2);
    MulAtMost(k2, z, r2);
  }

  /** Clamping preserves order, and sends every value at or below 0 to 0. */
  lemma ClampMonotone(x: real, y: real)
    requires x <= y || x <= 0.0
    ensures Clamp01(x) <= Clamp01(y)
  {
  }

  /** Clamping keeps the strict order of a value in the open unit interval above another. */
  lemma ClampStrict(x: real, y: real)
    requires x < y && 0.0 < y < 1.0
    ensures Clamp01(x) < Clamp01(y)
  {
  }

  // ---------------------------------------------------------------------------
  // Properties of the score

  /** No rain, whatever the sky and the sun, gives probability 0. */
  lemma NoRainNoRainbow(cloudCover: real, elevation: real)
    ensures Score(0.0, cloudCover, elevation) == 0.0
  {
    assert PrecipitationFactor(0.0) == 0.0;
  }

  /** Rain beyond 1.0 mm/h scores the same as exactly 1.0 mm/h. */
  lemma Saturation(precipitation: real, cloudCover: real, elevation: real)
    requires precipitation >= SaturationRate
    ensures Score(precipitation, cloudCover, elevation) == Score(SaturationRate, cloudCover, elevation)
  {
    assert PrecipitationFactor(precipitation) == 1.0 == PrecipitationFactor(SaturationRate);
  }

  /** The elevation factor is symmetric about 20 degrees. */
  lemma ElevationSymmetry(precipitation: real, cloudCover: real, d: real)
    ensures Score(precipitation, cloudCover, OptimalElevation + d) == Score(precipitation, cloudCover, OptimalElevation - d)
  {
    assert Abs(OptimalElevation + d - OptimalElevation) == Abs(OptimalElevation - d - OptimalElevation);
  }

  /**
   * In range, the score is positive exactly when it rains, the sky is not fully
   * overcast and the sun stands strictly between -10 and 50 degrees.
   */
  lemma PositiveIff(precipitation: real, cloudCover: real, elevation: real)
    requires InRange(precipitation, cloudCover)
    ensures Score(precipitation, cloudCover, elevation) > 0.0
        <==> precipitation > 0.0 && cloudCover < 100.0 && -10.0 < elevation < 50.0
  {
    var a, b, e := PrecipitationFactor(precipitation), ClearSkyFactor(cloudCover), ElevationFactor(elevation);
    FactorBounds(precipitation, cloudCover, elevation);
    var m := a * b * e;
    ProductSign(a, b, e, m);
    assert a > 0.0 <==> precipitation > 0.0;
    assert b > 0.0 <==> cloudCover < 100.0;
    assert e > 0.0 <==> -10.0 < elevation < 50.0;
    assert RawScore(precipitation, cloudCover, elevation) == PeakProbability * m;
  }

  /** The zero cases: a sun at or beyond 30 degrees from the optimum, or a fully overcast sky. */
  lemma ZeroOutsideElevationBand(precipitation: real, cloudCover: real, elevation: real)
    requires InRange(precipitation, cloudCover)
    requires elevation >= 50.0 || elevation <= -10.0 || cloudCover == 100.0
    ensures Score(precipitation, cloudCover, elevation) == 0.0
  {
    PositiveIff(precipitation, cloudCover, elevation);
  }

  /** In range, the score never exceeds 0.8. */
  lemma AtMostPeak(precipitation: real, cloudCover: real, elevation: real)
    requires InRange(precipitation, cloudCover)
    ensures Score(precipitation, cloudCover, elevation) <= PeakProbability
  {
    var a, b, e := PrecipitationFactor(precipitation), ClearSkyFactor(cloudCover), ElevationFactor(elevation);
    FactorBounds(precipitation, cloudCover, elevation);
    var m := a * b * e;
    if e > 0.0 {
      UnitProduct(a, b, e, m);
    } else {
      ProductSign(a, b, e, m);
    }
    assert RawScore(precipitation, cloudCover, elevation) == PeakProbability * m;
  }

  /** In range, the score reaches 0.8 exactly at saturating rain, a clear sky and a 20 degree sun. */
  lemma PeakIff(precipitation: real, cloudCover: real, elevation: real)
    requires InRange(precipitation, cloudCover)
    ensures Score(precipitation, cloudCover, elevation) == PeakProbability
        <==> precipitation >= SaturationRate && cloudCover == 0.0 && elevation == OptimalElevation
  {
    var a, b, e := PrecipitationFactor(precipitation), ClearSkyFactor(cloudCover), ElevationFactor(elevation);
    FactorBounds(precipitation, cloudCover, elevation);
    var m := a * b * e;
    assert RawScore(precipitation, cloudCover, elevation) == PeakProbability * m;
    if Score(precipitation, cloudCover, elevation) == PeakProbability {
      assert m == 1.0;
      ProductSign(a, b, e, m);
      UnitProductIsOne(a, b, e, m);
      assert Abs(elevation - OptimalElevation) == 0.0;
    }
    if precipitation >= SaturationRate && cloudCover == 0.0 && elevation == OptimalElevation {
      assert a == 1.0 && b == 1.0 && e == 1.0;
    }
  }

  /** In range, more rain never lowers the score. */
  lemma MonotoneInPrecipitation(p1: real, p2: real, cloudCover: real, elevation: real)
    requires InRange(p1, cloudCover) && p1 <= p2
    ensures Score(p1, cloudCover, elevation) <= Score(p2, cloudCover, elevation)
  {
    FactorBounds(p1, cloudCover, elevation);
    var a1, a2 := PrecipitationFactor(p1), PrecipitationFactor(p2);
    assert a1 <= a2 by {
      assert p1 / SaturationRate == p1 && p2 / SaturationRate == p2;
    }
    var r1, r2 := RawScore(p1, cloudCover, elevation), RawScore(p2, cloudCover, elevation);
    ScaledProductOrder(a1, a2, ClearSkyFactor(cloudCover), ElevationFactor(elevation), r1, r2);
    ClampMonotone(r1, r2);
  }

  /** In range, more cloud never raises the score. */
  lemma AntitoneInCloudCover(precipitation: real, c1: real, c2: real, elevation: real)
    requires InRange(precipitation, c1) && InRange(precipitation, c2) && c1 <= c2
    ensures Score(precipitation, c2, elevation) <= Score(precipitation, c1, elevation)
  {
    FactorBounds(precipitation, c1, elevation);
    FactorBounds(precipitation, c2, elevation);
    var b1, b2 := ClearSkyFactor(c1), ClearSkyFactor(c2);
    var r1, r2 := RawScore(precipitation, c1, elevation), RawScore(precipitation, c2, elevation);
    // The clear-sky factor is the middle one; reorder so that it comes first.
    var a, e := PrecipitationFactor(precipitation), ElevationFactor(elevation);
    assert r1 == PeakProbability * b1 * a * e && r2 == PeakProbability * b2 * a * e;
    ScaledProductOrder(b2, b1, a, e, r2, r1);
    ClampMonotone(r2, r1);
  }

  /**
   * Less cloud is strictly better while the other two factors are positive: in
   * range, with rain and a sun strictly between -10 and 50 degrees.
   */
  lemma CloudStrictlyWorse(precipitation: real, c1: real, c2: real, elevation: real)
    requires InRange(precipitation, c1) && InRange(precipitation, c2) && c1 < c2
    requires precipitation > 0.0 && -10.0 < elevation < 50.0
    ensures Score(precipitation, c2, elevation) < Score(precipitation, c1, elevation)
  {
    FactorBounds(precipitation, c1, elevation);
    FactorBounds(precipitation, c2, elevation);
    var a, e := PrecipitationFactor(precipitation), ElevationFactor(elevation);
    assert a > 0.0 && e > 0.0;
    var r1, r2 := RawScore(precipitation, c1, elevation), RawScore(precipitation, c2, elevation);
    ScaledProductStrict(a, ClearSkyFactor(c2), ClearSkyFactor(c1), e, r2, r1);
    ClampStrict(r2, r1);
  }

  /** Moderate rain, a 20% cloud cover and a 20 degree sun score 0.32. */
  lemma WorkedExample()
    ensures Score(0.5, 20.0, 20.0) == 0.32
  {
    assert RawScore(0.5, 20.0, 20.0) == 0.8 * 0.5 * 0.8 * 1.0;
  }

  /**
   * Only the product is clamped: rain of -1 mm/h under 200% cloud gives two factors
   * of -1, and at a 20 degree sun their product scores the peak.
   */
  lemma OutOfRangeInputsCanScore()
    ensures Score(-1.0, 200.0, OptimalElevation) == PeakProbability
  {
    assert PrecipitationFactor(-1.0) == -1.0;
    assert ClearSkyFactor(200.0) == -1.0;
    assert ElevationFactor(OptimalElevation) == 1.0;
    assert RawScore(-1.0, 200.0, OptimalElevation) == 0.8 * -1.0 * -1.0 * 1.0;
  }

  /** A missing cloud cover reads as a clear sky and a missing elevation as the horizon. */
  lemma MissingFieldsReadAsZero(weatherCondition: WeatherCondition, sunPosition: SunPosition)
    requires weatherCondition.cloudCover.None? && sunPosition.elevation.None?
    ensures CalculateRainbowProbability(weatherCondition, sunPosition)
         == CalculateRainbowProbability(weatherCondition.(cloudCover := Some(0.0)), sunPosition.(elevation := Some(0.0)))
  {
  }

  // ---------------------------------------------------------------------------
  // Viewing locations

  /**
   * determine_viewing_locations: two points at fixed offsets from the centre, the
   * first north-east of it and the second south-east; absent coordinates read as 0.
   */
  function DetermineViewingLocations(centerLocation: Location, sunPosition: SunPosition, radiusKm: real): (viewingLocations: seq<Location>)
    ensures |viewingLocations| == 2
    ensures forall k :: 0 <= k < 2 ==>
      viewingLocations[k].latitude.Some? && viewingLocations[k].longitude.Some? && viewingLocations[k].altitude.None?
    ensures viewingLocations[0].latitude.value - centerLocation.latitude.GetOr(0.0) == 0.01
    ensures viewingLocations[0].longitude.value - centerLocation.longitude.GetOr(0.0) == 0.01
    ensures centerLocation.latitude.GetOr(0.0) - viewingLocations[1].latitude.value == 0.01
    ensures viewingLocations[1].longitude.value - centerLocation.longitude.GetOr(0.0) == 0.02
    ensures viewingLocations[0] != viewingLocations[1]
  {
    var latitude := centerLocation.latitude.GetOr(0.0);
    var longitude := centerLocation.longitude.GetOr(0.0);
    [ Location(Some(latitude + 0.01), Some(longitude + 0.01), None, Some("Optimal Viewing Point 1")),
      Location(Some(latitude - 0.01), Some(longitude + 0.02), None, Some("Optimal Viewing Point 2")) ]
  }

  /** The viewing points depend on the centre alone, not on the sun or the radius. */
  lemma ViewingLocationsIgnoreSunAndRadius(centerLocation: Location, s1: SunPosition, s2: SunPosition, r1: real, r2: real)
    ensures DetermineViewingLocations(centerLocation, s1, r1) == DetermineViewingLocations(centerLocation, s2, r2)
  {
  }
}
