/**
 * The closed-form speed profile of a route flight, over reals: where the
 * camera is along the route at each instant of normalized time, and how fast.
 */
module RouteProfile {
  import opened Numbers

  const RAMP_S: real := 2.4
  const RAMP_MAX_FRACTION: real := 0.35

  function RampFraction(durationS: real): real {
    if durationS <= 0.0 then 0.0
    else if RAMP_S / durationS < RAMP_MAX_FRACTION then RAMP_S / durationS
    else RAMP_MAX_FRACTION
  }

  function Smoothstep(p: real): real {
    p * p * (3.0 - 2.0 * p)
  }

  /** Antiderivative of the smoothstep. */
  function RampArea(p: real): real {
    p * p * p - p * p * p * p / 2.0
  }

  /** Area under the speed curve up to `t`; the whole curve encloses `1 - r`. */
  function Area(t: real, r: real): real
    requires r > 0.0
  {
    if t <= r then r * RampArea(t / r)
    else if t >= 1.0 - r then (1.0 - r) - r * RampArea((1.0 - t) / r)
    else r / 2.0 + (t - r)
  }

  function Distance(u: real, r: real): real
    requires r < 1.0
  {
    var t := Clamp01(u);
    if r <= 0.0 then t else Area(t, r) / (1.0 - r)
  }

  function Speed(u: real, r: real): real {
    var t := Clamp01(u);
    if r <= 0.0 then 1.0
    else if t <= r then Smoothstep(t / r)
    else if t >= 1.0 - r then Smoothstep((1.0 - t) / r)
    else 1.0
  }

  // ------------------------------------------------ the polynomials on [0,1]

  /** Mean of the smoothstep over `[p, q]`. */
  function Mean(p: real, q: real): real {
    (q * q + q * p + p * p) - (q * q * q + q * q * p + q * p * p + p * p * p) / 2.0
  }

  lemma RampAreaGrowth(p: real, q: real)
    ensures RampArea(q) - RampArea(p) == (q - p) * Mean(p, q)
  {
    var pp, qq := p * p, q * q;
    assert (q - p) * (qq + q * p + pp) == qq * q - pp * p;
    assert (q - p) * (qq * q + qq * p + q * pp + pp * p) == qq * qq - pp * pp;
  }

  lemma ProductBelow(x: real, y: real)
    requires Unit(x) && y >= 0.0
    ensures 0.0 <= x * y <= y
  {
    assert (1.0 - x) * y >= 0.0;
  }

  lemma SmoothstepNonnegative(p: real)
    requires Unit(p)
    ensures Smoothstep(p) >= 0.0
  {
    ProductBelow(p, p);
    assert (p * p) * (3.0 - 2.0 * p) >= 0.0;
  }

  lemma MeanMinusStart(p: real, q: real, slack: real)
    requires slack == q * (1.0 - q) / 2.0 + p * (1.0 - q) + 3.0 * (p * (1.0 - p)) / 2.0 + (q - p) / 2.0
    ensures Mean(p, q) - Smoothstep(p) == (q - p) * slack
  {
  }

  lemma MeanAboveStart(p: real, q: real)
    requires 0.0 <= p <= q <= 1.0
    ensures Smoothstep(p) <= Mean(p, q)
  {
    var a, b, c := q * (1.0 - q), p * (1.0 - q), p * (1.0 - p);
    NonnegativeProduct(q, 1.0 - q);
    NonnegativeProduct(p, 1.0 - q);
    NonnegativeProduct(p, 1.0 - p);
    var slack := a / 2.0 + b + 3.0 * c / 2.0 + (q - p) / 2.0;
    NonnegativeProduct(q - p, slack);
    MeanMinusStart(p, q, slack);
  }

  lemma Symmetry(p: real, q: real)
    ensures Mean(1.0 - q, 1.0 - p) == 1.0 - Mean(p, q)
    ensures Smoothstep(1.0 - p) == 1.0 - Smoothstep(p)
  {
  }

  /** The mean lies between the end values, so the smoothstep is nondecreasing on [0,1]. */
  lemma MeanBetweenEnds(p: real, q: real)
    requires 0.0 <= p <= q <= 1.0
    ensures 0.0 <= Smoothstep(p) <= Mean(p, q) <= Smoothstep(q) <= 1.0
  {
    SmoothstepNonnegative(p);
    SmoothstepNonnegative(1.0 - q);
    MeanAboveStart(p, q);
    MeanAboveStart(1.0 - q, 1.0 - p);
    Symmetry(p, q);
    Symmetry(q, q);
  }

  // --------------------------------------------------------- the area curve

  predicate Ramp(r: real) {
    0.0 < r <= 0.5
  }

  predicate Times(u: real, v: real) {
    0.0 <= u <= v <= 1.0
  }

  lemma Quotients(u: real, v: real, r: real)
    requires 0.0 <= u <= v <= r && r > 0.0
    ensures 0.0 <= u / r <= v / r <= 1.0
    ensures r * (v / r - u / r) == v - u
  {
    assert (u / r) * r == u && (v / r) * r == v;
    assert (v / r - u / r) * r == v - u;
  }

  lemma AreaIsSymmetric(t: real, r: real)
    requires Ramp(r) && Unit(t)
    ensures Area(t, r) + Area(1.0 - t, r) == 1.0 - r
  {
    hide RampArea;
    RampEnd(r);
    assert 1.0 - (1.0 - t) == t;
  }

  lemma SpeedIsSymmetric(t: real, r: real)
    requires Ramp(r) && Unit(t)
    ensures Speed(t, r) == Speed(1.0 - t, r)
  {
    hide Smoothstep;
    RampEnd(r);
    assert 1.0 - (1.0 - t) == t;
  }

  lemma RampEnd(r: real)
    requires r > 0.0
    ensures r / r == 1.0 && RampArea(1.0) == 0.5 && Smoothstep(1.0) == 1.0
  {
  }

  /** `gain` over `span` of time, made at rates between `low` and `high`. */
  predicate Squeezed(gain: real, span: real, low: real, high: real) {
    low * span <= gain <= high * span
  }

  function Gain(u: real, v: real, r: real): real
    requires r > 0.0
  {
    Area(v, r) - Area(u, r)
  }

  lemma ScaleBetween(low: real, mean: real, high: real, span: real)
    requires low <= mean <= high && span >= 0.0
    ensures low * span <= mean * span <= high * span
  {
    assert (mean - low) * span >= 0.0 && (high - mean) * span >= 0.0;
  }

  lemma RisingArea(u: real, v: real, r: real)
    requires Ramp(r) && 0.0 <= u <= v <= r
    ensures Gain(u, v, r) == Mean(u / r, v / r) * (v - u)
  {
    hide RampArea, Mean;
    var p, q := u / r, v / r;
    Quotients(u, v, r);
    RampAreaGrowth(p, q);
    Scaled(r, RampArea(p), RampArea(q), q - p, Mean(p, q), v - u);
  }

  lemma Scaled(r: real, a: real, b: real, d: real, mean: real, span: real)
    requires b - a == d * mean && r * d == span
    ensures r * b - r * a == mean * span
  {
    assert r * (b - a) == r * (d * mean) == (r * d) * mean;
  }

  lemma RisingRamp(u: real, v: real, r: real)
    requires Ramp(r) && 0.0 <= u <= v <= r
    ensures Squeezed(Gain(u, v, r), v - u, Speed(u, r), Speed(v, r))
  {
    hide Mean, Gain, Smoothstep, Squeezed;
    RisingArea(u, v, r);
    Quotients(u, v, r);
    MeanBetweenEnds(u / r, v / r);
    MeanSqueezes(Gain(u, v, r), v - u, Smoothstep(u / r), Mean(u / r, v / r), Smoothstep(v / r));
  }

  lemma MeanSqueezes(gain: real, span: real, low: real, mean: real, high: real)
    requires low <= mean <= high && span >= 0.0 && gain == mean * span
    ensures Squeezed(gain, span, low, high)
  {
    ScaleBetween(low, mean, high, span);
  }

  lemma FallingRamp(u: real, v: real, r: real)
    requires Ramp(r) && 1.0 - r <= u <= v <= 1.0
    ensures Squeezed(Gain(u, v, r), v - u, Speed(v, r), Speed(u, r))
  {
    hide Area, Speed;
    RisingRamp(1.0 - v, 1.0 - u, r);
    AreaIsSymmetric(u, r);
    AreaIsSymmetric(v, r);
    SpeedIsSymmetric(u, r);
    SpeedIsSymmetric(v, r);
    assert (1.0 - u) - (1.0 - v) == v - u;
  }

  lemma Plateau(u: real, v: real, r: real)
    requires Ramp(r) && r <= u <= v <= 1.0 - r
    ensures Squeezed(Gain(u, v, r), v - u, 1.0, 1.0)
  {
    assert RampArea(1.0) == 0.5;
    assert r / r == 1.0;
  }

  ghost predicate SpeedWithin(u: real, v: real, r: real, low: real, high: real) {
    forall t :: u <= t <= v ==> low <= Speed(t, r) <= high
  }

  lemma Loosen(gain: real, span: real, tight: (real, real), low: real, high: real)
    requires span >= 0.0
    requires Squeezed(gain, span, tight.0, tight.1)
    requires low <= tight.0 && tight.1 <= high
    ensures Squeezed(gain, span, low, high)
  {
    ScaleBetween(low, tight.0, tight.0, span);
    ScaleBetween(tight.1, tight.1, high, span);
  }

  lemma JoinPieces(u: real, m: real, v: real, r: real, low: real, high: real)
    requires r > 0.0
    requires Squeezed(Gain(u, m, r), m - u, low, high) && Squeezed(Gain(m, v, r), v - m, low, high)
    ensures Squeezed(Gain(u, v, r), v - u, low, high)
  {
    assert low * (v - u) == low * (m - u) + low * (v - m);
    assert high * (v - u) == high * (m - u) + high * (v - m);
  }

  lemma OnePiece(u: real, v: real, r: real, low: real, high: real)
    requires Ramp(r) && Times(u, v)
    requires v <= r || (r <= u && v <= 1.0 - r) || 1.0 - r <= u
    requires SpeedWithin(u, v, r, low, high)
    ensures Squeezed(Gain(u, v, r), v - u, low, high)
  {
    assert low <= Speed(u, r) <= high && low <= Speed(v, r) <= high;
    if v <= r {
      RisingRamp(u, v, r);
      Loosen(Gain(u, v, r), v - u, (Speed(u, r), Speed(v, r)), low, high);
    } else if 1.0 - r <= u {
      FallingRamp(u, v, r);
      Loosen(Gain(u, v, r), v - u, (Speed(v, r), Speed(u, r)), low, high);
    } else {
      Plateau(u, v, r);
      PlateauSpeed(u, r);
      Loosen(Gain(u, v, r), v - u, (1.0, 1.0), low, high);
    }
  }

  lemma PlateauSpeed(t: real, r: real)
    requires Ramp(r) && r <= t <= 1.0 - r
    ensures Speed(t, r) == 1.0
  {
    assert r / r == 1.0;
  }

  lemma UpToPlateauEnd(u: real, v: real, r: real, low: real, high: real)
    requires Ramp(r) && 0.0 <= u <= v <= 1.0 - r
    requires SpeedWithin(u, v, r, low, high)
    ensures Squeezed(Gain(u, v, r), v - u, low, high)
  {
    if u < r < v {
      OnePiece(u, r, r, low, high);
      OnePiece(r, v, r, low, high);
      JoinPieces(u, r, v, r, low, high);
    } else {
      OnePiece(u, v, r, low, high);
    }
  }

  // ------------------------------------------------------------ main results

  /**
   * The closed form is the integral of the speed curve: whatever bounds the
   * speed keeps to between two instants, the distance covered keeps to as well.
   */
  lemma DistanceIntegratesSpeed(u: real, v: real, r: real, low: real, high: real)
    requires Ramp(r) && Times(u, v)
    requires SpeedWithin(u, v, r, low, high)
    ensures low * (v - u) <= (Distance(v, r) - Distance(u, r)) * (1.0 - r) <= high * (v - u)
  {
    hide Area, Speed, Distance;
    var e := 1.0 - r;
    if u < e < v {
      UpToPlateauEnd(u, e, r, low, high);
      OnePiece(e, v, r, low, high);
      JoinPieces(u, e, v, r, low, high);
    } else if v <= e {
      UpToPlateauEnd(u, v, r, low, high);
    } else {
      OnePiece(u, v, r, low, high);
    }
    DistanceTimesArea(u, r);
    DistanceTimesArea(v, r);
  }

  lemma DistanceTimesArea(t: real, r: real)
    requires Ramp(r) && Unit(t)
    ensures Distance(t, r) * (1.0 - r) == Area(t, r)
  {
    hide Area;
    DivideBack(Area(t, r), 1.0 - r);
  }

  /** The speed is a fraction of cruise speed, and zero at both ends. */
  lemma SpeedIsUnit(u: real, r: real)
    requires r <= 0.5
    ensures Unit(Speed(u, r))
    ensures r > 0.0 ==> Speed(0.0, r) == 0.0 == Speed(1.0, r)
  {
    var t := Clamp01(u);
    if 0.0 < r {
      assert 0.0 / r == 0.0;
      if t <= r {
        Quotients(t, t, r);
        MeanBetweenEnds(t / r, t / r);
      } else if t >= 1.0 - r {
        Quotients(1.0 - t, 1.0 - t, r);
        MeanBetweenEnds((1.0 - t) / r, (1.0 - t) / r);
      }
    }
  }

  /** The profile runs from 0 to 1 and is its own mirror image. */
  lemma ProfileEnds(r: real)
    requires r <= 0.5
    ensures Distance(0.0, r) == 0.0 && Distance(1.0, r) == 1.0
  {
    if r > 0.0 {
      NothingTravelled(r);
      AreaIsSymmetric(0.0, r);
      hide Area;
      assert Area(1.0, r) == 1.0 - r;
      assert (1.0 - r) / (1.0 - r) == 1.0;
    }
  }

  lemma NothingTravelled(r: real)
    requires Ramp(r)
    ensures Area(0.0, r) == 0.0
  {
    assert 0.0 / r == 0.0;
  }

  lemma RampedProfileIsSymmetric(t: real, r: real)
    requires Ramp(r) && Unit(t)
    ensures Distance(t, r) + Distance(1.0 - t, r) == 1.0
  {
    hide Distance, Area, Speed;
    AreaIsSymmetric(t, r);
    DistanceTimesArea(t, r);
    DistanceTimesArea(1.0 - t, r);
    SumIsOne(Distance(t, r), Distance(1.0 - t, r), 1.0 - r, Area(t, r), Area(1.0 - t, r));
  }

  lemma SumIsOne(x: real, y: real, a: real, xa: real, ya: real)
    requires a > 0.0 && x * a == xa && y * a == ya && xa + ya == a
    ensures x + y == 1.0
  {
    assert (x + y - 1.0) * a == 0.0;
  }

  lemma ProfileIsSymmetric(t: real, r: real)
    requires r <= 0.5 && Unit(t)
    ensures Distance(t, r) + Distance(1.0 - t, r) == 1.0
  {
    if r > 0.0 {
      RampedProfileIsSymmetric(t, r);
    }
  }

  /** The three pieces agree where they meet, in distance and in speed. */
  lemma JoinsAgree(r: real)
    requires Ramp(r)
    ensures r * RampArea(r / r) == r / 2.0 + (r - r)
    ensures (1.0 - r) - r * RampArea((1.0 - (1.0 - r)) / r) == r / 2.0 + ((1.0 - r) - r)
    ensures Smoothstep(r / r) == 1.0 == Smoothstep((1.0 - (1.0 - r)) / r)
  {
    assert r / r == 1.0;
    assert RampArea(1.0) == 0.5;
  }

  /** Time never runs the flight backwards nor faster than cruise speed. */
  lemma ProfileIsLipschitz(u: real, v: real, r: real)
    requires Ramp(r) && Times(u, v)
    ensures 0.0 <= Distance(v, r) - Distance(u, r)
    ensures (Distance(v, r) - Distance(u, r)) * (1.0 - r) <= v - u
  {
    hide Distance, Area, Speed;
    forall t | u <= t <= v
      ensures 0.0 <= Speed(t, r) <= 1.0
    {
      SpeedIsUnit(t, r);
    }
    DistanceIntegratesSpeed(u, v, r, 0.0, 1.0);
    SignOf(Distance(v, r) - Distance(u, r), 1.0 - r);
  }

  lemma ProfileIsUnit(u: real, r: real)
    requires r <= 0.5
    ensures Unit(Distance(u, r))
  {
    var t := Clamp01(u);
    if r > 0.0 {
      hide Area;
      ProfileIsLipschitz(0.0, t, r);
      ProfileIsLipschitz(t, 1.0, r);
      ProfileEnds(r);
    }
  }

  /** Every duration the flight can have yields a ramp the profile is sound for. */
  lemma RampFractionIsRamp(durationS: real)
    ensures 0.0 <= RampFraction(durationS) <= RAMP_MAX_FRACTION
    ensures RampFraction(durationS) > 0.0 <==> durationS > 0.0
    ensures durationS > 0.0 ==> RampFraction(durationS) * durationS <= RAMP_S
  {
    if durationS > 0.0 {
      var x := RAMP_S / durationS;
      assert x * durationS == RAMP_S;
      assert x > 0.0;
      if x >= RAMP_MAX_FRACTION {
        assert RAMP_MAX_FRACTION * durationS <= x * durationS;
      }
    }
  }
}
