/**
 * The contact intensity of the cyber sonar: the simple per-contact functions,
 * and the sampler that does the settings, clock and viewport work once per paint.
 */
module SonarSampler {
  import opened Numbers
  import opened Options

  const PERIOD_MS: real := 5200.0
  const FEATHER_DEG: real := 10.0

  /** The settings in play, as they are read: rounded and clamped. */
  datatype Settings = Settings(range: int, opacity: int, sector: int)

  predicate InRange(s: Settings) {
    60 <= s.range <= 120 && 35 <= s.opacity <= 100 && 8 <= s.sector <= 60
  }

  datatype Color = Color(red: real, green: real, blue: real, alpha: real)

  const WHITE: Color := Color(1.0, 1.0, 1.0, 1.0)

  // ------------------------------------------------------------ clock and angles

  function Truncate(x: real): int {
    if x >= 0.0 then x.Floor else -((-x).Floor)
  }

  /** JavaScript's `%`: the remainder takes the sign of the dividend. */
  function Remainder(x: real, m: real): real
    requires m > 0.0
  {
    x - m * (Truncate(x / m) as real)
  }

  /** Clockwise sweep heading in degrees. */
  function AngleDeg(nowMs: real): real {
    Remainder(Remainder(nowMs, PERIOD_MS) + PERIOD_MS, PERIOD_MS) / PERIOD_MS * 360.0
  }

  lemma RemainderBounds(x: real, m: real)
    requires m > 0.0
    ensures -m < Remainder(x, m) < m
    ensures x >= 0.0 ==> Remainder(x, m) >= 0.0
    ensures x <= 0.0 ==> Remainder(x, m) <= 0.0
  {
    var q := x / m;
    DivideBack(x, m);
    var n := Truncate(q) as real;
    if x >= 0.0 {
      assert q >= 0.0 by { SignOf(q, m); }
      Between(x, m, q, n);
    } else {
      assert q < 0.0 by { if q >= 0.0 { NonnegativeProduct(q, m); } }
      Between(-x, m, -q, -n);
      assert -x - m * -n == -(x - m * n);
    }
  }

  lemma Between(x: real, m: real, q: real, n: real)
    requires m > 0.0 && q * m == x && n <= q < n + 1.0
    ensures 0.0 <= x - m * n < m
  {
    var part, rest := q - n, 1.0 - (q - n);
    NonnegativeProduct(part, m);
    PositiveProduct(rest, m);
    assert part * m == x - m * n;
    var gap := rest * m;
    assert gap == m - (x - m * n);
  }

  /** Within a turn and a bit of zero the remainder is a single correction. */
  lemma RemainderNear(x: real)
    requires -720.0 < x < 720.0
    ensures Remainder(x, 360.0) == if x >= 360.0 then x - 360.0 else if x <= -360.0 then x + 360.0 else x
  {
    var q := x / 360.0;
    assert q >= 0.0 ==> q.Floor == if q >= 1.0 then 1 else 0;
    assert q < 0.0 ==> (-q).Floor == if -q >= 1.0 then 1 else 0;
  }

  /** The clock is whole turns of the sweep plus its heading, which is less than one turn. */
  lemma AngleIsHeading(nowMs: real)
    ensures 0.0 <= AngleDeg(nowMs) < 360.0
    ensures exists turns: int :: nowMs == ClockAt(turns, AngleDeg(nowMs))
  {
    hide Remainder;
    var first := Remainder(nowMs, PERIOD_MS);
    RemainderBounds(nowMs, PERIOD_MS);
    RemainderBounds(first + PERIOD_MS, PERIOD_MS);
    var a := Turns(nowMs);
    var b := Turns(first + PERIOD_MS);
    assert Remainder(first + PERIOD_MS, PERIOD_MS) == AngleDeg(nowMs) / 360.0 * PERIOD_MS;
    assert nowMs == ClockAt(a + b - 1, AngleDeg(nowMs));
  }

  function ClockAt(turns: int, heading: real): real {
    turns as real * 5200.0 + heading / 360.0 * 5200.0
  }

  lemma Turns(x: real) returns (n: int)
    ensures x == n as real * PERIOD_MS + Remainder(x, PERIOD_MS)
  {
    n := Truncate(x / PERIOD_MS);
  }

  // --------------------------------------------------------- the simple functions

  function Floor(s: Settings): real {
    s.opacity as real / 100.0
  }

  /**
   * A contact's screen point and what the mathematics library makes of it: its
   * distance from the viewport centre and its heading there.
   */
  datatype Point = Point(x: real, y: real, distance: real, heading: real)

  predicate Polar(p: Point, width: real, height: real) {
    var (dx, dy) := (p.x - width / 2.0, p.y - height / 2.0);
    && p.distance >= 0.0 && p.distance * p.distance == dx * dx + dy * dy
    && -180.0 < p.heading <= 180.0
  }

  function Feather(s: Settings): real {
    Min(FEATHER_DEG, s.sector as real * 0.42)
  }

  /** Degrees from the sweep to the contact: the point is normalised first, then the difference. */
  function SimpleDelta(heading: real, angle: real): real {
    Remainder(Remainder(heading + 360.0, 360.0) - angle + 360.0, 360.0)
  }

  function Radius(width: real, height: real, s: Settings): real {
    Min(width * 0.4, height * 0.52) * (s.range as real / 100.0)
  }

  function SectorIntensity(delta: real, s: Settings): real
    requires InRange(s)
  {
    var sweep := s.sector as real;
    if delta > sweep then Floor(s)
    else
      var coverage := if delta <= sweep - Feather(s) then 1.0 else Clamp01((sweep - delta) / Feather(s));
      Floor(s) + (1.0 - Floor(s)) * coverage
  }

  /** `None` is a projection that is not finite. */
  function IntensityAt(p: Option<Point>, width: real, height: real, nowMs: real, s: Settings): real
    requires InRange(s)
  {
    if p.None? || width <= 0.0 || height <= 0.0 then 1.0
    else
      var radius := Radius(width, height, s);
      if p.value.distance > radius then Floor(s)
      else if p.value.distance < radius * 0.025 then 1.0
      else SectorIntensity(SimpleDelta(p.value.heading, AngleDeg(nowMs)), s)
  }

  function Coverage(intensity: real, floor: real): real {
    if 1.0 - floor <= 0.0001 then 1.0 else Clamp01((intensity - floor) / (1.0 - floor))
  }

  function TintColor(base: Color, intensity: real, s: Settings): Color {
    var coverage := Coverage(intensity, Floor(s));
    Color(base.red * 0.28 + (0.62 + 0.38 * coverage) * (1.0 - 0.28),
          base.green * 0.28 + (0.68 + 0.16 * coverage) * (1.0 - 0.28),
          base.blue * 0.28 + (0.72 + 0.12 * coverage) * (1.0 - 0.28),
          base.alpha)
  }

  /** `Number(x.toFixed(4))`. */
  function ToFixed4(x: real): real {
    Round(x * 10000.0) as real / 10000.0
  }

  function LabelIntensity(intensity: real, s: Settings): real {
    var floor := Floor(s);
    var labelFloor := ToFixed4(floor + (1.0 - floor) * 0.5);
    if 1.0 - floor <= 0.0001 then 1.0
    else labelFloor + (1.0 - labelFloor) * Clamp01((intensity - floor) / (1.0 - floor))
  }

  function NeutralIntensity(s: Settings): real {
    Floor(s) + (1.0 - Floor(s)) * 0.46
  }

  // ----------------------------------------------------------------- the sampler

  datatype Sampler = Sampler(width: real, height: real, floor: real, neutral: real,
                             radiusSquared: real, angle: real, sector: real, feather: real)
  {
    function SamplerDelta(heading: real): real {
      Remainder(Remainder(heading - angle, 360.0) + 360.0, 360.0)
    }

    function At(p: Option<Point>): real
      requires feather > 0.0
    {
      if p.None? || width <= 0.0 || height <= 0.0 then 1.0
      else
        var (dx, dy) := (p.value.x - width / 2.0, p.value.y - height / 2.0);
        var distanceSquared := dx * dx + dy * dy;
        if distanceSquared > radiusSquared then floor
        else if distanceSquared < radiusSquared * 0.000625 then 1.0
        else Swept(SamplerDelta(p.value.heading))
    }

    function Swept(delta: real): real
      requires feather > 0.0
    {
      if delta > sector then floor
      else floor + (1.0 - floor) * Min(1.0, (sector - delta) / feather)
    }

    function Label(factor: real): real {
      (1.0 + factor) * 0.5
    }

    function Tint(base: Color, factor: real): Color {
      var coverage := if floor >= 0.9999 then 1.0 else Clamp01((factor - floor) / (1.0 - floor));
      Color(base.red * 0.28 + (0.62 + 0.38 * coverage) * 0.72,
            base.green * 0.28 + (0.68 + 0.16 * coverage) * 0.72,
            base.blue * 0.28 + (0.72 + 0.12 * coverage) * 0.72,
            base.alpha)
    }
  }

  function CreateSampler(width: real, height: real, nowMs: real, s: Settings): (sampler: Sampler)
    requires InRange(s)
    ensures sampler.feather > 0.0
  {
    var floor := s.opacity as real / 100.0;
    var radius := Min(width * 0.4, height * 0.52) * s.range as real / 100.0;
    Sampler(width, height, floor, floor + (1.0 - floor) * 0.46, radius * radius, AngleDeg(nowMs),
            s.sector as real, Min(FEATHER_DEG, s.sector as real * 0.42))
  }

  // ------------------------------------------------------------------ refinement

  /** One wrap of the difference is the two wraps of the simple form. */
  lemma DeltasAgree(heading: real, angle: real)
    requires -180.0 < heading <= 180.0 && 0.0 <= angle < 360.0
    ensures SimpleDelta(heading, angle) == Remainder(Remainder(heading - angle, 360.0) + 360.0, 360.0)
    ensures 0.0 <= SimpleDelta(heading, angle) < 360.0
  {
    hide Remainder;
    RemainderNear(heading + 360.0);
    var pointAngle := if heading >= 0.0 then heading else heading + 360.0;
    RemainderNear(pointAngle - angle + 360.0);
    RemainderNear(heading - angle);
    var wrapped := if heading - angle <= -360.0 then heading - angle + 360.0 else heading - angle;
    RemainderNear(wrapped + 360.0);
  }

  lemma SquaresCompare(a: real, b: real)
    requires a >= 0.0 && b >= 0.0
    ensures a > b <==> a * a > b * b
  {
    assert a * a - b * b == (a - b) * (a + b);
    if a > b {
      PositiveProduct(a - b, a + b);
    } else {
      NonnegativeProduct(b - a, a + b);
      assert (b - a) * (a + b) == b * b - a * a;
    }
  }

  lemma RadiiAgree(distance: real, reach: real, range: real)
    requires distance >= 0.0 && reach > 0.0 && range > 0.0
    ensures var (simple, fast) := (reach * (range / 100.0), reach * range / 100.0);
            && simple == fast > 0.0
            && (distance > simple <==> distance * distance > fast * fast)
            && (distance < simple * 0.025 <==> distance * distance < fast * fast * 0.000625)
  {
    var r := reach * range / 100.0;
    assert reach * range > 0.0;
    assert reach * (range / 100.0) == r;
    SquaresCompare(distance, r);
    SquaresCompare(r * 0.025, distance);
    assert (r * 0.025) * (r * 0.025) == r * r * 0.000625;
  }

  lemma CoveragesAgree(sector: real, feather: real, delta: real)
    requires feather > 0.0 && delta <= sector
    ensures (if delta <= sector - feather then 1.0 else Clamp01((sector - delta) / feather))
            == Min(1.0, (sector - delta) / feather)
  {
    var q := (sector - delta) / feather;
    DivideBack(sector - delta, feather);
    SignOf(q, feather);
    if q >= 1.0 {
      NonnegativeProduct(q - 1.0, feather);
      assert (q - 1.0) * feather == q * feather - feather;
    } else {
      PositiveProduct(1.0 - q, feather);
      assert (1.0 - q) * feather == feather - q * feather;
    }
  }

  /** The fast sampler is the simple intensity, for every point, clock and setting. */
  lemma SamplerRefinesIntensity(p: Option<Point>, width: real, height: real, nowMs: real, s: Settings)
    requires InRange(s) && (p.Some? ==> Polar(p.value, width, height))
    ensures CreateSampler(width, height, nowMs, s).At(p) == IntensityAt(p, width, height, nowMs, s)
  {
    if p.Some? && width > 0.0 && height > 0.0 {
      var (dx, dy) := (p.value.x - width / 2.0, p.value.y - height / 2.0);
      PolarRefines(p.value, width, height, nowMs, s, dx * dx + dy * dy);
    }
  }

  lemma SectorsAgree(sampler: Sampler, width: real, height: real, nowMs: real, s: Settings, delta: real)
    requires InRange(s) && sampler == CreateSampler(width, height, nowMs, s)
    ensures sampler.Swept(delta) == SectorIntensity(delta, s)
  {
    if delta <= s.sector as real {
      CoveragesAgree(s.sector as real, Feather(s), delta);
    }
  }

  lemma ZonesAgree(sampler: Sampler, width: real, height: real, nowMs: real, s: Settings, distance: real)
    requires InRange(s) && width > 0.0 && height > 0.0 && distance >= 0.0
    requires sampler == CreateSampler(width, height, nowMs, s)
    ensures distance > Radius(width, height, s) <==> distance * distance > sampler.radiusSquared
    ensures distance < Radius(width, height, s) * 0.025 <==> distance * distance < sampler.radiusSquared * 0.000625
  {
    hide AngleDeg;
    RadiiAgree(distance, Min(width * 0.4, height * 0.52), s.range as real);
  }

  lemma PolarRefines(p: Point, width: real, height: real, nowMs: real, s: Settings, squared: real)
    requires InRange(s) && width > 0.0 && height > 0.0 && Polar(p, width, height)
    requires squared == p.distance * p.distance
    ensures CreateSampler(width, height, nowMs, s).At(Some(p)) == IntensityAt(Some(p), width, height, nowMs, s)
  {
    hide AngleDeg, Remainder, SimpleDelta, SectorIntensity, Sampler.Swept, Radius;
    var sampler := CreateSampler(width, height, nowMs, s);
    AngleIsHeading(nowMs);
    DeltasAgree(p.heading, AngleDeg(nowMs));
    ZonesAgree(sampler, width, height, nowMs, s, p.distance);
    SectorsAgree(sampler, width, height, nowMs, s, SimpleDelta(p.heading, AngleDeg(nowMs)));
  }

  /** Intensities lie between the floor and full. */
  lemma IntensityIsUnit(p: Option<Point>, width: real, height: real, nowMs: real, s: Settings)
    requires InRange(s)
    ensures Floor(s) <= IntensityAt(p, width, height, nowMs, s) <= 1.0
  {
    hide AngleDeg, Remainder, SimpleDelta, Radius, SectorIntensity;
    if p.Some? {
      SectorIsUnit(SimpleDelta(p.value.heading, AngleDeg(nowMs)), s);
    }
  }

  lemma SectorIsUnit(delta: real, s: Settings)
    requires InRange(s)
    ensures Floor(s) <= SectorIntensity(delta, s) <= 1.0
  {
    var sweep := s.sector as real;
    if delta <= sweep {
      var coverage := if delta <= sweep - Feather(s) then 1.0 else Clamp01((sweep - delta) / Feather(s));
      var room := 1.0 - Floor(s);
      NonnegativeProduct(room, coverage);
      NonnegativeProduct(room, 1.0 - coverage);
      assert room * (1.0 - coverage) == room - room * coverage;
    }
  }

  /** Full light, then a fall over ten degrees (fewer in a narrow sector) down to the floor at the sector's edge. */
  lemma SectorFades(delta: real, s: Settings)
    requires InRange(s)
    ensures var (sweep, lit) := (s.sector as real, SectorIntensity(delta, s) - Floor(s));
            var fade := if s.sector < 24 then 0.42 * sweep else 10.0;
            && (delta <= sweep - fade ==> SectorIntensity(delta, s) == 1.0)
            && (delta >= sweep ==> lit == 0.0)
            && (sweep - fade <= delta <= sweep ==> lit * fade == (1.0 - Floor(s)) * (sweep - delta))
  {
    var (sweep, fade) := (s.sector as real, Feather(s));
    assert fade == if s.sector < 24 then 0.42 * sweep else 10.0;
    var q := (sweep - delta) / fade;
    if sweep - fade <= delta <= sweep {
      DivideBack(sweep - delta, fade);
      SignOf(q, fade);
      SignOf(1.0 - q, fade);
      CoveragesAgree(sweep, fade, delta);
      assert (1.0 - Floor(s)) * q * fade == (1.0 - Floor(s)) * (q * fade);
    }
  }

  /** Tints agree for every colour and intensity. */
  lemma TintsAgree(width: real, height: real, nowMs: real, s: Settings, base: Color, factor: real)
    requires InRange(s)
    ensures CreateSampler(width, height, nowMs, s).Tint(base, factor) == TintColor(base, factor, s)
    ensures CreateSampler(width, height, nowMs, s).neutral == NeutralIntensity(s)
  {
    hide AngleDeg;
    assert Floor(s) >= 0.9999 <==> 1.0 - Floor(s) <= 0.0001;
  }

  lemma LabelFloorIsExact(s: Settings)
    requires InRange(s)
    ensures ToFixed4(Floor(s) + (1.0 - Floor(s)) * 0.5) == (1.0 + Floor(s)) * 0.5
  {
    var half := (1.0 + Floor(s)) * 0.5;
    assert half * 10000.0 == (5000 + 50 * s.opacity) as real;
    RoundOfWhole(5000 + 50 * s.opacity);
  }

  /** Label intensities agree exactly on the intensities between the floor and full. */
  lemma LabelsAgreeExactlyWhen(width: real, height: real, nowMs: real, s: Settings, factor: real)
    requires InRange(s)
    ensures CreateSampler(width, height, nowMs, s).Label(factor) == LabelIntensity(factor, s)
            <==> Floor(s) <= factor <= 1.0
  {
    hide AngleDeg, ToFixed4;
    LabelFloorIsExact(s);
    var floor := Floor(s);
    if s.opacity < 100 {
      var room := 1.0 - floor;
      var q := (factor - floor) / room;
      DivideBack(factor - floor, room);
      LabelScale(floor, room, q, factor);
    }
  }

  lemma LabelScale(floor: real, room: real, q: real, factor: real)
    requires room > 0.0 && floor == 1.0 - room && q * room == factor - floor
    ensures var labelFloor := (1.0 + floor) * 0.5;
            labelFloor + (1.0 - labelFloor) * Clamp01(q) == (1.0 + factor) * 0.5 <==> floor <= factor <= 1.0
  {
    var labelFloor := (1.0 + floor) * 0.5;
    assert 1.0 - labelFloor == room * 0.5;
    if q < 0.0 {
      PositiveProduct(-q, room);
      assert (-q) * room == floor - factor;
    } else if q > 1.0 {
      PositiveProduct(q - 1.0, room);
      assert (q - 1.0) * room == factor - 1.0;
    } else {
      NonnegativeProduct(q, room);
      NonnegativeProduct(1.0 - q, room);
      assert (1.0 - q) * room == 1.0 - factor;
      assert (room * 0.5) * q == (factor - floor) * 0.5;
    }
  }

  /** So the label of any contact the sampler lights is the simple label of its simple intensity. */
  lemma ContactLabelsAgree(p: Option<Point>, width: real, height: real, nowMs: real, s: Settings)
    requires InRange(s) && (p.Some? ==> Polar(p.value, width, height))
    ensures var sampler := CreateSampler(width, height, nowMs, s);
            sampler.Label(sampler.At(p)) == LabelIntensity(IntensityAt(p, width, height, nowMs, s), s)
  {
    hide AngleDeg, IntensityAt, Sampler.At, LabelIntensity, Sampler.Label, Polar;
    SamplerRefinesIntensity(p, width, height, nowMs, s);
    IntensityIsUnit(p, width, height, nowMs, s);
    LabelsAgreeExactlyWhen(width, height, nowMs, s, IntensityAt(p, width, height, nowMs, s));
  }
}
