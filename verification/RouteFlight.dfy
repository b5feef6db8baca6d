/**
 * The cinematic route flight, on values: what one frame does to the flight and
 * which camera pose it applies. Terrain readings, the mesh probe, the smoothing
 * factors `1 - e^(-rate*dt)` and the breathing wave are inputs of the frame.
 */
module RouteFlight {
  import opened Numbers
  import opened Options
  import opened RouteProfile

  const CAMERA_HEIGHT_M: real := 260.0
  const BANK_MAX_DEG: real := 10.0
  const BANK_PER_DEG_S: real := 0.44
  const BREATH_M: real := 20.0
  const TURN_LIFT_M: real := 26.0
  const MIN_CLEARANCE_M: real := 90.0
  const UNKNOWN_FLOOR_CAP_M: real := 5000.0
  const ARM_S: real := 1.2
  const MAX_STEP_S: real := 0.25
  const MAX_DESCENT_MPS: real := 10.0
  const MIN_DURATION_S: real := 0.5

  // -------------------------------------------------------- cinematic shaping

  /** First-order smoothing with factor `k`. */
  function Blend(current: real, target: real, k: real): real {
    current + (target - current) * k
  }

  /** `None` is a value that is not finite. */
  function ApproachValue(current: Option<real>, target: Option<real>, k: real): Option<real> {
    match (current, target)
    case (None, _) => target
    case (_, None) => current
    case (Some(c), Some(t)) => Some(Blend(c, t, k))
  }

  function BankTarget(turnRate: Option<real>, reduced: bool): real {
    if reduced || turnRate.None? then 0.0
    else Max(-BANK_MAX_DEG, Min(BANK_MAX_DEG, turnRate.value * BANK_PER_DEG_S))
  }

  function AltitudeOffset(wave: real, bankFraction: real, reduced: bool): real {
    if reduced then 0.0 else
      var bank := Abs(Max(-1.0, Min(1.0, bankFraction)));
      wave * BREATH_M * (1.0 - bank) + bank * TURN_LIFT_M
  }

  function EyeHeight(floor: Option<real>, offset: Option<real>): real {
    var base := floor.GetOr(0.0);
    Max(base + MIN_CLEARANCE_M, base + CAMERA_HEIGHT_M + offset.GetOr(0.0))
  }

  function FloorHold(previous: Option<real>, sampled: Option<real>, k: real): Option<real> {
    if sampled.None? then previous
    else if previous.None? then sampled
    else ApproachValue(previous, sampled, k)
  }

  function ColdSeed(pathHeight: Option<real>, cameraHeight: Option<real>): real {
    var base := pathHeight.GetOr(0.0);
    if cameraHeight.None? then base
    else Max(base, Min(base + UNKNOWN_FLOOR_CAP_M, cameraHeight.value - CAMERA_HEIGHT_M))
  }

  // ------------------------------------------------------- plan, state, input

  /** What is fixed for the whole flight. */
  datatype Plan = Plan(total: real, duration: real, ramp: real, reduced: bool,
                       hasFloorFn: bool, hasProbe: bool, coldSeed: real, safeHold: Option<real>)

  /** What the flight knows about the ground. */
  datatype Ground = Ground(floor: Option<real>, known: bool, armS: real, probeSpent: bool,
                           probeFloor: Option<real>, probeCovers: bool)

  /** The roll and its smoothers, in degrees. */
  datatype Wings = Wings(lead: real, bank: real, applied: real, lift: real)

  datatype Flight = Flight(u: real, traveled: real, departed: bool, ground: Ground, wings: Wings,
                           offset: Option<real>, height: Option<real>)

  /** What one rendered-mesh probe answered. */
  datatype Probe = Probe(height: Option<real>, sampled: nat)

  /** The cached floor of each corridor cell, and the probe's answer (`None` when it throws). */
  datatype Corridor = Corridor(floors: seq<Option<real>>, probe: Option<Probe>)

  /** The two cached reads of a frame. */
  datatype Sample = Threw | Read(here: Option<real>, ahead: Option<real>)

  /** The factors of the five smoothers on one frame. */
  datatype Factors = Factors(lead: real, settle: real, floor: real, lift: real, altitude: real)

  datatype Frame = Frame(dt: Option<real>, corridor: Corridor, turnRate: Option<real>,
                         factors: Factors, wave: real, sample: Sample)

  datatype Pose = Arming | Pose(finished: bool, roll: real, height: real, agl: real, speed: real, progress: real)

  // ------------------------------------------------------------ corridor floor

  function KnownFloors(floors: seq<Option<real>>): seq<real> {
    if floors == [] then []
    else
      var last := floors[|floors| - 1];
      KnownFloors(floors[..|floors| - 1]) + (if last.Some? then [last.value] else [])
  }

  function MaxOf(s: seq<real>): real
    requires s != []
  {
    if |s| == 1 then s[0] else Max(MaxOf(s[..|s| - 1]), s[|s| - 1])
  }

  /** What the cache answers for cells with these floors; nothing without a floor function. */
  function AnswersFor(plan: Plan, floors: seq<Option<real>>): seq<Option<real>> {
    if plan.hasFloorFn then floors else seq(|floors|, i => None)
  }

  function Answers(plan: Plan, corridor: Corridor): seq<Option<real>> {
    AnswersFor(plan, corridor.floors)
  }

  function Cold(plan: Plan, corridor: Corridor): int {
    var answers := Answers(plan, corridor);
    |answers| - |KnownFloors(answers)|
  }

  /** The probe is spent whatever it returns; only one that reached every cold cell covers them. */
  function SpendProbe(ground: Ground, probe: Option<Probe>, cold: int): Ground {
    var spent := ground.(probeSpent := true);
    if probe.None? || probe.value.height.None? then spent
    else spent.(probeFloor := probe.value.height, probeCovers := probe.value.sampled >= cold)
  }

  predicate Probes(plan: Plan, ground: Ground, corridor: Corridor) {
    Cold(plan, corridor) > 0 && !ground.probeSpent && plan.hasProbe
  }

  function Consulted(plan: Plan, ground: Ground, corridor: Corridor): Ground {
    if Probes(plan, ground, corridor) then SpendProbe(ground, corridor.probe, Cold(plan, corridor)) else ground
  }

  function Evidence(plan: Plan, ground: Ground, corridor: Corridor): seq<real> {
    KnownFloors(Answers(plan, corridor)) + (if ground.probeFloor.Some? then [ground.probeFloor.value] else [])
  }

  /** Adopt the highest known floor; the corridor is resolved when no cell is left unaccounted for. */
  function Acquire(plan: Plan, ground: Ground, corridor: Corridor, takeWhole: bool): (Ground, bool) {
    if corridor.floors == [] then (ground, false) else
      var g := Consulted(plan, ground, corridor);
      var known := Evidence(plan, g, corridor);
      if known == [] then (g, false) else
        var top := MaxOf(known);
        var floor := if takeWhole || g.floor.None? then top else Max(g.floor.value, top);
        if Cold(plan, corridor) > 0 && !g.probeCovers then (g.(floor := Some(floor)), false)
        else (g.(floor := Some(floor), known := true), true)
  }

  // ------------------------------------------------------------------ one frame

  function StepOf(dt: Option<real>): real {
    Min(MAX_STEP_S, Max(0.0, dt.GetOr(0.0)))
  }

  function SampledFloor(plan: Plan, sample: Sample): Option<real> {
    if !plan.hasFloorFn || sample.Threw? then None
    else match (sample.here, sample.ahead)
      case (None, None) => None
      case (Some(h), None) => Some(h)
      case (None, Some(a)) => Some(a)
      case (Some(h), Some(a)) => Some(Max(h, a))
  }

  function Cruise(plan: Plan): real
    requires plan.duration > 0.0 && plan.ramp < 1.0
  {
    plan.total / (plan.duration * (1.0 - plan.ramp))
  }

  /** How far along the route the camera is at normalized time `u`. */
  function Travel(plan: Plan, u: real): real
    requires plan.ramp < 1.0
  {
    plan.total * Distance(u, plan.ramp)
  }

  function GroundSpeed(plan: Plan, u: real): real
    requires plan.duration > 0.0 && plan.ramp < 1.0
  {
    Cruise(plan) * Speed(u, plan.ramp)
  }

  function Advanced(plan: Plan, u: real, step: real): real
    requires plan.duration > 0.0
  {
    Min(1.0, u + step / plan.duration)
  }

  /** The roll unwinds with the speed, so the wings are level at both ends. */
  function Levelled(bank: real, speed: real): real {
    bank * speed
  }

  function Banked(wings: Wings, target: real, k: Factors, speed: real): Wings {
    var lead := Blend(wings.lead, target, k.lead);
    var bank := Blend(wings.bank, lead, k.settle);
    var applied := Levelled(bank, speed);
    Wings(lead, bank, applied, Blend(wings.lift, applied, k.lift))
  }

  function Grounded(plan: Plan, ground: Ground, sampled: Option<real>, k: real): Ground {
    if sampled.None? then ground.(floor := Some(ground.floor.GetOr(plan.coldSeed)))
    else ground.(floor := FloorHold(ground.floor, sampled, k), known := true)
  }

  /** The eye height, clamp by clamp: shaping, raw sample, launch hold, descent cap. */
  function Height(plan: Plan, ground: Ground, sampled: Option<real>, offset: real,
                  previous: Option<real>, step: real): real {
    var shaped := Max(EyeHeight(ground.floor, Some(offset)),
                      (if sampled.Some? then sampled.value else ground.floor.GetOr(0.0)) + MIN_CLEARANCE_M);
    var held := if !ground.known && plan.safeHold.Some? then Max(shaped, plan.safeHold.value) else shaped;
    if previous.Some? then Max(held, previous.value - MAX_DESCENT_MPS * step) else held
  }

  /** The altitude shaping asked for; the lift is a share of the full bank. */
  function Shaping(plan: Plan, f: Frame, lift: real): real {
    AltitudeOffset(f.wave, lift / BANK_MAX_DEG, plan.reduced)
  }

  predicate PlanOk(plan: Plan) {
    && plan.total > 0.0
    && plan.duration >= MIN_DURATION_S
    && plan.ramp == RampFraction(plan.duration)
    && 0.0 < plan.ramp <= RAMP_MAX_FRACTION
  }

  function Depart(plan: Plan, s: Flight, f: Frame, step: real): (Flight, Pose)
    requires PlanOk(plan)
  {
    var u := Advanced(plan, s.u, step);
    var speed := Speed(u, plan.ramp);
    var wings := Banked(s.wings, BankTarget(f.turnRate, plan.reduced), f.factors, speed);
    var sampled := SampledFloor(plan, f.sample);
    var ground := Grounded(plan, s.ground, sampled, f.factors.floor);
    var shaping := Shaping(plan, f, wings.lift);
    var offset := if s.offset.Some? then Blend(s.offset.value, shaping, f.factors.altitude) else shaping;
    var height := Height(plan, ground, sampled, offset, s.height, step);
    (Flight(u, Travel(plan, u), true, ground, wings, Some(offset), Some(height)),
     Pose(u >= 1.0, wings.applied, height, height - ground.floor.GetOr(0.0), GroundSpeed(plan, u), u))
  }

  predicate Arms(plan: Plan, s: Flight) {
    (plan.hasFloorFn || plan.hasProbe) && !s.ground.known && !s.departed && s.ground.armS < ARM_S
  }

  function Armed(plan: Plan, s: Flight, f: Frame): (Ground, bool) {
    Acquire(plan, s.ground.(armS := s.ground.armS + StepOf(f.dt)), f.corridor, true)
  }

  function Advance(plan: Plan, s: Flight, f: Frame): (Flight, Pose)
    requires PlanOk(plan)
  {
    if Arms(plan, s) then
      var (ground, resolved) := Armed(plan, s, f);
      if resolved then Depart(plan, s.(ground := ground), f, StepOf(f.dt)) else (s.(ground := ground), Arming)
    else Depart(plan, s, f, StepOf(f.dt))
  }

  function Parked(): Flight {
    Flight(0.0, 0.0, false, Ground(None, false, 0.0, false, None, false), Wings(0.0, 0.0, 0.0, 0.0), None, None)
  }

  /** The flight as created, after its first look at the corridor. */
  function Create(plan: Plan, corridor: Corridor): Flight {
    Parked().(ground := Acquire(plan, Parked().ground, corridor, true).0)
  }

  function PlanFor(total: real, meanMps: real, pathHeight: Option<real>, cameraHeight: Option<real>,
                   hasFloorFn: bool, hasProbe: bool, reduced: bool): (plan: Plan)
    requires total > 0.0 && meanMps > 0.0
    ensures PlanOk(plan)
    ensures plan.duration * meanMps >= plan.total
    ensures plan.total >= MIN_DURATION_S * meanMps ==> plan.duration * meanMps == plan.total
    ensures cameraHeight.Some? ==> plan.safeHold == cameraHeight
  {
    var duration := Max(MIN_DURATION_S, total / meanMps);
    RampFractionIsRamp(duration);
    assert (total / meanMps) * meanMps == total;
    Plan(total, duration, RampFraction(duration), reduced, hasFloorFn, hasProbe,
         ColdSeed(pathHeight, cameraHeight), cameraHeight)
  }
}
