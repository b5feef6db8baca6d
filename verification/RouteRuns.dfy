/**
 * Whole route flights: what holds on every frame of every run, however the
 * clock steps and whatever the terrain cache and the mesh probe answer.
 */
module RouteRuns {
  import opened Numbers
  import opened Options
  import opened RouteProfile
  import opened RouteFlight
  import opened RouteSafety

  // ------------------------------------------------------------------ one frame

  /** What the pose of a departed frame promises. */
  predicate PoseOk(plan: Plan, before: Flight, f: Frame, after: Flight, pose: Pose)
    requires PlanOk(plan) && pose.Pose?
  {
    var sampled, step := SampledFloor(plan, f.sample), StepOf(f.dt);
    && after.departed && after.height == Some(pose.height)
    && (sampled.Some? ==> pose.height >= sampled.value + MIN_CLEARANCE_M)
    && pose.agl >= MIN_CLEARANCE_M
    && (!after.ground.known && plan.safeHold.Some? ==> pose.height >= plan.safeHold.value)
    && (before.height.Some? ==> pose.height >= before.height.value - MAX_DESCENT_MPS * step)
    && 0.0 <= after.traveled - before.traveled <= Cruise(plan) * step
    && 0.0 <= pose.speed <= Cruise(plan)
    && Rolled(pose.roll)
    && (pose.finished <==> after.u == 1.0)
    && (pose.finished ==> pose.roll == 0.0 && pose.speed == 0.0 && after.traveled == plan.total)
  }

  lemma SpeedIsCapped(plan: Plan, u: real)
    requires PlanOk(plan)
    ensures 0.0 <= GroundSpeed(plan, u) <= Cruise(plan)
    ensures Speed(u, plan.ramp) == 0.0 ==> GroundSpeed(plan, u) == 0.0
  {
    hide Speed;
    SpeedIsUnit(u, plan.ramp);
    var speed := Speed(u, plan.ramp);
    var area := plan.duration * (1.0 - plan.ramp);
    NonnegativeProduct(plan.duration, 1.0 - plan.ramp);
    assert area > 0.0;
    assert plan.total / area >= 0.0;
    ProductBelow(speed, Cruise(plan));
  }

  predicate Moved(plan: Plan, before: Flight, step: real, after: Flight, pose: Pose)
    requires PlanOk(plan) && pose.Pose?
  {
    && 0.0 <= after.traveled - before.traveled <= Cruise(plan) * step
    && 0.0 <= pose.speed <= Cruise(plan)
    && (pose.finished <==> after.u == 1.0)
    && (pose.finished ==> pose.speed == 0.0 && after.traveled == plan.total)
  }

  lemma DepartMoves(plan: Plan, s: Flight, f: Frame)
    requires PlanOk(plan) && PlaceOk(plan, s)
    ensures var (after, pose) := Depart(plan, s, f, StepOf(f.dt));
            pose.Pose? && PlaceOk(plan, after) && Moved(plan, s, StepOf(f.dt), after, pose)
  {
    hide Travel, GroundSpeed, Speed, Cruise, Banked, AltitudeOffset, Blend, Height, BankTarget, Grounded, Advanced;
    var u := Advanced(plan, s.u, StepOf(f.dt));
    TravelIsExact(plan, s.u, StepOf(f.dt));
    SpeedIsCapped(plan, u);
  }

  lemma DepartRolls(plan: Plan, s: Flight, f: Frame)
    requires PlanOk(plan) && FrameOk(f) && Unit(s.u) && WingsOk(s.wings) && OffsetOk(s.offset)
    ensures var (after, pose) := Depart(plan, s, f, StepOf(f.dt));
            && pose.Pose? && WingsOk(after.wings) && after.offset.Some? && OffsetOk(after.offset)
            && Rolled(pose.roll) && (pose.finished ==> pose.roll == 0.0)
  {
    hide Travel, GroundSpeed, Distance, Speed, Cruise, Banked, AltitudeOffset, Blend, Height, BankTarget, Grounded, Advanced;
    TravelIsExact(plan, s.u, StepOf(f.dt));
    var u := Advanced(plan, s.u, StepOf(f.dt));
    SpeedIsUnit(u, plan.ramp);
    var target := BankTarget(f.turnRate, plan.reduced);
    BankTargetIsCapped(f.turnRate, plan.reduced);
    RollIsCapped(s.wings, target, f.factors, Speed(u, plan.ramp));
    var wings := Banked(s.wings, target, f.factors, Speed(u, plan.ramp));
    SmoothedOffset(s.offset, f.wave, wings.lift / BANK_MAX_DEG, plan.reduced, f.factors.altitude);
  }

  lemma DepartClears(plan: Plan, s: Flight, f: Frame)
    requires PlanOk(plan) && FrameOk(f) && GroundOk(s.ground)
    requires OffsetOk(Depart(plan, s, f, StepOf(f.dt)).0.offset)
    ensures var (after, pose) := Depart(plan, s, f, StepOf(f.dt));
            var sampled := SampledFloor(plan, f.sample);
            && pose.Pose? && GroundOk(after.ground) && after.departed && after.height == Some(pose.height)
            && (sampled.Some? ==> pose.height >= sampled.value + MIN_CLEARANCE_M)
            && pose.agl >= MIN_CLEARANCE_M
            && (!after.ground.known && plan.safeHold.Some? ==> pose.height >= plan.safeHold.value)
            && (s.height.Some? ==> pose.height >= s.height.value - MAX_DESCENT_MPS * StepOf(f.dt))
  {
    hide Travel, GroundSpeed, Distance, Speed, Cruise, Banked, AltitudeOffset, Blend, Height, BankTarget, Advanced;
    var after := Depart(plan, s, f, StepOf(f.dt)).0;
    HeightIsSafe(plan, after.ground, SampledFloor(plan, f.sample), after.offset.value, s.height, StepOf(f.dt));
  }

  lemma DepartIsSafe(plan: Plan, s: Flight, f: Frame)
    requires PlanOk(plan) && FrameOk(f) && FlightOk(plan, s)
    ensures var (after, pose) := Depart(plan, s, f, StepOf(f.dt));
            FlightOk(plan, after) && pose.Pose? && PoseOk(plan, s, f, after, pose)
  {
    hide Depart, Travel, Cruise;
    DepartMoves(plan, s, f);
    DepartRolls(plan, s, f);
    DepartClears(plan, s, f);
  }

  lemma BankTargetIsCapped(turnRate: Option<real>, reduced: bool)
    ensures Rolled(BankTarget(turnRate, reduced))
  {
  }

  lemma ArmedKeeps(plan: Plan, s: Flight, f: Frame)
    requires PlanOk(plan) && FlightOk(plan, s) && Arms(plan, s)
    ensures GroundOk(Armed(plan, s, f).0)
  {
    hide Travel, GroundSpeed, Distance;
    AcquireResolves(plan, s.ground.(armS := s.ground.armS + StepOf(f.dt)), f.corridor);
  }

  /**
   * Every frame keeps the flight sound. An arming frame applies no pose and
   * moves nothing; every other frame's pose is safe.
   */
  lemma AdvanceIsSafe(plan: Plan, s: Flight, f: Frame)
    requires PlanOk(plan) && FrameOk(f) && FlightOk(plan, s)
    ensures var (after, pose) := Advance(plan, s, f);
            && FlightOk(plan, after)
            && match pose
               case Arming => !s.departed && after == s.(ground := after.ground) && !after.ground.known
               case Pose(_, _, _, _, _, _) => PoseOk(plan, s, f, after, pose)
  {
    hide Depart, Acquire, PoseOk;
    if Arms(plan, s) {
      ArmedKeeps(plan, s, f);
      AcquireResolves(plan, s.ground.(armS := s.ground.armS + StepOf(f.dt)), f.corridor);
      var (ground, resolved) := Armed(plan, s, f);
      if resolved {
        var ready := s.(ground := ground);
        DepartIsSafe(plan, ready, f);
        SameStart(plan, s, ready, f);
      }
    } else {
      DepartIsSafe(plan, s, f);
    }
  }

  lemma SameStart(plan: Plan, s: Flight, ready: Flight, f: Frame)
    requires PlanOk(plan) && ready == s.(ground := ready.ground)
    ensures var (after, pose) := Depart(plan, ready, f, StepOf(f.dt));
            pose.Pose? && (PoseOk(plan, ready, f, after, pose) ==> PoseOk(plan, s, f, after, pose))
  {
    hide Travel, GroundSpeed, Distance, Speed, Cruise, Banked, AltitudeOffset, Blend, Height, Grounded;
  }

  // ----------------------------------------------------------------------- runs

  function Run(plan: Plan, s: Flight, frames: seq<Frame>): Flight
    requires PlanOk(plan)
  {
    if frames == [] then s
    else Advance(plan, Run(plan, s, frames[..|frames| - 1]), frames[|frames| - 1]).0
  }

  predicate FramesOk(frames: seq<Frame>) {
    forall f <- frames :: FrameOk(f)
  }

  function Elapsed(frames: seq<Frame>): real {
    if frames == [] then 0.0 else Elapsed(frames[..|frames| - 1]) + StepOf(frames[|frames| - 1].dt)
  }

  lemma CreatedIsOk(plan: Plan, corridor: Corridor)
    requires PlanOk(plan)
    ensures FlightOk(plan, Create(plan, corridor))
  {
    hide Acquire, Distance;
    ProfileEnds(plan.ramp);
    AcquireResolves(plan, Parked().ground, corridor);
    assert plan.total * 0.0 == 0.0;
  }

  lemma {:induction false} RunKeepsFlight(plan: Plan, s: Flight, frames: seq<Frame>)
    requires PlanOk(plan) && FlightOk(plan, s) && FramesOk(frames)
    ensures FlightOk(plan, Run(plan, s, frames))
  {
    hide FlightOk, Advance;
    if frames != [] {
      var init := frames[..|frames| - 1];
      RunKeepsFlight(plan, s, init);
      AdvanceIsSafe(plan, Run(plan, s, init), frames[|frames| - 1]);
    }
  }

  /**
   * Safety on every frame of every flight: `frame` is the one after any run at
   * all of a freshly created flight.
   */
  lemma EveryFrameIsSafe(plan: Plan, corridor: Corridor, frames: seq<Frame>, frame: Frame)
    requires PlanOk(plan) && FramesOk(frames) && FrameOk(frame)
    ensures var s := Run(plan, Create(plan, corridor), frames);
            var (after, pose) := Advance(plan, s, frame);
            && Run(plan, Create(plan, corridor), frames + [frame]) == after
            && match pose
               case Arming => after == s.(ground := after.ground) && after.u == 0.0 && after.height.None?
               case Pose(_, _, _, _, _, _) => PoseOk(plan, s, frame, after, pose)
  {
    hide Advance, PoseOk;
    CreatedIsOk(plan, corridor);
    RunKeepsFlight(plan, Create(plan, corridor), frames);
    AdvanceIsSafe(plan, Run(plan, Create(plan, corridor), frames), frame);
    assert (frames + [frame])[..|frames|] == frames;
  }

  /**
   * Over any stretch of a flight: the eye sinks at most 10 m per second, the
   * camera never moves backwards and never beats its cruise speed.
   */
  lemma {:induction false} StretchIsGentle(plan: Plan, s: Flight, frames: seq<Frame>)
    requires PlanOk(plan) && FlightOk(plan, s) && FramesOk(frames)
    ensures var after := Run(plan, s, frames);
            && FlightOk(plan, after)
            && (s.height.Some? ==> after.height.Some? &&
                                   after.height.value >= s.height.value - MAX_DESCENT_MPS * Elapsed(frames))
            && 0.0 <= after.traveled - s.traveled <= Cruise(plan) * Elapsed(frames)
  {
    hide Advance, Cruise, FlightOk;
    if frames != [] {
      var init, f := frames[..|frames| - 1], frames[|frames| - 1];
      StretchIsGentle(plan, s, init);
      var middle := Run(plan, s, init);
      AdvanceIsGentle(plan, middle, f);
      assert Cruise(plan) * Elapsed(frames) == Cruise(plan) * Elapsed(init) + Cruise(plan) * StepOf(f.dt);
    } else {
      assert Cruise(plan) * Elapsed(frames) == 0.0;
    }
  }

  lemma AdvanceIsGentle(plan: Plan, s: Flight, f: Frame)
    requires PlanOk(plan) && FlightOk(plan, s) && FrameOk(f)
    ensures var after := Advance(plan, s, f).0;
            && FlightOk(plan, after)
            && (s.height.Some? ==> after.height.Some? &&
                                   after.height.value >= s.height.value - MAX_DESCENT_MPS * StepOf(f.dt))
            && 0.0 <= after.traveled - s.traveled <= Cruise(plan) * StepOf(f.dt)
  {
    hide Advance, Cruise, FlightOk;
    AdvanceIsSafe(plan, s, f);
    if Advance(plan, s, f).1.Arming? {
      CruiseIsNonnegative(plan);
      NonnegativeProduct(Cruise(plan), StepOf(f.dt));
      assert s.height.None? by { NotYetDeparted(plan, s); }
    }
  }

  lemma CruiseIsNonnegative(plan: Plan)
    requires PlanOk(plan)
    ensures Cruise(plan) >= 0.0
  {
    hide Cruise;
    SpeedIsCapped(plan, 0.0);
  }

  lemma NotYetDeparted(plan: Plan, s: Flight)
    requires PlanOk(plan) && FlightOk(plan, s) && !s.departed
    ensures s.height.None? && s.u == 0.0
  {
    hide Travel, GroundSpeed, Distance;
  }

  // --------------------------------------------------------------- the ceiling

  predicate ProbeBelow(probe: Option<Probe>, top: real) {
    probe.Some? && probe.value.height.Some? ==> probe.value.height.value <= top
  }

  /** The floors an acquisition over `ground` reads lie at or below `top`: the cached ones, and the probe's if consulted. */
  predicate CorridorBelow(plan: Plan, ground: Ground, corridor: Corridor, top: real) {
    && (forall a <- Answers(plan, corridor) :: a.Some? ==> a.value <= top)
    && (corridor.floors != [] && Probes(plan, ground, corridor) ==> ProbeBelow(corridor.probe, top))
  }

  /** The frame flies: it does not arm, or its corridor is resolved. */
  predicate Departs(plan: Plan, s: Flight, f: Frame) {
    Arms(plan, s) ==> Armed(plan, s, f).1
  }

  predicate SampleBelow(plan: Plan, f: Frame, top: real) {
    SampledFloor(plan, f.sample).Some? ==> SampledFloor(plan, f.sample).value <= top
  }

  /** Every floor that this frame really reads lies at or below `top`: the corridor while arming, the sample in flight. */
  predicate ReadsBelow(plan: Plan, s: Flight, f: Frame, top: real) {
    && (Arms(plan, s) ==> CorridorBelow(plan, s.ground, f.corridor, top))
    && (Departs(plan, s, f) ==> SampleBelow(plan, f, top))
  }

  predicate RunReadsBelow(plan: Plan, s: Flight, frames: seq<Frame>, top: real)
    requires PlanOk(plan)
  {
    frames == [] ||
    var init := frames[..|frames| - 1];
    RunReadsBelow(plan, s, init, top) && ReadsBelow(plan, Run(plan, s, init), frames[|frames| - 1], top)
  }

  predicate GroundBelow(g: Ground, top: real) {
    (g.floor.Some? ==> g.floor.value <= top) && (g.probeFloor.Some? ==> g.probeFloor.value <= top)
  }

  /** The launch altitude, or 286 m over `top` if that is higher. */
  function Ceiling(plan: Plan, top: real): real {
    var shaped := top + CAMERA_HEIGHT_M + MAX_OFFSET_M;
    if plan.safeHold.Some? then Max(plan.safeHold.value, shaped) else shaped
  }

  predicate Beneath(plan: Plan, s: Flight, top: real) {
    && GroundBelow(s.ground, top)
    && (s.height.Some? ==> s.height.value <= Ceiling(plan, top))
  }

  lemma AcquireStaysBelow(plan: Plan, ground: Ground, corridor: Corridor, top: real)
    requires GroundBelow(ground, top) && CorridorBelow(plan, ground, corridor, top)
    ensures var g := Acquire(plan, ground, corridor, true).0;
            GroundBelow(g, top)
  {
    AcquireResolves(plan, ground, corridor);
  }

  /** Departing over `ground` on this frame flies over the seed: no floor is held and none is sampled. */
  predicate SeedsFrom(plan: Plan, ground: Ground, f: Frame) {
    ground.floor.None? && SampledFloor(plan, f.sample).None?
  }

  /** The frame adopts the seed: it departs, and neither the corridor nor the sample gave a floor. */
  predicate AdoptsSeed(plan: Plan, s: Flight, f: Frame) {
    if Arms(plan, s) then Armed(plan, s, f).1 && SeedsFrom(plan, Armed(plan, s, f).0, f)
    else SeedsFrom(plan, s.ground, f)
  }

  /** Some frame of the run adopted the seed. */
  predicate SeedAdopted(plan: Plan, s: Flight, frames: seq<Frame>)
    requires PlanOk(plan)
  {
    frames != [] &&
    var init := frames[..|frames| - 1];
    SeedAdopted(plan, s, init) || AdoptsSeed(plan, Run(plan, s, init), frames[|frames| - 1])
  }

  lemma DepartStaysBelow(plan: Plan, s: Flight, f: Frame, top: real)
    requires PlanOk(plan) && FrameOk(f) && FlightOk(plan, s)
    requires SampleBelow(plan, f, top) && Beneath(plan, s, top)
    requires SeedsFrom(plan, s.ground, f) ==> plan.coldSeed <= top
    ensures Beneath(plan, Depart(plan, s, f, StepOf(f.dt)).0, top)
  {
    hide Travel, GroundSpeed, Distance, Speed, Cruise, Banked, AltitudeOffset, Blend, Height, BankTarget, Grounded;
    var step := StepOf(f.dt);
    DepartIsSafe(plan, s, f);
    var (after, pose) := Depart(plan, s, f, step);
    var sampled := SampledFloor(plan, f.sample);
    FloorIsBounded(plan, s.ground, sampled, f.factors.floor, top);
    GroundedKeepsProbe(plan, s.ground, sampled, f.factors.floor);
    HeightIsBounded(plan, after.ground, sampled, after.offset.value, s.height, step, top, Ceiling(plan, top));
  }

  lemma GroundedKeepsProbe(plan: Plan, ground: Ground, sampled: Option<real>, k: real)
    ensures Grounded(plan, ground, sampled, k).probeFloor == ground.probeFloor
  {
    hide Blend;
  }

  lemma AdvanceStaysBelow(plan: Plan, s: Flight, f: Frame, top: real)
    requires PlanOk(plan) && FrameOk(f) && FlightOk(plan, s)
    requires ReadsBelow(plan, s, f, top) && Beneath(plan, s, top)
    requires AdoptsSeed(plan, s, f) ==> plan.coldSeed <= top
    ensures Beneath(plan, Advance(plan, s, f).0, top)
  {
    hide Depart, Acquire;
    if Arms(plan, s) {
      var waiting := s.ground.(armS := s.ground.armS + StepOf(f.dt));
      AcquireStaysBelow(plan, waiting, f.corridor, top);
      ArmedKeeps(plan, s, f);
      var (ground, resolved) := Armed(plan, s, f);
      if resolved {
        DepartStaysBelow(plan, s.(ground := ground), f, top);
      }
    } else {
      DepartStaysBelow(plan, s, f, top);
    }
  }

  /**
   * The ceiling: on every run the applied eye height stays at or below the
   * launch altitude or 286 m over the largest floor ever read, whichever is
   * higher. A corridor counts only in a frame that arms, a probe only where it
   * is consulted, a sample only in flight, the seed only if a frame adopted it.
   */
  lemma {:induction false} NeverAboveCeiling(plan: Plan, corridor: Corridor, frames: seq<Frame>, top: real)
    requires PlanOk(plan) && FramesOk(frames)
    requires CorridorBelow(plan, Parked().ground, corridor, top)
    requires RunReadsBelow(plan, Create(plan, corridor), frames, top)
    requires SeedAdopted(plan, Create(plan, corridor), frames) ==> plan.coldSeed <= top
    ensures var s := Run(plan, Create(plan, corridor), frames);
            Beneath(plan, s, top) && (s.height.Some? ==> s.height.value <= Ceiling(plan, top))
  {
    hide Advance, FlightOk, Acquire, ReadsBelow, CorridorBelow, AdoptsSeed;
    var s0 := Create(plan, corridor);
    CreatedIsOk(plan, corridor);
    if frames == [] {
      AcquireStaysBelow(plan, Parked().ground, corridor, top);
    } else {
      var init := frames[..|frames| - 1];
      NeverAboveCeiling(plan, corridor, init, top);
      RunKeepsFlight(plan, s0, init);
      AdvanceStaysBelow(plan, Run(plan, s0, init), frames[|frames| - 1], top);
    }
  }

  // ----------------------------------------------------------- the mesh probe

  predicate Consults(plan: Plan, s: Flight, f: Frame) {
    Arms(plan, s) && f.corridor.floors != [] && Probes(plan, s.ground, f.corridor)
  }

  function Consultations(plan: Plan, s: Flight, frames: seq<Frame>): nat
    requires PlanOk(plan)
  {
    if frames == [] then 0 else
      var init := frames[..|frames| - 1];
      Consultations(plan, s, init) + (if Consults(plan, Run(plan, s, init), frames[|frames| - 1]) then 1 else 0)
  }

  lemma ConsultingSpends(plan: Plan, s: Flight, f: Frame)
    requires PlanOk(plan)
    ensures Advance(plan, s, f).0.ground.probeSpent <==> s.ground.probeSpent || Consults(plan, s, f)
  {
    hide Travel, GroundSpeed, Distance, Speed, Cruise, Banked, AltitudeOffset, Blend, Height, Acquire;
    ProbeIsSpent(plan, s.ground.(armS := s.ground.armS + StepOf(f.dt)), f.corridor);
  }

  /** The synchronous mesh probe runs at most once per flight, creation included. */
  lemma {:induction false} ProbedAtMostOnce(plan: Plan, s: Flight, frames: seq<Frame>)
    requires PlanOk(plan)
    ensures Consultations(plan, s, frames) + (if s.ground.probeSpent then 1 else 0)
            == (if Run(plan, s, frames).ground.probeSpent then 1 else 0)
  {
    hide Advance, Consults;
    if frames != [] {
      var init := frames[..|frames| - 1];
      ProbedAtMostOnce(plan, s, init);
      ConsultingSpends(plan, Run(plan, s, init), frames[|frames| - 1]);
      if Run(plan, s, init).ground.probeSpent {
        SpentIsFinal(plan, Run(plan, s, init), frames[|frames| - 1]);
      }
    }
  }

  lemma SpentIsFinal(plan: Plan, s: Flight, f: Frame)
    requires s.ground.probeSpent
    ensures !Consults(plan, s, f)
  {
  }

  // ------------------------------------------------------------- the flight ends

  /** Time spent arming plus time spent flying accounts for all the time there was. */
  predicate OnSchedule(plan: Plan, s: Flight, elapsed: real) {
    s.u == 1.0 || s.u * plan.duration + s.ground.armS >= elapsed
  }

  lemma DepartKeepsSchedule(plan: Plan, s: Flight, f: Frame, elapsed: real)
    requires PlanOk(plan) && Unit(s.u)
    requires OnSchedule(plan, s, elapsed)
    ensures OnSchedule(plan, Depart(plan, s, f, StepOf(f.dt)).0, elapsed + StepOf(f.dt))
  {
    hide Travel, GroundSpeed, Distance, Speed, Cruise, Banked, AltitudeOffset, Blend, Height;
    var step := StepOf(f.dt);
    var share := step / plan.duration;
    DivideBack(step, plan.duration);
    assert share >= 0.0;
    if s.u + share < 1.0 {
      assert (s.u + share) * plan.duration == s.u * plan.duration + step;
    }
  }

  lemma AdvanceKeepsSchedule(plan: Plan, s: Flight, f: Frame, elapsed: real)
    requires PlanOk(plan) && FlightOk(plan, s)
    requires OnSchedule(plan, s, elapsed)
    ensures OnSchedule(plan, Advance(plan, s, f).0, elapsed + StepOf(f.dt))
  {
    hide Depart, Acquire;
    if Arms(plan, s) {
      AcquireResolves(plan, s.ground.(armS := s.ground.armS + StepOf(f.dt)), f.corridor);
      var (ground, resolved) := Armed(plan, s, f);
      if resolved {
        DepartKeepsSchedule(plan, s.(ground := ground), f, elapsed);
      }
    } else {
      DepartKeepsSchedule(plan, s, f, elapsed);
    }
  }

  lemma {:induction false} RunKeepsSchedule(plan: Plan, s: Flight, frames: seq<Frame>, elapsed: real)
    requires PlanOk(plan) && FlightOk(plan, s) && FramesOk(frames)
    requires OnSchedule(plan, s, elapsed)
    ensures OnSchedule(plan, Run(plan, s, frames), elapsed + Elapsed(frames))
  {
    hide Advance, FlightOk, OnSchedule;
    if frames != [] {
      var init, f := frames[..|frames| - 1], frames[|frames| - 1];
      RunKeepsSchedule(plan, s, init, elapsed);
      RunKeepsFlight(plan, s, init);
      AdvanceKeepsSchedule(plan, Run(plan, s, init), f, elapsed + Elapsed(init));
    }
  }

  lemma OnScheduleHasLanded(plan: Plan, s: Flight, elapsed: real)
    requires PlanOk(plan) && FlightOk(plan, s) && OnSchedule(plan, s, elapsed)
    requires elapsed >= plan.duration + MAX_ARM_S
    ensures s.u == 1.0
  {
    if s.u < 1.0 {
      PositiveProduct(1.0 - s.u, plan.duration);
      assert (1.0 - s.u) * plan.duration == plan.duration - s.u * plan.duration;
    }
  }

  /** Once the steps add up to the flight and the longest arm, it has landed exactly at the end. */
  lemma FlightLands(plan: Plan, corridor: Corridor, frames: seq<Frame>)
    requires PlanOk(plan) && FramesOk(frames)
    requires Elapsed(frames) >= plan.duration + MAX_ARM_S
    ensures var s := Run(plan, Create(plan, corridor), frames);
            s.u == 1.0 && s.traveled == plan.total
  {
    hide Acquire, Advance, Distance;
    CreatedIsOk(plan, corridor);
    var s0 := Create(plan, corridor);
    AcquireResolves(plan, Parked().ground, corridor);
    RunKeepsSchedule(plan, s0, frames, 0.0);
    RunKeepsFlight(plan, s0, frames);
    OnScheduleHasLanded(plan, Run(plan, s0, frames), Elapsed(frames));
    ProfileEnds(plan.ramp);
  }

  const MIN_TICK_S: real := 0.001

  lemma {:induction false} TicksAddUp(frames: seq<Frame>)
    requires forall f <- frames :: StepOf(f.dt) >= MIN_TICK_S
    ensures Elapsed(frames) >= |frames| as real * MIN_TICK_S
  {
    if frames != [] {
      TicksAddUp(frames[..|frames| - 1]);
    }
  }

  /** In ticks: the 1 ms floor of the render loop bounds how many a whole flight can take. */
  lemma FlightLandsWithin(plan: Plan, corridor: Corridor, frames: seq<Frame>)
    requires PlanOk(plan) && FramesOk(frames)
    requires forall f <- frames :: StepOf(f.dt) >= MIN_TICK_S
    requires |frames| as real * MIN_TICK_S >= plan.duration + MAX_ARM_S
    ensures Run(plan, Create(plan, corridor), frames).u == 1.0
  {
    hide Acquire, Advance, Distance;
    TicksAddUp(frames);
    FlightLands(plan, corridor, frames);
  }
}
