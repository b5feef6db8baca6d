/**
 * What one frame of the route flight does, quantity by quantity and exactly:
 * every smoother closes its share of the gap, and the eye flies 260 m over the
 * held floor unless a clamp lifts it.
 */
module RouteFrames {
  import opened Numbers
  import opened Options
  import opened RouteProfile
  import opened RouteFlight
  import opened RouteSafety
  import opened RouteRuns

  /** From `before`, a smoother with factor `k` leaves the share `1 - k` of the gap to `target`. */
  predicate ClosesShare(before: real, target: real, after: real, k: real) {
    target - after == (1.0 - k) * (target - before)
  }

  lemma BlendClosesShare(before: real, target: real, k: real)
    ensures ClosesShare(before, target, Blend(before, target, k), k)
  {
  }

  // --------------------------------------------------------------- the inputs

  /** The clock step is the time elapsed, between nothing and a quarter of a second. */
  lemma StepIsClamped(dt: Option<real>)
    ensures 0.0 <= StepOf(dt) <= 0.25
    ensures dt.None? ==> StepOf(dt) == 0.0
    ensures dt.Some? && 0.0 <= dt.value <= 0.25 ==> StepOf(dt) == dt.value
    ensures dt.Some? && dt.value > 0.25 ==> StepOf(dt) == 0.25
  {
  }

  /** The sampled floor is the larger of the readings there are, and missing exactly when there is none. */
  lemma SampleIsHighest(plan: Plan, here: Option<real>, ahead: Option<real>)
    ensures SampledFloor(plan, Threw).None?
    ensures var r := SampledFloor(plan, Read(here, ahead));
            && (r.Some? <==> plan.hasFloorFn && (here.Some? || ahead.Some?))
            && (r.Some? ==> (r == here || r == ahead)
                            && (here.Some? ==> here.value <= r.value) && (ahead.Some? ==> ahead.value <= r.value))
  {
  }

  /** The plan is as asked: the route at the mean speed, half a second at least, and the seed under the camera. */
  lemma PlanIsAsAsked(total: real, meanMps: real, pathHeight: Option<real>, cameraHeight: Option<real>,
                      hasFloorFn: bool, hasProbe: bool, reduced: bool)
    requires total > 0.0 && meanMps > 0.0
    ensures var plan := PlanFor(total, meanMps, pathHeight, cameraHeight, hasFloorFn, hasProbe, reduced);
            && plan.total == total && plan.reduced == reduced
            && plan.hasFloorFn == hasFloorFn && plan.hasProbe == hasProbe
            && plan.duration == (if total >= 0.5 * meanMps then total / meanMps else 0.5)
            && plan.ramp == (if 2.4 < 0.35 * plan.duration then 2.4 / plan.duration else 0.35)
            && plan.safeHold == cameraHeight
            && var path := pathHeight.GetOr(0.0);
               && path <= plan.coldSeed <= path + 5000.0
               && (cameraHeight.None? ==> plan.coldSeed == path)
               && (cameraHeight.Some? && path <= cameraHeight.value - 260.0 <= path + 5000.0 ==>
                     plan.coldSeed == cameraHeight.value - 260.0)
  {
    assert (total / meanMps) * meanMps == total;
    HalfSecond(total, meanMps, total / meanMps);
    var duration := PlanFor(total, meanMps, pathHeight, cameraHeight, hasFloorFn, hasProbe, reduced).duration;
    RampByDuration(duration);
  }

  lemma HalfSecond(total: real, meanMps: real, time: real)
    requires meanMps > 0.0 && time * meanMps == total
    ensures time >= 0.5 <==> total >= 0.5 * meanMps
  {
    if time >= 0.5 {
      NonnegativeProduct(time - 0.5, meanMps);
      assert (time - 0.5) * meanMps == total - 0.5 * meanMps;
    } else {
      PositiveProduct(0.5 - time, meanMps);
      assert (0.5 - time) * meanMps == 0.5 * meanMps - total;
    }
  }

  lemma RampByDuration(duration: real)
    requires duration > 0.0
    ensures RampFraction(duration) == if 2.4 < 0.35 * duration then 2.4 / duration else 0.35
  {
    assert (2.4 / duration) * duration == 2.4;
    if 2.4 / duration < 0.35 {
      assert (0.35 - 2.4 / duration) * duration > 0.0;
    } else {
      assert (2.4 / duration - 0.35) * duration >= 0.0;
    }
  }

  // ------------------------------------------------------------------ the corridor

  /** The cells that the cache cannot answer for. */
  function ColdOnes(plan: Plan, corridor: Corridor): set<int> {
    set i | 0 <= i < |corridor.floors| && (!plan.hasFloorFn || corridor.floors[i].None?)
  }

  /** What can be adopted: a cached floor, or the probe's. */
  predicate InHand(plan: Plan, g: Ground, corridor: Corridor, x: real) {
    (plan.hasFloorFn && Some(x) in corridor.floors) || g.probeFloor == Some(x)
  }

  /** The highest of what is in hand. */
  ghost predicate Highest(plan: Plan, g: Ground, corridor: Corridor, x: real) {
    InHand(plan, g, corridor, x) && forall y :: InHand(plan, g, corridor, y) ==> y <= x
  }

  /** The probe is asked once, about cold cells only, and covers them when it sampled as many. */
  ghost predicate ProbesExactly(plan: Plan, ground: Ground, corridor: Corridor, g: Ground) {
    var cold := ColdOnes(plan, corridor);
    var asked := cold != {} && !ground.probeSpent && plan.hasProbe;
    var answered := asked && corridor.probe.Some? && corridor.probe.value.height.Some?;
    && g.probeSpent == (ground.probeSpent || asked)
    && g.probeFloor == (if answered then corridor.probe.value.height else ground.probeFloor)
    && g.probeCovers == (if answered then corridor.probe.value.sampled >= |cold| else ground.probeCovers)
    && g.armS == ground.armS
  }

  /** The floor becomes the highest in hand, or that and the old one's larger; nothing in hand leaves it. */
  ghost predicate AdoptsExactly(plan: Plan, ground: Ground, corridor: Corridor, takeWhole: bool, g: Ground) {
    if x :| Highest(plan, g, corridor, x) then
      && g.floor.Some?
      && exists top :: Highest(plan, g, corridor, top) &&
           g.floor.value == if takeWhole || ground.floor.None? then top else Max(ground.floor.value, top)
    else g.floor == ground.floor
  }

  function Missing(floors: seq<Option<real>>): set<int> {
    set i | 0 <= i < |floors| && floors[i].None?
  }

  lemma {:induction false} ColdIsCounted(floors: seq<Option<real>>)
    ensures |floors| - |KnownFloors(floors)| == |Missing(floors)|
  {
    if floors == [] {
      assert Missing(floors) == {};
    } else {
      var init, last := floors[..|floors| - 1], floors[|floors| - 1];
      ColdIsCounted(init);
      assert Missing(floors) == Missing(init) + (if last.None? then {|init|} else {});
    }
  }

  lemma ColdIsColdOnes(plan: Plan, corridor: Corridor)
    ensures Cold(plan, corridor) == |ColdOnes(plan, corridor)|
    ensures Cold(plan, corridor) > 0 <==> ColdOnes(plan, corridor) != {}
  {
    var answers := Answers(plan, corridor);
    ColdIsCounted(answers);
    assert Missing(answers) == ColdOnes(plan, corridor);
  }

  lemma EvidenceIsInHand(plan: Plan, g: Ground, corridor: Corridor, x: real)
    ensures x in Evidence(plan, g, corridor) <==> InHand(plan, g, corridor, x)
  {
    KnownFloorsAre(Answers(plan, corridor));
  }

  /** One look at the corridor, exactly: what it spends, what it adopts, and when it is resolved. */
  lemma AcquireIsExact(plan: Plan, ground: Ground, corridor: Corridor, takeWhole: bool)
    requires corridor.floors != []
    ensures var (g, resolved) := Acquire(plan, ground, corridor, takeWhole);
            && ProbesExactly(plan, ground, corridor, g)
            && AdoptsExactly(plan, ground, corridor, takeWhole, g)
            && (resolved <==> (exists x :: InHand(plan, g, corridor, x))
                              && (ColdOnes(plan, corridor) == {} || g.probeCovers))
            && g.known == (ground.known || resolved)
  {
    ColdIsColdOnes(plan, corridor);
    var g := Consulted(plan, ground, corridor);
    var all := Evidence(plan, g, corridor);
    hide Cold, ColdOnes, Evidence, InHand;
    forall x
      ensures x in all <==> InHand(plan, g, corridor, x)
    {
      EvidenceIsInHand(plan, g, corridor, x);
    }
    SameInHand(plan, g, Acquire(plan, ground, corridor, takeWhole).0, corridor);
    if all != [] {
      MaxOfBounds(all);
      assert Highest(plan, Acquire(plan, ground, corridor, takeWhole).0, corridor, MaxOf(all));
      assert InHand(plan, g, corridor, MaxOf(all));
    } else {
      assert forall x :: x !in all;
    }
  }

  /** A created flight stands at the start, wings level, and has looked at the corridor once. */
  lemma CreatedHasLooked(plan: Plan, corridor: Corridor)
    requires corridor.floors != []
    ensures var (s, unknown) := (Create(plan, corridor), Ground(None, false, 0.0, false, None, false));
            && s == Flight(0.0, 0.0, false, s.ground, Wings(0.0, 0.0, 0.0, 0.0), None, None)
            && ProbesExactly(plan, unknown, corridor, s.ground)
            && AdoptsExactly(plan, unknown, corridor, true, s.ground)
            && (s.ground.known <==> (exists x :: InHand(plan, s.ground, corridor, x))
                                    && (ColdOnes(plan, corridor) == {} || s.ground.probeCovers))
  {
    hide Acquire, ProbesExactly, AdoptsExactly, InHand, ColdOnes;
    AcquireIsExact(plan, Parked().ground, corridor, true);
  }

  lemma SameInHand(plan: Plan, g: Ground, g': Ground, corridor: Corridor)
    requires g'.probeFloor == g.probeFloor
    ensures forall x :: InHand(plan, g, corridor, x) <==> InHand(plan, g', corridor, x)
  {
  }

  // ------------------------------------------------------------------ the height

  /** The cruise height over the held floor, before any clamp. */
  function Cruising(ground: Ground, offset: real): real {
    ground.floor.GetOr(0.0) + 260.0 + offset
  }

  /** The largest of what asks for a height: the cruise, the sample, the launch hold, the descent cap. */
  predicate IsLargest(h: real, plan: Plan, ground: Ground, sampled: Option<real>, offset: real, previous: Option<real>,
                      step: real)
  {
    && h >= Cruising(ground, offset)
    && (sampled.Some? ==> h >= sampled.value + 90.0)
    && (!ground.known && plan.safeHold.Some? ==> h >= plan.safeHold.value)
    && (previous.Some? ==> h >= previous.value - 10.0 * step)
    && (|| h == Cruising(ground, offset)
        || (sampled.Some? && h == sampled.value + 90.0)
        || (!ground.known && plan.safeHold.Some? && h == plan.safeHold.value)
        || (previous.Some? && h == previous.value - 10.0 * step))
  }

  lemma HeightIsLargest(plan: Plan, ground: Ground, sampled: Option<real>, offset: real, previous: Option<real>, step: real)
    requires OffsetOk(Some(offset))
    ensures IsLargest(Height(plan, ground, sampled, offset, previous, step), plan, ground, sampled, offset, previous, step)
  {
  }

  /** With the floor known, no rise of over 150 m ahead and no descent to cap, the eye cruises. */
  lemma NothingClamps(plan: Plan, ground: Ground, sampled: Option<real>, offset: real, previous: Option<real>, step: real)
    requires OffsetOk(Some(offset)) && ground.known && ground.floor.Some?
    requires sampled.Some? ==> sampled.value <= ground.floor.value + 150.0
    requires previous.Some? ==> previous.value - 10.0 * step <= Cruising(ground, offset)
    ensures var h := Height(plan, ground, sampled, offset, previous, step);
            && h == ground.floor.value + 260.0 + offset
            && ground.floor.value + 240.0 <= h <= ground.floor.value + 286.0
  {
    HeightIsLargest(plan, ground, sampled, offset, previous, step);
  }

  // -------------------------------------------------------------- one departed frame

  function TargetBank(plan: Plan, f: Frame): real {
    if plan.reduced || f.turnRate.None? then 0.0
    else if f.turnRate.value * 0.44 > 10.0 then 10.0
    else if f.turnRate.value * 0.44 < -10.0 then -10.0
    else f.turnRate.value * 0.44
  }

  /** Breath with the wings level, lift at full bank, shared in between. */
  function TargetOffset(plan: Plan, f: Frame, lift: real): real {
    var share := Abs(lift) / 10.0;
    if plan.reduced then 0.0 else f.wave * 20.0 * (1.0 - share) + 26.0 * share
  }

  /** Place and speed, from the profile. */
  predicate TravelsExactly(plan: Plan, s: Flight, f: Frame, after: Flight, pose: Pose)
    requires PlanOk(plan) && pose.Pose?
  {
    && after.departed
    && after.u == Min(1.0, s.u + StepOf(f.dt) / plan.duration)
    && after.traveled == plan.total * Distance(after.u, plan.ramp)
    && pose.progress == after.u && (pose.finished <==> after.u == 1.0)
    && pose.speed == plan.total / (plan.duration * (1.0 - plan.ramp)) * Speed(after.u, plan.ramp)
  }

  /** The cascade of smoothers from the planned turn to the roll and the lift. */
  predicate RollsExactly(plan: Plan, s: Flight, f: Frame, after: Flight, pose: Pose)
    requires pose.Pose?
  {
    && ClosesShare(s.wings.lead, TargetBank(plan, f), after.wings.lead, f.factors.lead)
    && ClosesShare(s.wings.bank, after.wings.lead, after.wings.bank, f.factors.settle)
    && after.wings.applied == after.wings.bank * Speed(after.u, plan.ramp)
    && ClosesShare(s.wings.lift, after.wings.applied, after.wings.lift, f.factors.lift)
    && pose.roll == after.wings.applied
  }

  /** The held floor follows the sample, and without one stays, or falls back on the seed. */
  predicate HoldsFloorExactly(plan: Plan, s: Flight, f: Frame, after: Flight) {
    var sampled := SampledFloor(plan, f.sample);
    && after.ground == s.ground.(floor := after.ground.floor, known := after.ground.known)
    && (after.ground.known <==> s.ground.known || sampled.Some?)
    && after.ground.floor.Some?
    && (sampled.None? ==> after.ground.floor.value == s.ground.floor.GetOr(plan.coldSeed))
    && (sampled.Some? && s.ground.floor.None? ==> after.ground.floor == sampled)
    && (sampled.Some? && s.ground.floor.Some? ==>
          ClosesShare(s.ground.floor.value, sampled.value, after.ground.floor.value, f.factors.floor))
  }

  /** The altitude shaping and the height, with the pose reporting it. */
  predicate FliesExactly(plan: Plan, s: Flight, f: Frame, after: Flight, pose: Pose)
    requires pose.Pose?
  {
    && after.offset.Some? && after.height == Some(pose.height) && after.ground.floor.Some?
    && (s.offset.None? ==> after.offset.value == TargetOffset(plan, f, after.wings.lift))
    && (s.offset.Some? ==>
          ClosesShare(s.offset.value, TargetOffset(plan, f, after.wings.lift), after.offset.value, f.factors.altitude))
    && IsLargest(pose.height, plan, after.ground, SampledFloor(plan, f.sample), after.offset.value, s.height, StepOf(f.dt))
    && pose.agl == pose.height - after.ground.floor.value
  }

  /** Nothing on this frame asks for more than the cruise. */
  predicate Unclamped(plan: Plan, s: Flight, f: Frame, after: Flight)
    requires after.ground.floor.Some? && after.offset.Some?
  {
    && after.ground.known
    && (SampledFloor(plan, f.sample).Some? ==>
          SampledFloor(plan, f.sample).value <= after.ground.floor.value + 150.0)
    && (s.height.Some? ==>
          s.height.value - 10.0 * StepOf(f.dt) <= after.ground.floor.value + 260.0 + after.offset.value)
  }

  predicate FrameIsExact(plan: Plan, s: Flight, f: Frame, after: Flight, pose: Pose)
    requires PlanOk(plan) && pose.Pose?
  {
    && TravelsExactly(plan, s, f, after, pose)
    && RollsExactly(plan, s, f, after, pose)
    && HoldsFloorExactly(plan, s, f, after)
    && FliesExactly(plan, s, f, after, pose)
  }

  lemma DepartTravels(plan: Plan, s: Flight, f: Frame)
    requires PlanOk(plan) && FlightOk(plan, s)
    ensures var (after, pose) := Depart(plan, s, f, StepOf(f.dt)); pose.Pose? && TravelsExactly(plan, s, f, after, pose)
  {
    hide Distance, Speed, Banked, BankTarget, Blend, AltitudeOffset, Height, Grounded, SampledFloor;
  }

  lemma DepartRollsExactly(plan: Plan, s: Flight, f: Frame)
    requires PlanOk(plan)
    ensures var (after, pose) := Depart(plan, s, f, StepOf(f.dt)); pose.Pose? && RollsExactly(plan, s, f, after, pose)
  {
    hide Distance, Speed, AltitudeOffset, Height, Grounded, SampledFloor, Travel, GroundSpeed, Advanced, Blend, ClosesShare;
    var after := Depart(plan, s, f, StepOf(f.dt)).0;
    var target := BankTarget(f.turnRate, plan.reduced);
    assert target == TargetBank(plan, f);
    hide BankTarget;
    BlendClosesShare(s.wings.lead, target, f.factors.lead);
    BlendClosesShare(s.wings.bank, after.wings.lead, f.factors.settle);
    BlendClosesShare(s.wings.lift, after.wings.applied, f.factors.lift);
  }

  lemma DepartHoldsFloor(plan: Plan, s: Flight, f: Frame)
    requires PlanOk(plan)
    ensures HoldsFloorExactly(plan, s, f, Depart(plan, s, f, StepOf(f.dt)).0)
  {
    hide Distance, Speed, AltitudeOffset, Height, SampledFloor, Travel, GroundSpeed, Advanced, Blend, ClosesShare;
    hide Banked, BankTarget;
    var sampled := SampledFloor(plan, f.sample);
    if sampled.Some? && s.ground.floor.Some? {
      BlendClosesShare(s.ground.floor.value, sampled.value, f.factors.floor);
    }
  }

  /** The lift is within its cap, so its share of the full bank needs no clamp. */
  lemma OffsetAsShared(plan: Plan, f: Frame, lift: real)
    requires Rolled(lift)
    ensures Shaping(plan, f, lift) == TargetOffset(plan, f, lift)
  {
    var fraction := lift / 10.0;
    assert -1.0 <= fraction <= 1.0;
    assert Abs(fraction) == Abs(lift) / 10.0;
  }

  lemma DepartFlies(plan: Plan, s: Flight, f: Frame)
    requires PlanOk(plan) && FrameOk(f) && FlightOk(plan, s)
    ensures var (after, pose) := Depart(plan, s, f, StepOf(f.dt)); pose.Pose? && FliesExactly(plan, s, f, after, pose)
  {
    DepartRolls(plan, s, f);
    hide Distance, Speed, AltitudeOffset, Height, SampledFloor, Travel, GroundSpeed, Advanced, Blend, ClosesShare;
    hide Banked, BankTarget, Shaping, TargetOffset, FloorHold, IsLargest;
    var after := Depart(plan, s, f, StepOf(f.dt)).0;
    HeightIsLargest(plan, after.ground, SampledFloor(plan, f.sample), after.offset.value, s.height, StepOf(f.dt));
    OffsetAsShared(plan, f, after.wings.lift);
    if s.offset.Some? {
      BlendClosesShare(s.offset.value, Shaping(plan, f, after.wings.lift), f.factors.altitude);
    }
  }

  // ----------------------------------------------------------------------- runs

  /** The flight as it stands when a frame departs: an arming frame has looked at the corridor first. */
  function Ready(plan: Plan, s: Flight, f: Frame): Flight {
    if Arms(plan, s) then s.(ground := Looked(plan, s, f).0) else s
  }

  /** The look at the corridor that an arming frame takes, after its time has passed. */
  function Looked(plan: Plan, s: Flight, f: Frame): (Ground, bool) {
    Acquire(plan, s.ground.(armS := s.ground.armS + StepOf(f.dt)), f.corridor, true)
  }

  /** Waiting for the ground: it can answer, it has not, and 1.2 seconds have not passed. */
  predicate Waits(plan: Plan, s: Flight, f: Frame) {
    && (plan.hasFloorFn || plan.hasProbe) && !s.ground.known && !s.departed && s.ground.armS < 1.2
    && !Looked(plan, s, f).1
  }

  lemma AdvanceIsExact(plan: Plan, s: Flight, f: Frame)
    requires PlanOk(plan) && FlightOk(plan, s) && FrameOk(f)
    ensures var (after, pose) := Advance(plan, s, f);
            && (pose.Arming? <==> Waits(plan, s, f))
            && (pose.Arming? ==> after == s.(ground := Looked(plan, s, f).0))
            && (pose.Pose? ==>
                  && FrameIsExact(plan, Ready(plan, s, f), f, after, pose)
                  && (Unclamped(plan, s, f, after) ==>
                        && pose.height == after.ground.floor.value + 260.0 + after.offset.value
                        && 240.0 <= pose.agl <= 286.0))
  {
    hide Acquire, Depart, TravelsExactly, RollsExactly, HoldsFloorExactly, IsLargest;
    AdvanceIsReady(plan, s, f);
    if Advance(plan, s, f).1.Pose? {
      ReadyIsOk(plan, s, f);
      DepartIsExact(plan, Ready(plan, s, f), f);
      CruisesUnclamped(plan, Ready(plan, s, f), f);
    }
  }

  lemma AdvanceIsReady(plan: Plan, s: Flight, f: Frame)
    requires PlanOk(plan)
    ensures Waits(plan, s, f) ==> Advance(plan, s, f) == (s.(ground := Looked(plan, s, f).0), Arming)
    ensures !Waits(plan, s, f) ==> Advance(plan, s, f) == Depart(plan, Ready(plan, s, f), f, StepOf(f.dt))
    ensures Depart(plan, Ready(plan, s, f), f, StepOf(f.dt)).1.Pose?
    ensures Ready(plan, s, f).height == s.height
  {
    hide Acquire, Travel, GroundSpeed, Distance, Speed, Cruise, Banked, AltitudeOffset, Blend, Height, Grounded;
  }

  lemma ReadyIsOk(plan: Plan, s: Flight, f: Frame)
    requires PlanOk(plan) && FlightOk(plan, s)
    ensures FlightOk(plan, Ready(plan, s, f))
  {
    hide Acquire, Distance;
    if Arms(plan, s) {
      ArmedKeeps(plan, s, f);
    }
  }

  lemma DepartIsExact(plan: Plan, s: Flight, f: Frame)
    requires PlanOk(plan) && FrameOk(f) && FlightOk(plan, s)
    ensures var (after, pose) := Depart(plan, s, f, StepOf(f.dt)); pose.Pose? && FrameIsExact(plan, s, f, after, pose)
  {
    hide Depart, TravelsExactly, RollsExactly, HoldsFloorExactly, FliesExactly;
    DepartTravels(plan, s, f);
    DepartRollsExactly(plan, s, f);
    DepartHoldsFloor(plan, s, f);
    DepartFlies(plan, s, f);
  }

  lemma CruisesUnclamped(plan: Plan, s: Flight, f: Frame)
    requires PlanOk(plan) && FrameOk(f) && FlightOk(plan, s)
    ensures var (after, pose) := Depart(plan, s, f, StepOf(f.dt));
            && pose.Pose? && after.ground.floor.Some? && after.offset.Some?
            && (Unclamped(plan, s, f, after) ==>
                  && pose.height == after.ground.floor.value + 260.0 + after.offset.value
                  && 240.0 <= pose.agl <= 286.0)
  {
    DepartRolls(plan, s, f);
    DepartIsExact(plan, s, f);
    hide Depart, TravelsExactly, RollsExactly, HoldsFloorExactly;
  }

  /**
   * Every frame of every flight, exactly: it waits while it should, and else
   * travels by the profile, rolls through its smoothers, holds the floor and
   * flies 260 m plus the smoothed offset over it, unless a clamp binds.
   */
  lemma EveryFrameIsExact(plan: Plan, corridor: Corridor, frames: seq<Frame>, f: Frame)
    requires PlanOk(plan) && FramesOk(frames) && FrameOk(f)
    ensures var s := Run(plan, Create(plan, corridor), frames);
            var (after, pose) := Advance(plan, s, f);
            && (pose.Arming? <==> Waits(plan, s, f))
            && (pose.Arming? ==> after == s.(ground := Looked(plan, s, f).0))
            && (pose.Pose? ==>
                  && FrameIsExact(plan, Ready(plan, s, f), f, after, pose)
                  && (Unclamped(plan, s, f, after) ==>
                        && pose.height == after.ground.floor.value + 260.0 + after.offset.value
                        && 240.0 <= pose.agl <= 286.0))
  {
    hide Acquire, Depart, FrameIsExact;
    CreatedIsOk(plan, corridor);
    RunKeepsFlight(plan, Create(plan, corridor), frames);
    AdvanceIsExact(plan, Run(plan, Create(plan, corridor), frames), f);
  }
}
