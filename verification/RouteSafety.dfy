/**
 * What every frame of a route flight keeps, and what every pose it applies
 * promises, whatever the terrain readings, the steps and the smoothing.
 */
module RouteSafety {
  import opened Numbers
  import opened Options
  import opened RouteProfile
  import opened RouteFlight

  const MIN_OFFSET_M: real := -20.0
  const MAX_OFFSET_M: real := 26.0
  const MAX_ARM_S: real := 1.45

  /** The smoothing factors are `1 - e^(-x)` with `x >= 0`, the wave is a sine. */
  predicate FrameOk(f: Frame) {
    && Unit(f.factors.lead) && Unit(f.factors.settle) && Unit(f.factors.floor)
    && Unit(f.factors.lift) && Unit(f.factors.altitude)
    && -1.0 <= f.wave <= 1.0
  }

  predicate Rolled(angle: real) {
    -BANK_MAX_DEG <= angle <= BANK_MAX_DEG
  }

  predicate WingsOk(w: Wings) {
    Rolled(w.lead) && Rolled(w.bank) && Rolled(w.applied) && Rolled(w.lift)
  }

  predicate OffsetOk(offset: Option<real>) {
    offset.Some? ==> MIN_OFFSET_M <= offset.value <= MAX_OFFSET_M
  }

  predicate GroundOk(g: Ground) {
    && 0.0 <= g.armS < MAX_ARM_S
    && (g.known ==> g.floor.Some?)
  }

  predicate PlaceOk(plan: Plan, s: Flight)
    requires PlanOk(plan)
  {
    && Unit(s.u)
    && s.traveled == Travel(plan, s.u)
    && (if s.departed then s.height.Some? else s.u == 0.0 && s.height.None?)
  }

  predicate FlightOk(plan: Plan, s: Flight)
    requires PlanOk(plan)
  {
    PlaceOk(plan, s) && GroundOk(s.ground) && WingsOk(s.wings) && OffsetOk(s.offset)
  }

  // ------------------------------------------------------------------ smoothers

  lemma BlendBetween(c: real, t: real, k: real, low: real, high: real)
    requires Unit(k) && low <= c <= high && low <= t <= high
    ensures low <= Blend(c, t, k) <= high
  {
    NonnegativeProduct(c - low, 1.0 - k);
    NonnegativeProduct(t - low, k);
    NonnegativeProduct(high - c, 1.0 - k);
    NonnegativeProduct(high - t, k);
    assert Blend(c, t, k) - low == (c - low) * (1.0 - k) + (t - low) * k;
    assert high - Blend(c, t, k) == (high - c) * (1.0 - k) + (high - t) * k;
  }

  /**
   * One smoothing step closes exactly the share `k` of the gap, so it never
   * overshoots; a missing value adopts the other.
   */
  lemma ApproachClosesGap(current: Option<real>, target: Option<real>, k: real)
    requires Unit(k)
    ensures var r := ApproachValue(current, target, k);
            && (r.None? <==> current.None? && target.None?)
            && (current.None? ==> r == target)
            && (target.None? ==> r == current)
            && (current.Some? && target.Some? ==>
                  && Abs(target.value - r.value) == (1.0 - k) * Abs(target.value - current.value)
                  && Min(current.value, target.value) <= r.value <= Max(current.value, target.value))
  {
    if current.Some? && target.Some? {
      var (c, t) := (current.value, target.value);
      BlendBetween(c, t, k, Min(c, t), Max(c, t));
      assert t - Blend(c, t, k) == (1.0 - k) * (t - c);
      assert (1.0 - k) * (c - t) == -((1.0 - k) * (t - c));
    }
  }

  /** The held floor lies between the old one and the sample, and a missing sample keeps it. */
  lemma FloorHoldLags(previous: Option<real>, sampled: Option<real>, k: real)
    requires Unit(k)
    ensures var r := FloorHold(previous, sampled, k);
            && (sampled.None? ==> r == previous)
            && (previous.None? ==> r == sampled)
            && (previous.Some? && sampled.Some? ==>
                  r.Some? && Min(previous.value, sampled.value) <= r.value <= Max(previous.value, sampled.value))
  {
    ApproachClosesGap(previous, sampled, k);
  }

  /** The seed is a floor the launch altitude defends: cruising over it never starts above the camera, cap aside. */
  lemma ColdSeedIsDefended(pathHeight: Option<real>, cameraHeight: Option<real>)
    ensures var (seed, base) := (ColdSeed(pathHeight, cameraHeight), pathHeight.GetOr(0.0));
            && base <= seed <= base + UNKNOWN_FLOOR_CAP_M
            && (seed > base ==> cameraHeight.Some? && seed + CAMERA_HEIGHT_M <= cameraHeight.value)
            && (cameraHeight.Some? && base <= cameraHeight.value - CAMERA_HEIGHT_M <= base + UNKNOWN_FLOOR_CAP_M
                ==> seed + CAMERA_HEIGHT_M == cameraHeight.value)
  {
  }

  /** Banking follows the planned turn: same side, never less for a sharper turn, mirrored for the other side. */
  lemma BankFollowsTurn(x: real, y: real)
    requires x <= y
    ensures BankTarget(Some(x), false) <= BankTarget(Some(y), false)
    ensures BankTarget(Some(-x), false) == -BankTarget(Some(x), false)
    ensures x > 0.0 ==> BankTarget(Some(x), false) > 0.0
    ensures Rolled(BankTarget(Some(x), false))
    ensures BankTarget(Some(x), true) == 0.0 == BankTarget(None, false)
  {
  }

  /** The breath fades as the bank comes in; at full bank only the lift is left, wings level only the breath. */
  lemma BreathFadesIntoLift(wave: real, fraction: real)
    ensures Abs(fraction) >= 1.0 ==> AltitudeOffset(wave, fraction, false) == TURN_LIFT_M
    ensures AltitudeOffset(wave, 0.0, false) == wave * BREATH_M
    ensures AltitudeOffset(wave, fraction, false) + AltitudeOffset(-wave, fraction, false)
            == 2.0 * TURN_LIFT_M * Min(1.0, Abs(fraction))
    ensures AltitudeOffset(wave, fraction, true) == 0.0
  {
    var bank := Abs(Max(-1.0, Min(1.0, fraction)));
    assert bank == Min(1.0, Abs(fraction));
    assert (-wave) * BREATH_M * (1.0 - bank) == -(wave * BREATH_M * (1.0 - bank));
  }

  lemma ShrinkKeepsRoll(angle: real, k: real)
    requires Rolled(angle) && Unit(k)
    ensures Rolled(angle * k)
  {
    NonnegativeProduct(BANK_MAX_DEG - angle, k);
    NonnegativeProduct(BANK_MAX_DEG + angle, k);
    assert BANK_MAX_DEG * k - angle * k >= 0.0;
    assert BANK_MAX_DEG * k + angle * k >= 0.0;
  }

  lemma RollIsCapped(w: Wings, target: real, k: Factors, speed: real)
    requires WingsOk(w) && Rolled(target) && Unit(speed)
    requires Unit(k.lead) && Unit(k.settle) && Unit(k.lift)
    ensures WingsOk(Banked(w, target, k, speed))
    ensures speed == 0.0 ==> Banked(w, target, k, speed).applied == 0.0
  {
    hide Blend;
    var lead := Blend(w.lead, target, k.lead);
    BlendBetween(w.lead, target, k.lead, -BANK_MAX_DEG, BANK_MAX_DEG);
    var bank := Blend(w.bank, lead, k.settle);
    BlendBetween(w.bank, lead, k.settle, -BANK_MAX_DEG, BANK_MAX_DEG);
    ShrinkKeepsRoll(bank, speed);
    var applied := bank * speed;
    BlendBetween(w.lift, applied, k.lift, -BANK_MAX_DEG, BANK_MAX_DEG);
    assert Banked(w, target, k, speed) == Wings(lead, bank, applied, Blend(w.lift, applied, k.lift));
  }

  lemma OffsetIsBounded(wave: real, bankFraction: real, reduced: bool)
    requires -1.0 <= wave <= 1.0
    ensures MIN_OFFSET_M <= AltitudeOffset(wave, bankFraction, reduced) <= MAX_OFFSET_M
  {
    var bank := Abs(Max(-1.0, Min(1.0, bankFraction)));
    BlendBetween(wave * BREATH_M, TURN_LIFT_M, bank, MIN_OFFSET_M, MAX_OFFSET_M);
  }

  lemma SmoothedOffset(offset: Option<real>, wave: real, bankFraction: real, reduced: bool, k: real)
    requires OffsetOk(offset) && -1.0 <= wave <= 1.0 && Unit(k)
    ensures var shaping := AltitudeOffset(wave, bankFraction, reduced);
            OffsetOk(Some(if offset.Some? then Blend(offset.value, shaping, k) else shaping))
  {
    hide Blend, AltitudeOffset;
    OffsetIsBounded(wave, bankFraction, reduced);
    if offset.Some? {
      BlendBetween(offset.value, AltitudeOffset(wave, bankFraction, reduced), k, MIN_OFFSET_M, MAX_OFFSET_M);
    }
  }

  // ------------------------------------------------------------------- altitude

  /** The clamps in one place: what an eye height promises for any ground and previous height. */
  lemma HeightIsSafe(plan: Plan, ground: Ground, sampled: Option<real>, offset: real, previous: Option<real>, step: real)
    requires OffsetOk(Some(offset)) && step >= 0.0
    ensures var h := Height(plan, ground, sampled, offset, previous, step);
            && (sampled.Some? ==> h >= sampled.value + MIN_CLEARANCE_M)
            && h >= ground.floor.GetOr(0.0) + MIN_CLEARANCE_M
            && (!ground.known && plan.safeHold.Some? ==> h >= plan.safeHold.value)
            && (previous.Some? ==> h >= previous.value - MAX_DESCENT_MPS * step)
  {
  }

  /** No clamp lifts the eye above the launch altitude and 286 m over the highest floor. */
  lemma HeightIsBounded(plan: Plan, ground: Ground, sampled: Option<real>, offset: real, previous: Option<real>,
                        step: real, top: real, ceiling: real)
    requires OffsetOk(Some(offset)) && step >= 0.0
    requires ground.floor.Some? && ground.floor.value <= top
    requires sampled.Some? ==> sampled.value <= top
    requires top + CAMERA_HEIGHT_M + MAX_OFFSET_M <= ceiling
    requires plan.safeHold.Some? ==> plan.safeHold.value <= ceiling
    requires previous.Some? ==> previous.value <= ceiling
    ensures Height(plan, ground, sampled, offset, previous, step) <= ceiling
  {
  }

  lemma FloorIsBounded(plan: Plan, ground: Ground, sampled: Option<real>, k: real, top: real)
    requires Unit(k)
    requires sampled.Some? ==> sampled.value <= top
    requires ground.floor.GetOr(plan.coldSeed) <= top || (ground.floor.None? && sampled.Some?)
    ensures var g := Grounded(plan, ground, sampled, k); g.floor.Some? && g.floor.value <= top
  {
    if sampled.Some? && ground.floor.Some? {
      var low := Min(sampled.value, ground.floor.value);
      BlendBetween(ground.floor.value, sampled.value, k, low, top);
    }
  }

  // ------------------------------------------------------------ corridor floor

  lemma {:induction false} MaxOfBounds(s: seq<real>)
    requires s != []
    ensures MaxOf(s) in s && forall x <- s :: x <= MaxOf(s)
  {
    if |s| > 1 {
      MaxOfBounds(s[..|s| - 1]);
      assert s == s[..|s| - 1] + [s[|s| - 1]];
    }
  }

  lemma {:induction false} KnownFloorsAre(floors: seq<Option<real>>)
    ensures |KnownFloors(floors)| <= |floors|
    ensures |KnownFloors(floors)| == |floors| <==> forall i :: 0 <= i < |floors| ==> floors[i].Some?
    ensures forall x :: x in KnownFloors(floors) <==> Some(x) in floors
  {
    if floors != [] {
      var init, last := floors[..|floors| - 1], floors[|floors| - 1];
      KnownFloorsAre(init);
      assert floors == init + [last];
    }
  }

  /**
   * The corridor is resolved exactly when there is a floor to adopt and no cell
   * is left unaccounted for: all cached, or a probe covered the cold ones. What
   * is adopted is then at least every reading in hand, and is one of them.
   */
  lemma AcquireResolves(plan: Plan, ground: Ground, corridor: Corridor)
    ensures var (g, resolved) := Acquire(plan, ground, corridor, true);
            var known := Answers(plan, corridor);
            && (resolved <==> && corridor.floors != []
                              && ((exists x :: Some(x) in known) || g.probeFloor.Some?)
                              && ((forall i :: 0 <= i < |known| ==> known[i].Some?) || g.probeCovers))
            && (resolved ==> g.known && g.floor.Some?)
            && (!resolved ==> g.known == ground.known)
            && (corridor.floors != [] ==> forall x :: Some(x) in known ==> g.floor.Some? && g.floor.value >= x)
            && (g.floor == ground.floor || (g.floor.Some? && (g.floor in known || g.floor == g.probeFloor)))
            && g.armS == ground.armS
  {
    var known := Answers(plan, corridor);
    KnownFloorsAre(known);
    var g := Consulted(plan, ground, corridor);
    var all := Evidence(plan, g, corridor);
    if all != [] {
      MaxOfBounds(all);
    } else {
      assert forall x :: x !in KnownFloors(known);
    }
    forall x | Some(x) in known
      ensures x in all
    {
      assert x in KnownFloors(known);
    }
  }

  /** The mesh probe is consulted at most once: consulting spends it for good. */
  lemma ProbeIsSpent(plan: Plan, ground: Ground, corridor: Corridor)
    ensures var g := Acquire(plan, ground, corridor, true).0;
            && (ground.probeSpent ==> g.probeSpent && g.probeFloor == ground.probeFloor && g.probeCovers == ground.probeCovers)
            && (g.probeSpent && !ground.probeSpent <==> corridor.floors != [] && Probes(plan, ground, corridor))
            && (!g.probeSpent ==> g.probeFloor == ground.probeFloor)
  {
  }

  // ------------------------------------------------------------------ one frame

  lemma TravelIsExact(plan: Plan, u: real, step: real)
    requires PlanOk(plan) && Unit(u) && step >= 0.0
    ensures var v := Advanced(plan, u, step);
            && Unit(v) && u <= v
            && 0.0 <= Travel(plan, v) - Travel(plan, u) <= Cruise(plan) * step
            && (v >= 1.0 ==> Travel(plan, v) == plan.total && Speed(v, plan.ramp) == 0.0)
  {
    hide Distance, Speed, Cruise;
    var v := Advanced(plan, u, step);
    var dt := step / plan.duration;
    DivideBack(step, plan.duration);
    assert dt >= 0.0;
    Gained(plan, u, v, dt, step);
    if v >= 1.0 {
      ProfileEnds(plan.ramp);
      SpeedIsUnit(1.0, plan.ramp);
    }
  }

  lemma Gained(plan: Plan, u: real, v: real, dt: real, step: real)
    requires PlanOk(plan) && 0.0 <= u <= v <= 1.0
    requires v - u <= dt && dt * plan.duration == step
    ensures 0.0 <= Travel(plan, v) - Travel(plan, u) <= Cruise(plan) * step
  {
    hide Distance;
    var gain := Distance(v, plan.ramp) - Distance(u, plan.ramp);
    ProfileIsLipschitz(u, v, plan.ramp);
    CruiseBound(plan.total, plan.duration, 1.0 - plan.ramp, gain, dt, step);
    assert plan.total * gain == plan.total * Distance(v, plan.ramp) - plan.total * Distance(u, plan.ramp);
  }

  lemma CruiseBound(total: real, duration: real, flat: real, gain: real, dt: real, step: real)
    requires total > 0.0 && duration > 0.0 && flat > 0.0 && gain >= 0.0
    requires gain * flat <= dt && dt * duration == step
    ensures 0.0 <= total * gain <= total / (duration * flat) * step
  {
    var area := duration * flat;
    assert area > 0.0;
    var cruise := total / area;
    assert cruise * area == total;
    assert cruise > 0.0;
    assert gain * flat * duration <= dt * duration;
    assert gain * area == gain * flat * duration;
    assert cruise * (gain * area) <= cruise * step;
    assert cruise * (gain * area) == (cruise * area) * gain == total * gain;
  }
}
