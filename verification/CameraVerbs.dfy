/**
 * The route flight as the camera code runs it: a state object updated in place
 * frame by frame, the arc-length binary search and the corridor cell walk.
 */
module CameraVerbs {
  import opened Numbers
  import opened Options
  import opened RouteProfile
  import opened RouteFlight
  import opened RouteSafety
  import opened RouteRuns

  const MIN_SEGMENT_M: real := 0.000001
  const WARM_STEP_M: real := 55.0
  const WARM_START_M: real := 4000.0
  const LOOKAHEAD_S: real := 6.5
  const LOOKAHEAD_MIN_M: real := 120.0
  const LOOKAHEAD_MAX_M: real := 600.0
  const PROBE_CELLS: nat := 8

  // ------------------------------------------------------------- arc-length lookup

  /** Cumulative arc lengths of a flyable route. */
  ghost predicate ArcTable(cumM: seq<real>) {
    && |cumM| >= 2 && cumM[0] == 0.0 && cumM[|cumM| - 1] > 0.0
    && forall i, j :: 0 <= i <= j < |cumM| ==> cumM[i] <= cumM[j]
  }

  function Clamped(total: real, s: real): real {
    Min(total, Max(0.0, s))
  }

  function Along(a: real, b: real, t: real): real {
    a + t * (b - a)
  }

  /** Segment and fraction of the point at arc length `s`, found by binary search. */
  method ArcPoint(cumM: seq<real>, s: real) returns (lo: nat, t: real)
    requires ArcTable(cumM)
    ensures lo + 1 < |cumM| && Unit(t)
    ensures var at := Clamped(cumM[|cumM| - 1], s);
            && cumM[lo] <= at <= cumM[lo + 1]
            && (at < cumM[lo + 1] || lo + 2 == |cumM|)
            && 0.0 <= at - Along(cumM[lo], cumM[lo + 1], t) <= MIN_SEGMENT_M
            && (cumM[lo + 1] - cumM[lo] > MIN_SEGMENT_M ==> Along(cumM[lo], cumM[lo + 1], t) == at)
  {
    hide Along;
    var at := Clamped(cumM[|cumM| - 1], s);
    lo := 0;
    var hi := |cumM| - 2;
    while lo < hi
      invariant lo <= hi <= |cumM| - 2
      invariant cumM[lo] <= at
      invariant at < cumM[hi + 1] || hi + 2 == |cumM|
    {
      var mid := (lo + hi + 1) / 2;
      if cumM[mid] <= at {
        lo := mid;
      } else {
        hi := mid - 1;
      }
    }
    t := SegmentFraction(cumM[lo], cumM[lo + 1], at);
  }

  lemma FractionLands(a: real, b: real, at: real, t: real)
    requires a <= at <= b && a < b && t == (at - a) / (b - a)
    ensures Unit(t) && Along(a, b, t) == at
  {
    var part, segment := at - a, b - a;
    DivideBack(part, segment);
    SignOf(t, segment);
    assert (1.0 - t) * segment == segment - part;
    SignOf(1.0 - t, segment);
  }

  /** Segments shorter than a micrometre are stood on at their start. */
  method SegmentFraction(a: real, b: real, at: real) returns (t: real)
    requires a <= at <= b
    ensures Unit(t)
    ensures if b - a > MIN_SEGMENT_M then Along(a, b, t) == at else t == 0.0
    ensures 0.0 <= at - Along(a, b, t) <= MIN_SEGMENT_M
  {
    var part, segment := at - a, b - a;
    if segment > MIN_SEGMENT_M {
      hide Along;
      FractionLands(a, b, at, part / segment);
      t := Min(1.0, Max(0.0, part / segment));
    } else {
      t := 0.0;
    }
  }

  // --------------------------------------------------------------- corridor cells

  datatype Cell = Cell(lat: int, lon: int)

  function Samples(cellAt: real -> Cell, start: real, n: nat): seq<Cell> {
    seq(n, k requires 0 <= k < n => cellAt(SampleAt(start, k)))
  }

  function SampleAt(start: real, k: nat): real {
    start + k as real * WARM_STEP_M
  }

  /** Each cell where it first occurs. */
  function FirstOccurrences(cells: seq<Cell>): seq<Cell> {
    if cells == [] then [] else
      var before, last := FirstOccurrences(cells[..|cells| - 1]), cells[|cells| - 1];
      if last in before then before else before + [last]
  }

  predicate Distinct(cells: seq<Cell>) {
    forall i, j :: 0 <= i < j < |cells| ==> cells[i] != cells[j]
  }

  lemma AppendKeepsDistinct(cells: seq<Cell>, cell: Cell)
    requires Distinct(cells)
    ensures cell !in cells ==> Distinct(cells + [cell])
  {
  }

  lemma {:induction false} OccurrencesAreDistinct(cells: seq<Cell>)
    ensures var out := FirstOccurrences(cells);
            && Distinct(out)
            && (forall c :: c in out <==> c in cells)
  {
    if cells != [] {
      OccurrencesAreDistinct(cells[..|cells| - 1]);
      assert cells == cells[..|cells| - 1] + [cells[|cells| - 1]];
      AppendKeepsDistinct(FirstOccurrences(cells[..|cells| - 1]), cells[|cells| - 1]);
    }
  }

  /** The cells met from `s` on, after those in `out`, until the stretch or the cap ends. */
  function Walk(cellAt: real -> Cell, s: real, end: real, out: seq<Cell>, maxCells: nat): seq<Cell>
    decreases end + MIN_SEGMENT_M - s
  {
    if s > end + MIN_SEGMENT_M || |out| >= maxCells then out
    else Walk(cellAt, s + WARM_STEP_M, end, if cellAt(s) in out then out else out + [cellAt(s)], maxCells)
  }

  /**
   * The distinct cells along a stretch, in travel order: every sample of the
   * stretch is covered unless the cap was reached, and the cap is never passed.
   */
  method CorridorCells(cellAt: real -> Cell, total: real, fromM: real, spanM: real, maxCells: nat)
    returns (out: seq<Cell>, ghost n: nat)
    ensures out == FirstOccurrences(Samples(cellAt, Clamped(total, fromM), n))
    ensures total > 0.0 && spanM > 0.0 ==>
              out == Walk(cellAt, Clamped(total, fromM), Clamped(total, fromM + spanM), [], maxCells)
    ensures |out| <= maxCells
    ensures total > 0.0 && spanM > 0.0 ==>
              |out| == maxCells ||
              SampleAt(Clamped(total, fromM), n) > Clamped(total, fromM + spanM) + MIN_SEGMENT_M
    ensures total > 0.0 && spanM > 0.0 && maxCells > 0 ==> out != []
  {
    out, n := [], 0;
    if total <= 0.0 || spanM <= 0.0 || maxCells == 0 {
      return;
    }
    var s := Clamped(total, fromM);
    var end := Clamped(total, fromM + spanM);
    ghost var start := s;
    while s <= end + MIN_SEGMENT_M && |out| < maxCells
      invariant s == SampleAt(start, n)
      invariant out == FirstOccurrences(Samples(cellAt, start, n))
      invariant Walk(cellAt, s, end, out, maxCells) == Walk(cellAt, start, end, [], maxCells)
      invariant |out| <= maxCells
      invariant n > 0 ==> out != []
      decreases end + MIN_SEGMENT_M - s
    {
      var cell := cellAt(s);
      assert (n + 1) as real * WARM_STEP_M == n as real * WARM_STEP_M + WARM_STEP_M;
      assert Samples(cellAt, start, n + 1) == Samples(cellAt, start, n) + [cell];
      assert (Samples(cellAt, start, n) + [cell])[..n] == Samples(cellAt, start, n);
      if cell !in out {
        out := out + [cell];
      }
      s, n := s + WARM_STEP_M, n + 1;
    }
  }

  // ---------------------------------------------------------------------- terrain

  /** A cached read at a point of the route. */
  datatype PointRead = Raises | Reads(floor: Option<real>)

  /**
   * What the flight can ask about the ground at one instant: the coarse cell
   * under an arc length, the cached floor of a cell (`None` is cold or thrown),
   * the cached floor at a point, and the rendered-mesh probe.
   */
  datatype Terrain = Terrain(cellAt: real -> Cell, cellFloor: Cell -> Option<real>,
                             pointFloor: real -> PointRead, meshProbe: seq<Cell> -> Option<Probe>)

  /** The other inputs of a frame. */
  datatype Tick = Tick(terrain: Terrain, dt: Option<real>, turnRate: Option<real>, factors: Factors, wave: real)

  function CellsAhead(plan: Plan, terrain: Terrain, traveled: real): seq<Cell> {
    Walk(terrain.cellAt, Clamped(plan.total, traveled), Clamped(plan.total, traveled + WARM_START_M), [], PROBE_CELLS)
  }

  /** The cells the cache has no floor for, in order. */
  function ColdCells(plan: Plan, terrain: Terrain, cells: seq<Cell>): seq<Cell> {
    if cells == [] then []
    else
      var last := cells[|cells| - 1];
      ColdCells(plan, terrain, cells[..|cells| - 1]) +
      (if plan.hasFloorFn && terrain.cellFloor(last).Some? then [] else [last])
  }

  function FloorsOf(terrain: Terrain, cells: seq<Cell>): seq<Option<real>> {
    seq(|cells|, i requires 0 <= i < |cells| => terrain.cellFloor(cells[i]))
  }

  /** The corridor the acquisition reads: the first distinct cells ahead; the probe is asked for exactly the cold ones. */
  function CorridorAt(plan: Plan, terrain: Terrain, traveled: real): Corridor {
    var cells := CellsAhead(plan, terrain, traveled);
    Corridor(FloorsOf(terrain, cells), terrain.meshProbe(ColdCells(plan, terrain, cells)))
  }

  function Lookahead(plan: Plan): real
    requires PlanOk(plan)
  {
    Min(LOOKAHEAD_MAX_M, Max(LOOKAHEAD_MIN_M, LOOKAHEAD_S * Cruise(plan)))
  }

  /** The floors read here and half a lookahead on; a throw voids both. */
  function SampleAtArc(plan: Plan, terrain: Terrain, traveled: real): Sample
    requires PlanOk(plan)
  {
    match (terrain.pointFloor(Clamped(plan.total, traveled)),
           terrain.pointFloor(Clamped(plan.total, traveled + Lookahead(plan) / 2.0)))
    case (Reads(here), Reads(ahead)) => Read(here, ahead)
    case _ => Threw
  }

  /** The frame that this tick is to the flight where it stands. */
  function FrameOf(plan: Plan, s: Flight, tick: Tick): Frame
    requires PlanOk(plan)
  {
    var traveled := Travel(plan, Advanced(plan, s.u, StepOf(tick.dt)));
    Frame(tick.dt, CorridorAt(plan, tick.terrain, s.traveled), tick.turnRate, tick.factors, tick.wave,
          SampleAtArc(plan, tick.terrain, traveled))
  }

  /** The corridor read never looks at more than eight cells, all distinct and on the route, and at some. */
  lemma CorridorIsShort(plan: Plan, terrain: Terrain, traveled: real)
    requires PlanOk(plan)
    ensures var cells := CellsAhead(plan, terrain, traveled);
            && 0 < |cells| <= PROBE_CELLS && Distinct(cells)
            && |CorridorAt(plan, terrain, traveled).floors| == |cells|
            && forall c <- ColdCells(plan, terrain, cells) :: c in cells
  {
    var cells := CellsAhead(plan, terrain, traveled);
    WalkIsShort(terrain.cellAt, Clamped(plan.total, traveled), Clamped(plan.total, traveled + WARM_START_M), [], PROBE_CELLS);
    ColdAreCells(plan, terrain, cells);
  }

  lemma {:induction false} WalkIsShort(cellAt: real -> Cell, s: real, end: real, out: seq<Cell>, maxCells: nat)
    requires Distinct(out) && |out| <= maxCells
    ensures var cells := Walk(cellAt, s, end, out, maxCells);
            && Distinct(cells) && |out| <= |cells| <= maxCells
            && (s <= end + MIN_SEGMENT_M && maxCells > 0 ==> cells != [])
    decreases end + MIN_SEGMENT_M - s
  {
    if s <= end + MIN_SEGMENT_M && |out| < maxCells {
      AppendKeepsDistinct(out, cellAt(s));
      WalkIsShort(cellAt, s + WARM_STEP_M, end, if cellAt(s) in out then out else out + [cellAt(s)], maxCells);
    }
  }

  lemma {:induction false} ColdAreCells(plan: Plan, terrain: Terrain, cells: seq<Cell>)
    ensures forall c <- ColdCells(plan, terrain, cells) :: c in cells
  {
    if cells != [] {
      ColdAreCells(plan, terrain, cells[..|cells| - 1]);
    }
  }

  /** A departed frame does not look at the corridor. */
  lemma DepartIgnoresCorridor(plan: Plan, s: Flight, f: Frame, step: real, corridor: Corridor)
    requires PlanOk(plan)
    ensures Depart(plan, s, f.(corridor := corridor), step) == Depart(plan, s, f, step)
  {
    hide Speed, Banked, Blend, AltitudeOffset, BankTarget, Travel, GroundSpeed, Advanced, Height, SampledFloor, Grounded;
  }

  method MaxFloor(floors: seq<real>) returns (top: real)
    requires floors != []
    ensures top == MaxOf(floors)
  {
    top := floors[0];
    for i := 1 to |floors|
      invariant top == MaxOf(floors[..i])
    {
      assert floors[..i + 1][..i] == floors[..i];
      top := Max(top, floors[i]);
    }
    assert floors[..|floors|] == floors;
  }

  // ------------------------------------------------------------- the flight state

  /** A departed frame, from its parts. */
  lemma DepartInParts(plan: Plan, s: Flight, f: Frame, step: real, u: real, wings: Wings, ground: Ground,
                      offset: real, height: real)
    requires PlanOk(plan) && u == Advanced(plan, s.u, step)
    requires wings == Banked(s.wings, BankTarget(f.turnRate, plan.reduced), f.factors, Speed(u, plan.ramp))
    requires ground == Grounded(plan, s.ground, SampledFloor(plan, f.sample), f.factors.floor)
    requires Some(offset) == ApproachValue(s.offset, Some(Shaping(plan, f, wings.lift)), f.factors.altitude)
    requires height == Height(plan, ground, SampledFloor(plan, f.sample), offset, s.height, step)
    ensures Depart(plan, s, f, step)
            == (Flight(u, Travel(plan, u), true, ground, wings, Some(offset), Some(height)),
                Pose(u >= 1.0, wings.applied, height, height - ground.floor.GetOr(0.0), GroundSpeed(plan, u), u))
  {
    hide Speed, Banked, Blend, Shaping, BankTarget, Travel, GroundSpeed, Advanced, Height;
    hide RampFraction, SampledFloor, Grounded;
  }

  class RouteMotion {
    const plan: Plan
    const cumM: seq<real>
    var u: real
    var traveled: real
    var groundSpeedMps: real
    var departed: bool
    var floorM: Option<real>
    var floorKnown: bool
    var armS: real
    var meshProbeSpent: bool
    var meshProbeFloorM: Option<real>
    var meshProbeCoveredCold: bool
    var bankLeadDeg: real
    var bankDeg: real
    var appliedBankDeg: real
    var liftBankDeg: real
    var offsetM: Option<real>
    var appliedHeightM: Option<real>
    var coldFrames: nat

    ghost predicate Valid()
      reads this
    {
      PlanOk(plan) && ArcTable(cumM) && cumM[|cumM| - 1] == plan.total
    }

    function GroundNow(): Ground
      reads this
    {
      Ground(floorM, floorKnown, armS, meshProbeSpent, meshProbeFloorM, meshProbeCoveredCold)
    }

    function WingsNow(): Wings
      reads this
    {
      Wings(bankLeadDeg, bankDeg, appliedBankDeg, liftBankDeg)
    }

    function Now(): Flight
      reads this
    {
      Flight(u, traveled, departed, GroundNow(), WingsNow(), offsetM, appliedHeightM)
    }

    constructor (plan: Plan, cumM: seq<real>, terrain: Terrain)
      requires PlanOk(plan) && ArcTable(cumM) && cumM[|cumM| - 1] == plan.total
      ensures Valid() && this.plan == plan && this.cumM == cumM
      ensures Now() == Create(plan, CorridorAt(plan, terrain, 0.0))
    {
      this.plan, this.cumM := plan, cumM;
      u, traveled, groundSpeedMps, departed := 0.0, 0.0, 0.0, false;
      floorM, floorKnown, armS := None, false, 0.0;
      meshProbeSpent, meshProbeFloorM, meshProbeCoveredCold := false, None, false;
      bankLeadDeg, bankDeg, appliedBankDeg, liftBankDeg := 0.0, 0.0, 0.0, 0.0;
      offsetM, appliedHeightM, coldFrames := None, None, 0;
      new;
      var _ := AcquireCorridorFloor(terrain, true);
    }

    /** The cached floors that are finite, and the cells that have none. */
    method ReadCache(terrain: Terrain, cells: seq<Cell>) returns (known: seq<real>, cold: seq<Cell>)
      ensures cold == ColdCells(plan, terrain, cells)
      ensures known == KnownFloors(AnswersFor(plan, FloorsOf(terrain, cells))) && |known| + |cold| == |cells|
    {
      ghost var answers := AnswersFor(plan, FloorsOf(terrain, cells));
      known, cold := [], [];
      for i := 0 to |cells|
        invariant known == KnownFloors(answers[..i]) && |cold| == i - |known|
        invariant cold == ColdCells(plan, terrain, cells[..i])
      {
        assert answers[..i + 1][..i] == answers[..i] && cells[..i + 1][..i] == cells[..i];
        if plan.hasFloorFn && terrain.cellFloor(cells[i]).Some? {
          known := known + [terrain.cellFloor(cells[i]).value];
        } else {
          cold := cold + [cells[i]];
        }
      }
      assert answers[..|answers|] == answers && cells[..|cells|] == cells;
    }

    method AcquireCorridorFloor(terrain: Terrain, takeWhole: bool) returns (resolved: bool)
      requires Valid()
      modifies this`floorM, this`floorKnown, this`meshProbeSpent, this`meshProbeFloorM, this`meshProbeCoveredCold
      ensures (GroundNow(), resolved) == Acquire(plan, old(GroundNow()), CorridorAt(plan, terrain, traveled), takeWhole)
    {
      var cells, n := CorridorCells(terrain.cellAt, plan.total, traveled, WARM_START_M, PROBE_CELLS);
      if cells == [] {
        return false;
      }
      var known, cold := ReadCache(terrain, cells);
      resolved := AdoptReadings(known, cold, terrain.meshProbe, takeWhole, CorridorAt(plan, terrain, traveled));
    }

    /** Probe what is cold, once per flight, and adopt the highest floor in hand. */
    method AdoptReadings(cached: seq<real>, cold: seq<Cell>, meshProbe: seq<Cell> -> Option<Probe>, takeWhole: bool,
                         ghost corridor: Corridor)
      returns (resolved: bool)
      requires corridor.floors != [] && corridor.probe == meshProbe(cold)
      requires cached == KnownFloors(Answers(plan, corridor)) && |cold| == Cold(plan, corridor)
      modifies this`floorM, this`floorKnown, this`meshProbeSpent, this`meshProbeFloorM, this`meshProbeCoveredCold
      ensures (GroundNow(), resolved) == Acquire(plan, old(GroundNow()), corridor, takeWhole)
    {
      hide KnownFloors, Answers, MaxOf;
      var known := cached;
      if cold != [] && !meshProbeSpent && plan.hasProbe {
        meshProbeSpent := true;
        var probe := meshProbe(cold);
        if probe.Some? && probe.value.height.Some? {
          meshProbeFloorM := probe.value.height;
          meshProbeCoveredCold := probe.value.sampled >= |cold|;
        }
      }
      assert GroundNow() == Consulted(plan, old(GroundNow()), corridor);
      if meshProbeFloorM.Some? {
        known := known + [meshProbeFloorM.value];
      }
      assert known == Evidence(plan, GroundNow(), corridor);
      if known == [] {
        return false;
      }
      var floor := MaxFloor(known);
      floorM := Some(if takeWhole || floorM.None? then floor else Max(floorM.value, floor));
      if cold != [] && !meshProbeCoveredCold {
        return false;
      }
      floorKnown := true;
      return true;
    }

    /** One frame; the camera sits on segment `lo`, at fraction `t`, when a pose is applied. */
    method AdvanceRouteFlight(tick: Tick) returns (pose: Pose, lo: nat, t: real)
      requires Valid()
      modifies this
      ensures Valid()
      ensures (Now(), pose) == Advance(plan, old(Now()), FrameOf(plan, old(Now()), tick))
      ensures lo + 1 < |cumM| && Unit(t)
      ensures pose.Pose? ==> cumM[lo] <= Clamped(plan.total, traveled) <= cumM[lo + 1]
    {
      hide Depart, Acquire, CorridorAt, Travel, Advanced, SampleAtArc;
      var step := StepOf(tick.dt);
      ghost var frame := FrameOf(plan, Now(), tick);
      lo, t := 0, 0.0;
      if (plan.hasFloorFn || plan.hasProbe) && !floorKnown && !departed && armS < ARM_S {
        armS := armS + step;
        var resolved := AcquireCorridorFloor(tick.terrain, true);
        if !resolved {
          return Arming, lo, t;
        }
      }
      var sample := ReadFloors(tick.terrain, Travel(plan, Advanced(plan, u, step)));
      var seen := Frame(tick.dt, Corridor([], None), tick.turnRate, tick.factors, tick.wave, sample);
      DepartIgnoresCorridor(plan, Now(), frame, step, seen.corridor);
      pose := DepartOn(seen, step);
      lo, t := ArcPoint(cumM, traveled);
    }

    /** The two cached reads of a frame, in order; nothing is kept when one throws. */
    method ReadFloors(terrain: Terrain, arc: real) returns (sample: Sample)
      requires PlanOk(plan)
      ensures sample == SampleAtArc(plan, terrain, arc)
    {
      var here := terrain.pointFloor(Clamped(plan.total, arc));
      if here.Raises? {
        return Threw;
      }
      var ahead := terrain.pointFloor(Clamped(plan.total, arc + Lookahead(plan) / 2.0));
      sample := if ahead.Raises? then Threw else Read(here.floor, ahead.floor);
    }

    /** The cascaded roll smoothers; the lift follows the roll that is applied. */
    method Roll(bankTarget: real, k: Factors, speed: real)
      modifies this`bankLeadDeg, this`bankDeg, this`appliedBankDeg, this`liftBankDeg
      ensures WingsNow() == Banked(old(WingsNow()), bankTarget, k, speed)
    {
      hide Blend, Levelled;
      bankLeadDeg := Blend(bankLeadDeg, bankTarget, k.lead);
      bankDeg := Blend(bankDeg, bankLeadDeg, k.settle);
      appliedBankDeg := Levelled(bankDeg, speed);
      liftBankDeg := Blend(liftBankDeg, appliedBankDeg, k.lift);
    }

    /** A missing sample holds the last floor, or the seed before there is one. */
    method FollowFloor(sampled: Option<real>, k: real)
      modifies this`floorM, this`floorKnown, this`coldFrames
      ensures GroundNow() == Grounded(plan, old(GroundNow()), sampled, k)
    {
      if sampled.None? {
        floorM := Some(floorM.GetOr(plan.coldSeed));
        coldFrames := coldFrames + 1;
      } else {
        floorM := FloorHold(floorM, sampled, k);
        floorKnown := true;
      }
    }

    /** The clamp stack over the shaped eye height. */
    method ClampedHeight(sampled: Option<real>, step: real) returns (heightM: real)
      requires offsetM.Some?
      ensures heightM == Height(plan, GroundNow(), sampled, offsetM.value, appliedHeightM, step)
    {
      heightM := Max(EyeHeight(floorM, offsetM),
                         (if sampled.Some? then sampled.value else floorM.GetOr(0.0)) + MIN_CLEARANCE_M);
      if !floorKnown && plan.safeHold.Some? {
        heightM := Max(heightM, plan.safeHold.value);
      }
      if appliedHeightM.Some? {
        heightM := Max(heightM, appliedHeightM.value - MAX_DESCENT_MPS * step);
      }
    }

    /** Roll, floor and altitude of a departed frame, and the eye height they give. */
    method Shape(frame: Frame, step: real, speed: real, sampled: Option<real>) returns (heightM: real)
      modifies this`bankLeadDeg, this`bankDeg, this`appliedBankDeg, this`liftBankDeg
      modifies this`floorM, this`floorKnown, this`coldFrames, this`offsetM
      ensures WingsNow() == Banked(old(WingsNow()), BankTarget(frame.turnRate, plan.reduced), frame.factors, speed)
      ensures GroundNow() == Grounded(plan, old(GroundNow()), sampled, frame.factors.floor)
      ensures offsetM == ApproachValue(old(offsetM), Some(Shaping(plan, frame, liftBankDeg)), frame.factors.altitude)
      ensures offsetM.Some? && heightM == Height(plan, GroundNow(), sampled, offsetM.value, appliedHeightM, step)
    {
      hide Banked, Blend, AltitudeOffset, BankTarget, Height, Grounded;
      Roll(BankTarget(frame.turnRate, plan.reduced), frame.factors, speed);
      FollowFloor(sampled, frame.factors.floor);
      offsetM := ApproachValue(offsetM, Some(Shaping(plan, frame, liftBankDeg)), frame.factors.altitude);
      heightM := ClampedHeight(sampled, step);
    }

    /** The moving part of a frame. */
    method DepartOn(frame: Frame, step: real) returns (pose: Pose)
      requires PlanOk(plan)
      modifies this
      ensures (Now(), pose) == Depart(plan, old(Now()), frame, step)
    {
      hide Depart, Speed, Banked, Blend, Shaping, BankTarget, Travel, GroundSpeed, Advanced, Height, RampFraction;
      hide SampledFloor, Grounded, ApproachValue;
      ghost var start := Now();
      departed := true;
      u := Advanced(plan, u, step);
      traveled := Travel(plan, u);
      groundSpeedMps := GroundSpeed(plan, u);
      var heightM := Shape(frame, step, Speed(u, plan.ramp), SampledFloor(plan, frame.sample));
      appliedHeightM := Some(heightM);
      pose := Pose(u >= 1.0, appliedBankDeg, heightM, heightM - floorM.GetOr(0.0), groundSpeedMps, u);
      DepartInParts(plan, start, frame, step, u, WingsNow(), GroundNow(), offsetM.value, heightM);
    }
  }

  /** The pose that the last of `frames` applies. */
  function PoseAfter(plan: Plan, s: Flight, frames: seq<Frame>): Pose
    requires PlanOk(plan) && frames != []
  {
    Advance(plan, Run(plan, s, frames[..|frames| - 1]), frames[|frames| - 1]).1
  }

  /** A pose is final exactly when the flight has reached the end. */
  lemma FinalPose(plan: Plan, s: Flight, f: Frame)
    requires PlanOk(plan)
    ensures var (after, pose) := Advance(plan, s, f); pose.Pose? ==> (pose.finished <==> after.u >= 1.0)
    ensures var (after, pose) := Advance(plan, s, f); pose.Arming? ==> after.u == s.u
  {
    hide Travel, GroundSpeed, Speed, Banked, AltitudeOffset, Height, BankTarget, Grounded, Advanced, Acquire;
  }

  /** The frames that a sequence of ticks is to a flight. */
  function FramesOf(plan: Plan, s: Flight, ticks: seq<Tick>): (frames: seq<Frame>)
    requires PlanOk(plan)
    ensures |frames| == |ticks|
  {
    if ticks == [] then []
    else
      var before := FramesOf(plan, s, ticks[..|ticks| - 1]);
      before + [FrameOf(plan, Run(plan, s, before), ticks[|ticks| - 1])]
  }

  /** The pose that tick `k` applies. */
  function PoseAt(plan: Plan, s: Flight, ticks: seq<Tick>, k: nat): Pose
    requires PlanOk(plan) && k < |ticks|
  {
    PoseAfter(plan, s, FramesOf(plan, s, ticks[..k + 1]))
  }

  predicate TicksOk(ticks: seq<Tick>) {
    forall i :: 0 <= i < |ticks| ==> TickOk(ticks[i])
  }

  predicate TickOk(tick: Tick) {
    FrameOk(Frame(tick.dt, Corridor([], None), tick.turnRate, tick.factors, tick.wave, Threw))
  }

  lemma {:induction false} FramesAreOk(plan: Plan, s: Flight, ticks: seq<Tick>)
    requires PlanOk(plan) && TicksOk(ticks)
    ensures FramesOk(FramesOf(plan, s, ticks))
  {
    if ticks != [] {
      hide CorridorAt, SampleAtArc, Travel, Run;
      FramesAreOk(plan, s, ticks[..|ticks| - 1]);
      assert TickOk(ticks[|ticks| - 1]);
    }
  }

  /** One more tick is one more frame of the run. */
  lemma OneMoreTick(plan: Plan, s: Flight, ticks: seq<Tick>, n: nat)
    requires PlanOk(plan) && n < |ticks|
    ensures var frames := FramesOf(plan, s, ticks[..n + 1]);
            var before := Run(plan, s, FramesOf(plan, s, ticks[..n]));
            (Run(plan, s, frames), PoseAfter(plan, s, frames)) == Advance(plan, before, FrameOf(plan, before, ticks[n]))
  {
    hide Advance, FrameOf;
    assert ticks[..n + 1][..n] == ticks[..n];
    var frames := FramesOf(plan, s, ticks[..n + 1]);
    assert frames[..n] == FramesOf(plan, s, ticks[..n]);
  }

  /** The time that the ticks take. */
  function TickTime(ticks: seq<Tick>): real {
    if ticks == [] then 0.0 else TickTime(ticks[..|ticks| - 1]) + StepOf(ticks[|ticks| - 1].dt)
  }

  lemma {:induction false} TickTimeIsElapsed(plan: Plan, s: Flight, ticks: seq<Tick>)
    requires PlanOk(plan)
    ensures Elapsed(FramesOf(plan, s, ticks)) == TickTime(ticks)
  {
    if ticks != [] {
      var init := ticks[..|ticks| - 1];
      TickTimeIsElapsed(plan, s, init);
      assert FramesOf(plan, s, ticks)[..|init|] == FramesOf(plan, s, init);
    }
  }

  /**
   * The render loop: one tick after another until the flight finishes. The
   * poses are those of the run, and a flight given its time does finish.
   */
  method FlyRoute(plan: Plan, cumM: seq<real>, terrain: Terrain, ticks: seq<Tick>)
    returns (poses: seq<Pose>, landed: bool)
    requires PlanOk(plan) && ArcTable(cumM) && cumM[|cumM| - 1] == plan.total
    requires TicksOk(ticks)
    ensures |poses| <= |ticks| && (|poses| < |ticks| ==> landed)
    ensures var s0 := Create(plan, CorridorAt(plan, terrain, 0.0));
            && (forall k :: 0 <= k < |poses| ==> poses[k] == PoseAt(plan, s0, ticks, k))
            && (landed <==> Run(plan, s0, FramesOf(plan, s0, ticks[..|poses|])).u >= 1.0)
    ensures TickTime(ticks) >= plan.duration + MAX_ARM_S ==> landed
  {
    hide Advance, Create, PoseAfter, Travel, CorridorAt, FrameOf, Run, FramesOf;
    var flight := new RouteMotion(plan, cumM, terrain);
    ghost var corridor := CorridorAt(plan, terrain, 0.0);
    ghost var s0 := Create(plan, corridor);
    CreatedAtStart(plan, corridor);
    StartOfRun(plan, s0);
    poses, landed := [], false;
    while |poses| < |ticks| && !landed
      invariant |poses| <= |ticks| && fresh(flight) && flight.Valid() && flight.plan == plan
      invariant flight.Now() == Run(plan, s0, FramesOf(plan, s0, ticks[..|poses|]))
      invariant landed <==> flight.u >= 1.0
      invariant forall k :: 0 <= k < |poses| ==> poses[k] == PoseAt(plan, s0, ticks, k)
      decreases |ticks| - |poses|
    {
      var n := |poses|;
      ghost var before := flight.Now();
      OneMoreTick(plan, s0, ticks, n);
      FinalPose(plan, before, FrameOf(plan, before, ticks[n]));
      var pose, lo, t := flight.AdvanceRouteFlight(ticks[n]);
      landed := pose.Pose? && pose.finished;
      poses := poses + [pose];
    }
    if !landed && TickTime(ticks) >= plan.duration + MAX_ARM_S {
      assert ticks[..|poses|] == ticks;
      FramesAreOk(plan, s0, ticks);
      TickTimeIsElapsed(plan, s0, ticks);
      FlightLands(plan, corridor, FramesOf(plan, s0, ticks));
      assert false;
    }
  }

  lemma StartOfRun(plan: Plan, s: Flight)
    requires PlanOk(plan)
    ensures Run(plan, s, FramesOf(plan, s, [])) == s
  {
  }

  lemma CreatedAtStart(plan: Plan, corridor: Corridor)
    ensures Create(plan, corridor).u == 0.0
  {
    hide Acquire;
  }
}
