/**
 * What a flight asks of the ground: which corridor cells it looks at and in
 * which order, which of them the probe is sent to, and the two points where a
 * frame reads the floor.
 */
module RouteTerrain {
  import opened Numbers
  import opened RouteProfile
  import opened RouteFlight
  import opened CameraVerbs

  // ------------------------------------------------------------- the corridor

  /** The cell under the sample that lies `k` steps of 55 m past `start`. */
  function CellAtStep(cellAt: real -> Cell, start: real, k: nat): Cell {
    cellAt(start + k as real * 55.0)
  }

  predicate Met(cellAt: real -> Cell, start: real, n: nat, cell: Cell) {
    exists k | 0 <= k < n :: CellAtStep(cellAt, start, k) == cell
  }

  /** Sample `k` is the first in cell `out[j]`: before it exactly the first `j` cells of `out` were met. */
  ghost predicate FirstMetAt(cellAt: real -> Cell, start: real, k: nat, out: seq<Cell>, j: nat)
    requires j < |out|
  {
    CellAtStep(cellAt, start, k) == out[j] && forall c :: c in out[..j] <==> Met(cellAt, start, k, c)
  }

  ghost predicate FirstMet(cellAt: real -> Cell, start: real, n: nat, out: seq<Cell>, j: nat)
    requires j < |out|
  {
    exists k | 0 <= k < n :: FirstMetAt(cellAt, start, k, out, j)
  }

  /** The first `n` samples met exactly these cells, listed as they were first met. */
  ghost predicate ListsMet(cellAt: real -> Cell, start: real, n: nat, out: seq<Cell>) {
    && Distinct(out)
    && (forall c :: c in out <==> Met(cellAt, start, n, c))
    && (forall j | 0 <= j < |out| :: FirstMet(cellAt, start, n, out, j))
  }

  /** Sample `k` lies on the stretch, with a micrometre of slack. */
  predicate OnStretch(start: real, end: real, k: nat) {
    start + k as real * 55.0 <= end + 0.000001
  }

  /** The walk takes sample after sample until it has eight cells or is past the stretch. */
  ghost predicate IsStretch(cellAt: real -> Cell, start: real, end: real, n: nat, out: seq<Cell>) {
    && ListsMet(cellAt, start, n, out)
    && |out| <= 8
    && (forall k | 0 <= k < n :: OnStretch(start, end, k))
    && (|out| == 8 || !OnStretch(start, end, n))
  }

  lemma OneMoreIsMet(cellAt: real -> Cell, start: real, n: nat, c: Cell)
    ensures Met(cellAt, start, n + 1, c) <==> Met(cellAt, start, n, c) || c == CellAtStep(cellAt, start, n)
  {
    hide CellAtStep;
  }

  function Noted(out: seq<Cell>, cell: Cell): seq<Cell> {
    if cell in out then out else out + [cell]
  }

  lemma OneMoreSample(cellAt: real -> Cell, start: real, n: nat, out: seq<Cell>)
    requires ListsMet(cellAt, start, n, out)
    ensures ListsMet(cellAt, start, n + 1, Noted(out, CellAtStep(cellAt, start, n)))
  {
    hide CellAtStep, Met;
    var cell := CellAtStep(cellAt, start, n);
    var more := Noted(out, cell);
    forall c
      ensures Met(cellAt, start, n + 1, c) <==> c in more
    {
      OneMoreIsMet(cellAt, start, n, c);
    }
    var later := n + 1;
    forall j | 0 <= j < |more|
      ensures FirstMet(cellAt, start, later, more, j)
    {
      if j < |out| {
        assert FirstMet(cellAt, start, n, out, j);
        var k :| 0 <= k < n && FirstMetAt(cellAt, start, k, out, j);
        assert more[..j] == out[..j];
        assert FirstMetAt(cellAt, start, k, more, j);
      } else {
        assert more[..j] == out;
        assert FirstMetAt(cellAt, start, n, more, j);
      }
    }
  }

  lemma {:induction false} WalkIsStretch(cellAt: real -> Cell, start: real, end: real, n: nat, out: seq<Cell>)
    returns (last: nat)
    requires ListsMet(cellAt, start, n, out) && |out| <= 8
    requires forall k | 0 <= k < n :: OnStretch(start, end, k)
    ensures IsStretch(cellAt, start, end, last, Walk(cellAt, start + n as real * 55.0, end, out, 8))
    decreases end + 0.000001 - (start + n as real * 55.0)
  {
    var s := start + n as real * 55.0;
    hide ListsMet;
    if s > end + 0.000001 || |out| >= 8 {
      last := n;
    } else {
      OneMoreSample(cellAt, start, n, out);
      assert (n + 1) as real * 55.0 == n as real * 55.0 + 55.0;
      last := WalkIsStretch(cellAt, start, end, n + 1, Noted(out, cellAt(s)));
    }
  }

  // ---------------------------------------------------------------- the probe

  /** Cold: no floor function, or no floor for this cell. */
  predicate IsCold(plan: Plan, terrain: Terrain, cell: Cell) {
    plan.hasFloorFn ==> terrain.cellFloor(cell).None?
  }

  /** Exactly the cold cells, in travel order, each once. */
  ghost predicate ListsCold(plan: Plan, terrain: Terrain, cells: seq<Cell>, asked: seq<Cell>) {
    && Distinct(asked)
    && (forall c :: c in asked <==> c in cells && IsCold(plan, terrain, c))
    && (forall i, j | 0 <= i < j < |asked| :: Follows(cells, asked[i], asked[j]))
  }

  predicate Follows(cells: seq<Cell>, x: Cell, y: Cell) {
    exists a, b | 0 <= a < b < |cells| :: cells[a] == x && cells[b] == y
  }

  lemma {:induction false} ColdCellsAreListed(plan: Plan, terrain: Terrain, cells: seq<Cell>)
    requires Distinct(cells)
    ensures ListsCold(plan, terrain, cells, ColdCells(plan, terrain, cells))
  {
    if cells != [] {
      var init, last := cells[..|cells| - 1], cells[|cells| - 1];
      var before, asked := ColdCells(plan, terrain, init), ColdCells(plan, terrain, cells);
      ColdCellsAreListed(plan, terrain, init);
      assert cells == init + [last];
      forall i, j | 0 <= i < j < |asked|
        ensures Follows(cells, asked[i], asked[j])
      {
        if j < |before| {
          assert Follows(init, before[i], before[j]);
          var a, b :| 0 <= a < b < |init| && init[a] == before[i] && init[b] == before[j];
          assert cells[a] == asked[i] && cells[b] == asked[j];
        } else {
          assert before[i] in init;
          var a :| 0 <= a < |init| && init[a] == before[i];
          assert cells[a] == asked[i] && cells[|init|] == asked[j];
        }
      }
    }
  }

  ghost predicate IsCorridor(cellAt: real -> Cell, start: real, end: real, cells: seq<Cell>) {
    exists n: nat :: IsStretch(cellAt, start, end, n, cells)
  }

  /**
   * The corridor looked at from an arc length on: the first cells met within
   * 4 km, eight at most, each with its cached floor, and the probe's answer
   * for exactly those that are cold.
   */
  lemma CorridorIsExact(plan: Plan, terrain: Terrain, traveled: real)
    requires plan.total > 0.0
    ensures var cells := CellsAhead(plan, terrain, traveled);
            var corridor := CorridorAt(plan, terrain, traveled);
            && IsCorridor(terrain.cellAt, Within(traveled, plan.total), Within(traveled + 4000.0, plan.total), cells)
            && |corridor.floors| == |cells|
            && (forall i | 0 <= i < |cells| :: corridor.floors[i] == terrain.cellFloor(cells[i]))
            && exists asked :: ListsCold(plan, terrain, cells, asked) && corridor.probe == terrain.meshProbe(asked)
  {
    var start, end := Within(traveled, plan.total), Within(traveled + 4000.0, plan.total);
    assert start + 0 as real * 55.0 == start;
    var n := WalkIsStretch(terrain.cellAt, start, end, 0, []);
    var cells := CellsAhead(plan, terrain, traveled);
    hide Walk, ListsCold;
    ColdCellsAreListed(plan, terrain, cells);
  }

  // ---------------------------------------------------------------- the reads

  /** The nearest point of the route to an arc length. */
  function Within(s: real, total: real): real {
    if s < 0.0 then 0.0 else if s > total then total else s
  }

  /** Six and a half seconds at cruise speed, between 120 m and 600 m. */
  predicate IsLookahead(plan: Plan, look: real)
    requires PlanOk(plan)
  {
    var asked := plan.total / (plan.duration * (1.0 - plan.ramp)) * 6.5;
    look == if asked < 120.0 then 120.0 else if asked > 600.0 then 600.0 else asked
  }

  predicate ReadsAt(plan: Plan, terrain: Terrain, arc: real, look: real, sample: Sample) {
    var (here, ahead) := (terrain.pointFloor(Within(arc, plan.total)),
                          terrain.pointFloor(Within(arc + look / 2.0, plan.total)));
    sample == if here.Reads? && ahead.Reads? then Read(here.floor, ahead.floor) else Threw
  }

  lemma LookaheadIs(plan: Plan)
    requires PlanOk(plan)
    ensures IsLookahead(plan, Lookahead(plan))
  {
    hide RampFraction;
  }

  lemma SampleIsRead(plan: Plan, terrain: Terrain, arc: real)
    requires PlanOk(plan)
    ensures ReadsAt(plan, terrain, arc, Lookahead(plan), SampleAtArc(plan, terrain, arc))
  {
    hide Lookahead, RampFraction;
    var half := Lookahead(plan) / 2.0;
    assert Clamped(plan.total, arc) == Within(arc, plan.total);
    assert Clamped(plan.total, arc + half) == Within(arc + half, plan.total);
    hide Clamped, Within;
  }

  /**
   * A frame's inputs: the corridor from where the flight stands, and the floors
   * read where this frame takes it and half a lookahead further on, both or none.
   */
  lemma FrameIsAsRead(plan: Plan, s: Flight, tick: Tick)
    requires PlanOk(plan)
    ensures var f := FrameOf(plan, s, tick);
            && f.dt == tick.dt && f.turnRate == tick.turnRate && f.factors == tick.factors && f.wave == tick.wave
            && f.corridor == CorridorAt(plan, tick.terrain, s.traveled)
    ensures exists look ::
              && IsLookahead(plan, look)
              && ReadsAt(plan, tick.terrain, Reached(plan, s, tick), look, FrameOf(plan, s, tick).sample)
  {
    hide CorridorAt, Distance, SampleAtArc, Lookahead, IsLookahead, ReadsAt, RampFraction;
    LookaheadIs(plan);
    var arc := Travel(plan, Advanced(plan, s.u, StepOf(tick.dt)));
    SampleIsRead(plan, tick.terrain, arc);
    assert arc == Reached(plan, s, tick);
    assert ReadsAt(plan, tick.terrain, arc, Lookahead(plan), FrameOf(plan, s, tick).sample);
  }

  /** How far along the route this tick takes the flight. */
  function Reached(plan: Plan, s: Flight, tick: Tick): real
    requires PlanOk(plan)
  {
    plan.total * Distance(Min(1.0, s.u + StepOf(tick.dt) / plan.duration), plan.ramp)
  }
}
