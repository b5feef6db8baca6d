/**
 * The split-flap chip label: planning a cascade, what the board shows while it
 * runs, and interrupting one cascade with the next. Times are milliseconds.
 */
module SplitFlap {
  import opened Numbers
  import opened Options

  const CHAR_MS: real := 190.0
  const STAGGER_MS: real := 26.0
  const MAX_TOTAL_MS: real := 620.0
  const SETTLE_SLACK_MS: real := 60.0
  const TURN_RATIO: real := 0.5
  const BLANK: char := ' '

  function PositiveNumber(value: Option<real>, fallback: real): real {
    if value.Some? && value.value > 0.0 then value.value else fallback
  }

  datatype Timing = Timing(charMs: real, staggerMs: real, maxTotalMs: real)

  predicate TimingOk(t: Timing) {
    t.charMs > 0.0 && t.staggerMs > 0.0 && t.maxTotalMs > 0.0
  }

  /** What a caller may ask for; `None` is absent or not a finite number. */
  datatype FlapOptions = FlapOptions(charMs: Option<real>, staggerMs: Option<real>, maxTotalMs: Option<real>, immediate: bool)

  /** The caller's options, each falling back to the house value. */
  function TimingOf(options: FlapOptions): (t: Timing)
    ensures TimingOk(t)
  {
    Timing(PositiveNumber(options.charMs, CHAR_MS), PositiveNumber(options.staggerMs, STAGGER_MS),
           PositiveNumber(options.maxTotalMs, MAX_TOTAL_MS))
  }

  /** `from` and `to` are `None` past the end of their string. */
  datatype Cell = Cell(index: nat, from: Option<char>, to: Option<char>, changed: bool, vacating: bool, delayMs: int)

  datatype Plan = Plan(cells: seq<Cell>, durationMs: int, staggerMs: real, changedCount: nat,
                       firstChanged: int, lastChanged: int)

  const NO_PLAN: Plan := Plan([], 0, 0.0, 0, -1, -1)

  // ------------------------------------------------------------------- the plan

  function Glyph(s: string, i: nat): Option<char> {
    if i < |s| then Some(s[i]) else None
  }

  function Width(a: string, b: string): nat {
    if |a| < |b| then |b| else |a|
  }

  predicate Differs(a: string, b: string, i: nat) {
    Glyph(a, i) != Glyph(b, i)
  }

  /** The first of the first `n` columns that differs, or -1. */
  function First(a: string, b: string, n: nat): (k: int)
    ensures -1 <= k < n
    ensures forall i :: 0 <= i < n && Differs(a, b, i) ==> 0 <= k <= i
    ensures k >= 0 ==> Differs(a, b, k)
  {
    if n == 0 then -1
    else
      var before := First(a, b, n - 1);
      if before >= 0 then before else if Differs(a, b, n - 1) then n - 1 else -1
  }

  /** The last of the first `n` columns that differs, or -1. */
  function Last(a: string, b: string, n: nat): (k: int)
    ensures -1 <= k < n
    ensures forall i :: 0 <= i < n && Differs(a, b, i) ==> i <= k
    ensures k >= 0 ==> Differs(a, b, k)
  {
    if n == 0 then -1
    else if Differs(a, b, n - 1) then n - 1
    else Last(a, b, n - 1)
  }

  function CountDiffers(a: string, b: string, n: nat): nat {
    if n == 0 then 0 else CountDiffers(a, b, n - 1) + (if Differs(a, b, n - 1) then 1 else 0)
  }

  function Stagger(first: int, last: int, t: Timing): real
    requires first <= last
  {
    if last > first then Min(t.staggerMs, Max(0.0, t.maxTotalMs - t.charMs) / (last - first) as real) else 0.0
  }

  /** How long after the first changed column column `i` starts to flip. */
  function Sweep(first: int, i: int, stagger: real): real {
    (i - first) as real * stagger
  }

  function Delay(i: int, first: int, stagger: real): int {
    Round(Sweep(first, i, stagger))
  }

  function CellAt(a: string, b: string, i: nat, first: int, stagger: real): Cell {
    var changed := Differs(a, b, i);
    Cell(i, Glyph(a, i), Glyph(b, i), changed,
         changed && Glyph(b, i).None? && Glyph(a, i).Some?,
         if changed then Delay(i, first, stagger) else 0)
  }

  function Cells(a: string, b: string, n: nat, first: int, stagger: real): seq<Cell> {
    seq(n, i requires 0 <= i < n => CellAt(a, b, i, first, stagger))
  }

  function PlanOf(a: string, b: string, t: Timing): Plan {
    var n := Width(a, b);
    var first, last := First(a, b, n), Last(a, b, n);
    if first < 0 then NO_PLAN
    else
      var stagger := Stagger(first, last, t);
      Plan(Cells(a, b, n, first, stagger), Round(Sweep(first, last, stagger) + t.charMs), stagger,
           CountDiffers(a, b, n), first, last)
  }

  /** The two passes over the columns. */
  method PlanSplitFlap(a: string, b: string, t: Timing) returns (plan: Plan)
    requires TimingOk(t)
    ensures plan == PlanOf(a, b, t)
  {
    hide Stagger, Sweep, CellAt;
    var n := Width(a, b);
    var first, last := -1, -1;
    for i := 0 to n
      invariant first == First(a, b, i) && last == Last(a, b, i)
    {
      if Differs(a, b, i) {
        if first < 0 {
          first := i;
        }
        last := i;
      }
    }
    if first < 0 {
      return NO_PLAN;
    }
    var stagger := Stagger(first, last, t);
    var cells: seq<Cell> := [];
    var changedCount := 0;
    for i := 0 to n
      invariant cells == Cells(a, b, i, first, stagger) && changedCount == CountDiffers(a, b, i)
    {
      if Differs(a, b, i) {
        changedCount := changedCount + 1;
      }
      cells := cells + [CellAt(a, b, i, first, stagger)];
    }
    plan := Plan(cells, Round(Sweep(first, last, stagger) + t.charMs), stagger, changedCount, first, last);
  }

  // ------------------------------------------------------------ what is on screen

  function Face(g: Option<char>): char {
    g.GetOr(BLANK)
  }

  predicate Turned(cell: Cell, elapsed: real, charMs: real) {
    Max(0.0, elapsed) >= cell.delayMs as real + charMs * TURN_RATIO
  }

  function DisplayedGlyph(cell: Cell, turned: bool): char {
    if !cell.changed || turned then Face(cell.to) else Face(cell.from)
  }

  /** One character per column, always. */
  function Visible(cells: seq<Cell>, elapsed: real, charMs: real): string {
    seq(|cells|, i requires 0 <= i < |cells| => DisplayedGlyph(cells[i], Turned(cells[i], elapsed, charMs)))
  }

  method VisibleGlyphs(plan: Plan, elapsed: real, charMs: real) returns (out: string)
    ensures out == Visible(plan.cells, elapsed, charMs)
  {
    out := [];
    for i := 0 to |plan.cells|
      invariant out == Visible(plan.cells[..i], elapsed, charMs)
    {
      out := out + [DisplayedGlyph(plan.cells[i], Turned(plan.cells[i], elapsed, charMs))];
    }
    assert plan.cells[..|plan.cells|] == plan.cells;
  }

  /** `s` on a board of `n` columns. */
  function Padded(s: string, n: nat): string {
    seq(if n < |s| then |s| else n, i requires 0 <= i => Face(Glyph(s, i)))
  }

  // ------------------------------------------------------------------ the cascade

  lemma SweepStep(i: int, j: int, first: int, stagger: real)
    requires first <= i <= j && stagger >= 0.0
    ensures 0.0 <= Sweep(first, i, stagger) <= Sweep(first, j, stagger)
    ensures 0 <= Delay(i, first, stagger) <= Delay(j, first, stagger)
  {
    var x, y := (i - first) as real, (j - first) as real;
    assert 0.0 <= x * stagger;
    assert (y - x) * stagger >= 0.0;
    RoundIsMonotone(0.0, x * stagger);
    RoundIsMonotone(x * stagger, y * stagger);
  }

  lemma StaggerIsSound(first: int, last: int, t: Timing)
    requires first <= last && TimingOk(t)
    ensures var stagger := Stagger(first, last, t);
            && stagger >= 0.0
            && Sweep(first, last, stagger) <= Max(0.0, t.maxTotalMs - t.charMs)
  {
    if last > first {
      var room, gaps := Max(0.0, t.maxTotalMs - t.charMs), (last - first) as real;
      assert room / gaps >= 0.0;
      assert gaps * (room / gaps) == room;
      assert gaps * Stagger(first, last, t) <= gaps * (room / gaps);
    }
  }

  /** Facts of a plan that does anything: its columns, its order, its bounds. */
  lemma PlanShape(a: string, b: string, t: Timing)
    requires TimingOk(t)
    ensures var plan := PlanOf(a, b, t);
            && (plan == NO_PLAN <==> a == b)
            && (a != b ==>
                  && |plan.cells| == Width(a, b)
                  && 0 <= plan.firstChanged <= plan.lastChanged < |plan.cells|
                  && plan.cells[plan.firstChanged].changed && plan.cells[plan.lastChanged].changed
                  && plan.changedCount > 0)
  {
    hide Stagger, Sweep, Cells;
    var n := Width(a, b);
    if First(a, b, n) < 0 {
      NothingDiffers(a, b);
    } else {
      DiffersCount(a, b, n);
      CellsShape(a, b, n, First(a, b, n), Stagger(First(a, b, n), Last(a, b, n), t));
    }
  }

  lemma CellsShape(a: string, b: string, n: nat, first: int, stagger: real)
    ensures var cells := Cells(a, b, n, first, stagger);
            |cells| == n && forall i :: 0 <= i < n ==> cells[i] == CellAt(a, b, i, first, stagger)
  {
  }

  lemma NothingDiffers(a: string, b: string)
    requires First(a, b, Width(a, b)) < 0
    ensures a == b
  {
    forall i | 0 <= i < Width(a, b)
      ensures i < |a| && i < |b| && a[i] == b[i]
    {
      assert !Differs(a, b, i);
    }
  }

  lemma {:induction false} DiffersCount(a: string, b: string, n: nat)
    ensures First(a, b, n) >= 0 ==> CountDiffers(a, b, n) > 0
  {
    if n > 0 && First(a, b, n - 1) >= 0 {
      DiffersCount(a, b, n - 1);
    }
  }

  /**
   * The sweep: changed columns turn left to right, and a column that has turned
   * stays turned. So each column shows its old glyph, then its new one, once.
   */
  lemma TurnsSweepAndStay(a: string, b: string, t: Timing, i: nat, j: nat, before: real, after: real)
    requires TimingOk(t) && a != b
    requires i <= j < |PlanOf(a, b, t).cells| && PlanOf(a, b, t).cells[i].changed && PlanOf(a, b, t).cells[j].changed
    requires before <= after
    ensures var cells := PlanOf(a, b, t).cells;
            Turned(cells[j], before, t.charMs) ==> Turned(cells[i], after, t.charMs)
  {
    PlanShape(a, b, t);
    var plan := PlanOf(a, b, t);
    StaggerIsSound(plan.firstChanged, plan.lastChanged, t);
    SweepStep(i, j, plan.firstChanged, plan.staggerMs);
  }

  /** At the instant a cascade starts, the board still shows where it starts from. */
  lemma StartsWhereItWas(a: string, b: string, t: Timing)
    requires TimingOk(t) && a != b
    ensures Visible(PlanOf(a, b, t).cells, 0.0, t.charMs) == Padded(a, |b|)
  {
    PlanShape(a, b, t);
    var plan := PlanOf(a, b, t);
    StaggerIsSound(plan.firstChanged, plan.lastChanged, t);
    forall i | 0 <= i < |plan.cells|
      ensures Visible(plan.cells, 0.0, t.charMs)[i] == Padded(a, |b|)[i]
    {
      if Differs(a, b, i) {
        SweepStep(i, i, plan.firstChanged, plan.staggerMs);
        assert t.charMs * TURN_RATIO > 0.0;
      }
    }
  }

  /** When the last changed column turns over. */
  function LastTurn(plan: Plan, charMs: real): real {
    Delay(plan.lastChanged, plan.firstChanged, plan.staggerMs) as real + charMs * TURN_RATIO
  }

  /** Every changed column has turned by then exactly when the last one has. */
  lemma AllTurnedWithLast(a: string, b: string, t: Timing, elapsed: real)
    requires TimingOk(t) && a != b
    ensures var plan := PlanOf(a, b, t);
            (forall i :: 0 <= i < |plan.cells| && plan.cells[i].changed ==> Turned(plan.cells[i], elapsed, t.charMs))
            <==> Max(0.0, elapsed) >= LastTurn(plan, t.charMs)
  {
    PlanShape(a, b, t);
    var plan := PlanOf(a, b, t);
    assert Turned(plan.cells[plan.lastChanged], elapsed, t.charMs) <==> Max(0.0, elapsed) >= LastTurn(plan, t.charMs);
    if Turned(plan.cells[plan.lastChanged], elapsed, t.charMs) {
      forall i | 0 <= i < |plan.cells| && plan.cells[i].changed
        ensures Turned(plan.cells[i], elapsed, t.charMs)
      {
        assert Differs(a, b, i);
        TurnsSweepAndStay(a, b, t, i, plan.lastChanged, elapsed, elapsed);
      }
    }
  }

  /** A flip lasting `c` from `x` or later outlasts, once rounded, its half from `xk` exactly when it is not rounded away. */
  lemma HalfTurnFits(xk: real, x: real, c: real)
    requires xk <= x && c > 0.0
    ensures Round(x + c) as real >= Round(xk) as real + c * TURN_RATIO <==> Round(x + c) > Round(xk)
  {
    RoundIsMonotone(xk + c, x + c);
  }

  /** How long after the first changed column, unrounded, column `i` of a cascade starts to flip. */
  function SweepTo(a: string, b: string, t: Timing, i: int): real
    requires a != b
  {
    NothingDiffersIffSame(a, b);
    var n := Width(a, b);
    Sweep(First(a, b, n), i, Stagger(First(a, b, n), Last(a, b, n), t))
  }

  lemma NothingDiffersIffSame(a: string, b: string)
    ensures a != b ==> 0 <= First(a, b, Width(a, b)) <= Last(a, b, Width(a, b))
  {
    if First(a, b, Width(a, b)) < 0 {
      NothingDiffers(a, b);
    }
  }

  predicate LooksDifferent(a: string, b: string, i: nat) {
    Face(Glyph(a, i)) != Face(Glyph(b, i))
  }

  /** The last of the first `n` columns that has to look different in the end, or -1. */
  function LastVisible(a: string, b: string, n: nat): (k: int)
    ensures -1 <= k < n
    ensures forall i :: 0 <= i < n && LooksDifferent(a, b, i) ==> i <= k
    ensures k >= 0 ==> LooksDifferent(a, b, k)
  {
    if n == 0 then -1
    else if LooksDifferent(a, b, n - 1) then n - 1
    else LastVisible(a, b, n - 1)
  }

  /** The rounded duration leaves room after the last column that has to look different starts to flip. */
  predicate LandsInTime(a: string, b: string, t: Timing)
    requires a != b
  {
    var n := Width(a, b);
    var k := LastVisible(a, b, n);
    k < 0 || Round(SweepTo(a, b, t, Last(a, b, n)) + t.charMs) > Round(SweepTo(a, b, t, k))
  }

  /** What the plan's times are, from the texts and the timing. */
  lemma PlanTimes(a: string, b: string, t: Timing, i: nat)
    requires TimingOk(t) && a != b && i < Width(a, b) && Differs(a, b, i)
    ensures var plan := PlanOf(a, b, t);
            && i < |plan.cells| && plan.cells[i].changed
            && plan.cells[i].delayMs == Round(SweepTo(a, b, t, i)) >= 0
            && plan.durationMs == Round(SweepTo(a, b, t, Last(a, b, Width(a, b))) + t.charMs) >= 0
            && 0.0 <= SweepTo(a, b, t, i) <= SweepTo(a, b, t, Last(a, b, Width(a, b)))
  {
    hide Stagger, Sweep;
    PlanShape(a, b, t);
    var plan := PlanOf(a, b, t);
    StaggerIsSound(plan.firstChanged, plan.lastChanged, t);
    SweepStep(i, plan.lastChanged, plan.firstChanged, plan.staggerMs);
    RoundIsMonotone(0.0, SweepTo(a, b, t, plan.lastChanged) + t.charMs);
  }

  /** The board reads the target exactly when the last column that has to look different has turned. */
  lemma ReadsTargetWithLast(a: string, b: string, t: Timing, elapsed: real)
    requires TimingOk(t) && a != b
    ensures var (cells, k) := (PlanOf(a, b, t).cells, LastVisible(a, b, Width(a, b)));
            |cells| == Width(a, b) &&
            (Visible(cells, elapsed, t.charMs) == Padded(b, |a|) <==> k < 0 || Turned(cells[k], elapsed, t.charMs))
  {
    PlanShape(a, b, t);
    var (cells, k) := (PlanOf(a, b, t).cells, LastVisible(a, b, Width(a, b)));
    var shown, target := Visible(cells, elapsed, t.charMs), Padded(b, |a|);
    hide Turned, Stagger, Delay;
    if k >= 0 && !Turned(cells[k], elapsed, t.charMs) {
      assert LooksDifferent(a, b, k);
      assert shown[k] == Face(Glyph(a, k)) != target[k];
    } else {
      forall i | 0 <= i < |cells|
        ensures shown[i] == target[i]
      {
        if LooksDifferent(a, b, i) {
          TurnsSweepAndStay(a, b, t, i, k, elapsed, elapsed);
        }
      }
      assert shown == target;
    }
  }

  /**
   * From the planned duration on the board reads the target exactly when the
   * rounded duration exceeds the rounded delay of the last column that has to
   * look different.
   */
  lemma LandsExactlyWhen(a: string, b: string, t: Timing)
    requires TimingOk(t) && a != b
    ensures var plan := PlanOf(a, b, t);
            (forall elapsed: real :: elapsed >= plan.durationMs as real ==>
               Visible(plan.cells, elapsed, t.charMs) == Padded(b, |a|))
            <==> LandsInTime(a, b, t)
  {
    var plan, k := PlanOf(a, b, t), LastVisible(a, b, Width(a, b));
    var duration := plan.durationMs as real;
    hide PlanOf, SweepTo, Visible, LooksDifferent, Padded;
    if k >= 0 {
      assert LooksDifferent(a, b, k);
      LooksDiffers(a, b, k);
      PlanTimes(a, b, t, k);
      HalfTurnFits(SweepTo(a, b, t, k), SweepTo(a, b, t, Last(a, b, Width(a, b))), t.charMs);
    }
    ReadsTargetWithLast(a, b, t, duration);
    forall elapsed: real | elapsed >= duration && LandsInTime(a, b, t)
      ensures Visible(plan.cells, elapsed, t.charMs) == Padded(b, |a|)
    {
      ReadsTargetWithLast(a, b, t, elapsed);
    }
  }

  lemma LooksDiffers(a: string, b: string, i: nat)
    requires LooksDifferent(a, b, i)
    ensures Differs(a, b, i)
  {
  }

  /** Every changed column, blanks included, has turned by the planned duration exactly when no flip is rounded away. */
  lemma ColumnsTurnExactlyWhen(a: string, b: string, t: Timing)
    requires TimingOk(t) && a != b
    ensures var plan := PlanOf(a, b, t);
            var x := SweepTo(a, b, t, Last(a, b, Width(a, b)));
            (forall i :: 0 <= i < |plan.cells| && plan.cells[i].changed ==>
               Turned(plan.cells[i], plan.durationMs as real, t.charMs))
            <==> Round(x + t.charMs) > Round(x)
  {
    var k := Last(a, b, Width(a, b));
    NothingDiffersIffSame(a, b);
    PlanTimes(a, b, t, k);
    LastIsLast(a, b, t);
    AllTurnedWithLast(a, b, t, PlanOf(a, b, t).durationMs as real);
    hide PlanOf, SweepTo;
    HalfTurnFits(SweepTo(a, b, t, k), SweepTo(a, b, t, k), t.charMs);
  }

  lemma LastIsLast(a: string, b: string, t: Timing)
    requires TimingOk(t) && a != b
    ensures var (plan, k) := (PlanOf(a, b, t), Last(a, b, Width(a, b)));
            LastTurn(plan, t.charMs) == Round(SweepTo(a, b, t, k)) as real + t.charMs * TURN_RATIO
  {
    hide Stagger, Sweep;
    PlanShape(a, b, t);
  }

  /** Which it always has when a character takes at least 2 ms to flip. */
  lemma LandsOnTarget(a: string, b: string, t: Timing, elapsed: real)
    requires TimingOk(t) && a != b && t.charMs >= 2.0
    requires elapsed >= PlanOf(a, b, t).durationMs as real
    ensures Visible(PlanOf(a, b, t).cells, elapsed, t.charMs) == Padded(b, |a|)
  {
    var k := LastVisible(a, b, Width(a, b));
    hide PlanOf, SweepTo, Visible, LooksDifferent, Padded;
    if k >= 0 {
      assert LooksDifferent(a, b, k);
      LooksDiffers(a, b, k);
      PlanTimes(a, b, t, k);
    }
    LandsExactlyWhen(a, b, t);
  }

  /** And in every case once the settle timer is due: a half turn of a shorter flip is less than its slack. */
  lemma SettledReadsTarget(a: string, b: string, t: Timing, elapsed: real)
    requires TimingOk(t) && a != b
    requires elapsed >= PlanOf(a, b, t).durationMs as real + 60.0
    ensures Visible(PlanOf(a, b, t).cells, elapsed, t.charMs) == Padded(b, |a|)
  {
    if t.charMs >= 2.0 {
      LandsOnTarget(a, b, t, elapsed);
    } else {
      var k := LastVisible(a, b, Width(a, b));
      hide PlanOf, SweepTo, Visible, LooksDifferent, Padded;
      ReadsTargetWithLast(a, b, t, elapsed);
      if k >= 0 {
        assert LooksDifferent(a, b, k);
        LooksDiffers(a, b, k);
        PlanTimes(a, b, t, k);
        RoundIsMonotone(SweepTo(a, b, t, k), SweepTo(a, b, t, Last(a, b, Width(a, b))) + t.charMs);
      }
    }
  }

  /** A sub-millisecond flip rounds its own duration away and has not landed. */
  lemma TinyFlipsLandLate()
    ensures var t := Timing(0.4, STAGGER_MS, MAX_TOTAL_MS);
            var plan := PlanOf("a", "b", t);
            plan.durationMs == 0 && Visible(plan.cells, plan.durationMs as real, t.charMs) == "a"
  {
    var t := Timing(0.4, STAGGER_MS, MAX_TOTAL_MS);
    assert Differs("a", "b", 0);
    PlanShape("a", "b", t);
    var plan := PlanOf("a", "b", t);
    assert plan.firstChanged == plan.lastChanged == 0;
    assert plan.staggerMs == 0.0;
    StartsWhereItWas("a", "b", t);
    assert Padded("a", 1) == "a";
  }

  lemma DurationIsRounded(a: string, b: string, t: Timing)
    requires TimingOk(t) && a != b
    ensures var plan := PlanOf(a, b, t);
            && plan.durationMs == Round(Sweep(plan.firstChanged, plan.lastChanged, plan.staggerMs) + t.charMs)
            && 0.0 <= Sweep(plan.firstChanged, plan.lastChanged, plan.staggerMs) <= Max(0.0, t.maxTotalMs - t.charMs)
  {
    hide Stagger, Sweep, Round;
    PlanShape(a, b, t);
    var plan := PlanOf(a, b, t);
    StaggerIsSound(plan.firstChanged, plan.lastChanged, t);
    SweepStep(plan.lastChanged, plan.lastChanged, plan.firstChanged, plan.staggerMs);
  }

  lemma RoundBelow(x: real, cap: real)
    requires 0.0 <= x <= cap
    ensures Round(x) <= Round(cap)
    ensures cap == cap.Floor as real ==> Round(x) as real <= cap
  {
    hide Round;
    RoundIsMonotone(x, cap);
    if cap == cap.Floor as real {
      RoundOfWhole(cap.Floor);
    }
  }

  /** The whole cascade fits its budget, whatever the length of the label. */
  lemma CascadeFitsBudget(a: string, b: string, t: Timing)
    requires TimingOk(t)
    ensures PlanOf(a, b, t).durationMs <= Round(Max(t.maxTotalMs, t.charMs))
    ensures t.maxTotalMs >= t.charMs && t.maxTotalMs == t.maxTotalMs.Floor as real ==>
              PlanOf(a, b, t).durationMs as real <= t.maxTotalMs
  {
    hide PlanOf, Sweep, Round;
    PlanShape(a, b, t);
    if a != b {
      var plan := PlanOf(a, b, t);
      DurationIsRounded(a, b, t);
      RoundBelow(Sweep(plan.firstChanged, plan.lastChanged, plan.staggerMs) + t.charMs, Max(t.maxTotalMs, t.charMs));
    } else {
      RoundBelow(0.0, Max(t.maxTotalMs, t.charMs));
    }
  }

  // -------------------------------------------------------------- the whole plan

  /** A column shows the character that `s` has there, if it has one. */
  predicate Holds(g: Option<char>, s: string, i: nat) {
    if i < |s| then g == Some(s[i]) else g == None
  }

  /** A time in whole milliseconds, the nearest to `x`; a half goes up. */
  predicate Nearest(n: int, x: real) {
    n as real - 0.5 <= x < n as real + 0.5
  }

  predicate ColumnIsPlanned(a: string, b: string, plan: Plan, i: nat)
    requires i < |plan.cells|
  {
    var cell := plan.cells[i];
    && cell.index == i && Holds(cell.from, a, i) && Holds(cell.to, b, i)
    && (cell.changed <==> cell.from != cell.to)
    && (cell.vacating <==> cell.changed && cell.to.None?)
    && (cell.changed ==> plan.firstChanged <= i <= plan.lastChanged
                         && Nearest(cell.delayMs, (i - plan.firstChanged) as real * plan.staggerMs))
    && (!cell.changed ==> cell.delayMs == 0)
  }

  /** The house stagger when the sweep fits the budget with it; else the largest that fits, or none. */
  predicate StaggerIsPlanned(stagger: real, steps: nat, t: Timing) {
    if steps == 0 then stagger == 0.0
    else if steps as real * t.staggerMs + t.charMs <= t.maxTotalMs then stagger == t.staggerMs
    else if t.maxTotalMs >= t.charMs then steps as real * stagger + t.charMs == t.maxTotalMs
    else stagger == 0.0
  }

  /** What a plan of two different texts is, column by column and in its times. */
  lemma CascadeIsPlanned(a: string, b: string, t: Timing)
    requires TimingOk(t) && a != b
    ensures var plan := PlanOf(a, b, t);
            && |plan.cells| == (if |a| < |b| then |b| else |a|)
            && (forall i :: 0 <= i < |plan.cells| ==> ColumnIsPlanned(a, b, plan, i))
            && 0 <= plan.firstChanged <= plan.lastChanged < |plan.cells|
            && plan.cells[plan.firstChanged].changed && plan.cells[plan.lastChanged].changed
            && plan.changedCount == |ChangedColumns(plan.cells)|
            && StaggerIsPlanned(plan.staggerMs, plan.lastChanged - plan.firstChanged, t)
            && Nearest(plan.durationMs, (plan.lastChanged - plan.firstChanged) as real * plan.staggerMs + t.charMs)
  {
    hide Stagger, ColumnIsPlanned, CellAt, Differs, CountDiffers;
    PlanShape(a, b, t);
    var plan := PlanOf(a, b, t);
    StaggerFits(plan.firstChanged, plan.lastChanged, t);
    CountIsCount(a, b, Width(a, b), plan.firstChanged, plan.staggerMs);
    forall i | 0 <= i < |plan.cells|
      ensures ColumnIsPlanned(a, b, plan, i)
    {
      ColumnPlanned(a, b, t, i);
    }
  }

  lemma ColumnPlanned(a: string, b: string, t: Timing, i: nat)
    requires TimingOk(t) && a != b && i < Width(a, b)
    ensures i < |PlanOf(a, b, t).cells| && ColumnIsPlanned(a, b, PlanOf(a, b, t), i)
  {
    hide Stagger;
    PlanShape(a, b, t);
  }

  function ChangedColumns(cells: seq<Cell>): set<int> {
    set i | 0 <= i < |cells| && cells[i].changed
  }

  lemma StaggerFits(first: int, last: int, t: Timing)
    requires TimingOk(t) && first <= last
    ensures StaggerIsPlanned(Stagger(first, last, t), last - first, t)
  {
    if last > first {
      var steps := (last - first) as real;
      var room := Max(0.0, t.maxTotalMs - t.charMs);
      assert (room / steps) * steps == room;
      if t.staggerMs <= room / steps {
        assert t.staggerMs * steps <= room;
      } else {
        assert t.staggerMs * steps > room;
      }
    }
  }

  lemma {:induction false} CountIsCount(a: string, b: string, n: nat, first: int, stagger: real)
    ensures CountDiffers(a, b, n) == |ChangedColumns(Cells(a, b, n, first, stagger))|
  {
    if n == 0 {
      assert ChangedColumns(Cells(a, b, n, first, stagger)) == {};
    } else {
      CountIsCount(a, b, n - 1, first, stagger);
      var before, now := Cells(a, b, n - 1, first, stagger), Cells(a, b, n, first, stagger);
      assert now[..n - 1] == before;
      assert ChangedColumns(now) == ChangedColumns(before) + if Differs(a, b, n - 1) then {n - 1} else {};
    }
  }

  /** What was asked for when that is a positive number, and the house value otherwise. */
  predicate AskedOr(asked: Option<real>, house: real, got: real) {
    if asked.None? || asked.value <= 0.0 then got == house else asked == Some(got)
  }

  /** 190 ms a character, 26 ms apart, 620 ms in all, unless the caller asks otherwise. */
  lemma TimingIsAsAsked(options: FlapOptions)
    ensures var t := TimingOf(options);
            && AskedOr(options.charMs, 190.0, t.charMs)
            && AskedOr(options.staggerMs, 26.0, t.staggerMs)
            && AskedOr(options.maxTotalMs, 620.0, t.maxTotalMs)
  {
  }

  /** A column shows its old character until half its flip is over, and its new one from then on. */
  lemma ColumnShows(a: string, b: string, t: Timing, elapsed: real, i: nat)
    requires TimingOk(t) && a != b && i < |PlanOf(a, b, t).cells|
    ensures var (plan, g) := (PlanOf(a, b, t), Visible(PlanOf(a, b, t).cells, elapsed, t.charMs));
            var s := if elapsed >= plan.cells[i].delayMs as real + t.charMs / 2.0 then b else a;
            i < |g| && g[i] == if i < |s| then s[i] else ' '
  {
    hide Stagger, Sweep;
    PlanShape(a, b, t);
    if Differs(a, b, i) {
      PlanTimes(a, b, t, i);
    }
  }

  // ------------------------------------------------------------------- the label

  datatype Cascade = Cascade(plan: Plan, charMs: real, startedAt: real, settleAt: real)

  /** A chip label: its settled text, and the cascade still running over it. */
  class ChipLabel {
    var text: string
    var cascade: Option<Cascade>
    /** What the running cascade started from, and its timing. */
    ghost var from: string
    ghost var timing: Timing

    ghost predicate Valid()
      reads this
    {
      cascade.Some? ==>
        && TimingOk(timing) && from != text
        && cascade.value.plan == PlanOf(from, text, timing)
        && cascade.value.charMs == timing.charMs
        && cascade.value.settleAt == cascade.value.startedAt + cascade.value.plan.durationMs as real + SETTLE_SLACK_MS
    }

    /** What a viewer sees at time `now`. */
    ghost function Shown(now: real): string
      reads this
    {
      if cascade.Some? then Visible(cascade.value.plan.cells, now - cascade.value.startedAt, cascade.value.charMs) else text
    }

    constructor (text: string)
      ensures Valid() && this.text == text && cascade.None?
    {
      this.text, cascade := text, None;
      from, timing := "", Timing(CHAR_MS, STAGGER_MS, MAX_TOTAL_MS);
    }

    /**
     * Change the label. Writing the settled text again does nothing, even in
     * mid-cascade; otherwise a started cascade begins exactly at what was shown,
     * padded with blanks to the new board. `onScreen` is a visible label
     * without reduced motion.
     */
    method SetText(next: string, options: FlapOptions, onScreen: bool, now: real) returns (started: bool)
      requires Valid()
      modifies this
      ensures Valid() && text == next
      ensures old(text) == next ==> !started && cascade == old(cascade) && Shown(now) == old(Shown(now))
      ensures started <==> old(text) != next && onScreen && !options.immediate && old(Shown(now)) != next
      ensures started ==> cascade.Some? && cascade.value.startedAt == now
                          && Shown(now) == Padded(old(Shown(now)), |next|)
      ensures old(text) != next && !started ==> cascade.None? && Shown(now) == next
      ensures onScreen && !options.immediate ==> Shown(now) == old(Shown(now)) || (started && Shown(now) == Padded(old(Shown(now)), |next|))
    {
      if text == next {
        return false;
      }
      var displayed := text;
      if cascade.Some? {
        displayed := VisibleGlyphs(cascade.value.plan, now - cascade.value.startedAt, cascade.value.charMs);
      }
      cascade := None;
      var t := TimingOf(options);
      var plan := NO_PLAN;
      if onScreen && !options.immediate {
        plan := PlanSplitFlap(displayed, next, t);
      }
      PlanShape(displayed, next, t);
      text := next;
      if plan.changedCount == 0 {
        return false;
      }
      cascade := Some(Cascade(plan, t.charMs, now, now + plan.durationMs as real + SETTLE_SLACK_MS));
      from, timing := displayed, t;
      StartsWhereItWas(displayed, next, t);
      return true;
    }

    /** The one timer of a change: strip the flaps once they have all landed. */
    method Settle(now: real)
      requires Valid() && cascade.Some? && now >= cascade.value.settleAt
      modifies this
      ensures Valid() && cascade.None? && text == old(text) && Shown(now) == text
      ensures old(Shown(now)) == Padded(text, |old(from)|)
    {
      SettledReadsTarget(from, text, timing, now - cascade.value.startedAt);
      cascade := None;
    }

    /** Dropping the decoration leaves the text. */
    method Dispose()
      requires Valid()
      modifies this
      ensures Valid() && cascade.None? && text == old(text)
    {
      cascade := None;
    }
  }
}
