/**
 * The scope mask's opacity against altitude, its repaint gate, and painting
 * once per coalescing scope.
 */
module ScopeMask {
  import opened Numbers
  import opened Options
  import Curve = RouteProfile

  const OUTSIDE_ALPHA: real := 0.94
  const FAR_M: real := 10000000.0
  const NEAR_M: real := 7000000.0
  const QUANTUM: real := 0.005
  const LEAST_STEP: int := 188
  const MOST_STEP: int := 200

  /** How far into the descent ramp a height is. */
  function Depth(h: real): real {
    if h >= FAR_M then 0.0 else if h <= NEAR_M then 1.0 else (FAR_M - h) / (FAR_M - NEAR_M)
  }

  /** `None` is an unknown height. */
  function TerminusAlpha(height: Option<real>): real {
    if height.None? || height.value >= FAR_M then OUTSIDE_ALPHA
    else if height.value <= NEAR_M then 1.0
    else OUTSIDE_ALPHA + (1.0 - OUTSIDE_ALPHA) * Curve.Smoothstep((FAR_M - height.value) / (FAR_M - NEAR_M))
  }

  /** Snap to the repaint grid, rounding the product too. */
  function Quantize(alpha: real): real {
    var a := Max(0.0, Min(1.0, alpha));
    Round(Round(a / QUANTUM) as real * QUANTUM * 1000.0) as real / 1000.0
  }

  // ------------------------------------------------------------------- the curve

  /** Higher up the mask is never more opaque, and it stays within its band. */
  lemma AlphaIsAntitone(low: real, high: real)
    requires low <= high
    ensures OUTSIDE_ALPHA <= TerminusAlpha(Some(high)) <= TerminusAlpha(Some(low)) <= 1.0
  {
    DepthIsAntitone(low, high);
    hide Depth, TerminusAlpha, Curve.Smoothstep;
    Curve.MeanBetweenEnds(Depth(high), Depth(low));
    AlphaByDepth(low);
    AlphaByDepth(high);
  }

  /** 0.94 from 10,000 km up, or when the height is not known; opaque below 7,000 km; a smooth step in between. */
  lemma AlphaIs(height: Option<real>)
    ensures (height.None? || height.value >= 10000000.0) ==> TerminusAlpha(height) == 0.94
    ensures height.Some? && height.value <= 7000000.0 ==> TerminusAlpha(height) == 1.0
    ensures height.Some? && 7000000.0 <= height.value <= 10000000.0 ==>
              var p := (10000000.0 - height.value) / 3000000.0;
              TerminusAlpha(height) == 0.94 + 0.06 * (3.0 * p * p - 2.0 * p * p * p)
  {
  }

  lemma DepthIsAntitone(low: real, high: real)
    requires low <= high
    ensures 0.0 <= Depth(high) <= Depth(low) <= 1.0
  {
  }

  lemma AlphaByDepth(h: real)
    ensures TerminusAlpha(Some(h)) == OUTSIDE_ALPHA + (1.0 - OUTSIDE_ALPHA) * Curve.Smoothstep(Depth(h))
  {
    assert Curve.Smoothstep(0.0) == 0.0;
    assert Curve.Smoothstep(1.0) == 1.0;
  }

  /** The grid step of an alpha. */
  function StepOf(alpha: real): int {
    Round(alpha * 200.0)
  }

  function GridValue(n: int): real {
    n as real / 200.0
  }

  lemma QuantizeIsGrid(alpha: real)
    requires 0.0 <= alpha <= 1.0
    ensures Quantize(alpha) == GridValue(StepOf(alpha))
  {
    assert alpha / QUANTUM == alpha * 200.0;
    var n := StepOf(alpha);
    assert n as real * QUANTUM * 1000.0 == (5 * n) as real;
    RoundOfWhole(5 * n);
  }

  lemma StepIsBanded(alpha: real)
    requires OUTSIDE_ALPHA <= alpha <= 1.0
    ensures LEAST_STEP <= StepOf(alpha) <= MOST_STEP
  {
    RoundOfWhole(188);
    RoundOfWhole(200);
    RoundIsMonotone(188.0, alpha * 200.0);
    RoundIsMonotone(alpha * 200.0, 200.0);
  }

  /** The painted opacity is one of the 13 grid values from 0.94 to 1. */
  lemma ThirteenValues(height: Option<real>)
    ensures exists n :: LEAST_STEP <= n <= MOST_STEP && Quantize(TerminusAlpha(height)) == GridValue(n)
  {
    if height.Some? {
      AlphaIsAntitone(height.value, height.value);
    }
    var alpha := TerminusAlpha(height);
    QuantizeIsGrid(alpha);
    StepIsBanded(alpha);
  }

  // ------------------------------------------------------------ the repaint gate

  function Painted(start: real, heights: seq<real>): real {
    if heights == [] then start else Quantize(TerminusAlpha(Some(heights[|heights| - 1])))
  }

  /** How many samples repaint, starting from `start` on the canvas. */
  function Repaints(start: real, heights: seq<real>): nat {
    if heights == [] then 0
    else
      var init := heights[..|heights| - 1];
      Repaints(start, init) + (if Painted(start, heights) == Painted(start, init) then 0 else 1)
  }

  predicate Monotone(h0: real, heights: seq<real>) {
    var all := [h0] + heights;
    || (forall i, j :: 0 <= i <= j < |all| ==> all[i] <= all[j])
    || (forall i, j :: 0 <= i <= j < |all| ==> all[j] <= all[i])
  }

  function HeightStep(h: real): int {
    StepOf(TerminusAlpha(Some(h)))
  }

  lemma HeightStepIsAntitone(low: real, high: real)
    requires low <= high
    ensures LEAST_STEP <= HeightStep(high) <= HeightStep(low) <= MOST_STEP
    ensures Quantize(TerminusAlpha(Some(low))) == GridValue(HeightStep(low))
    ensures Quantize(TerminusAlpha(Some(high))) == GridValue(HeightStep(high))
  {
    hide TerminusAlpha, Quantize;
    AlphaIsAntitone(low, high);
    var (a, b) := (TerminusAlpha(Some(high)), TerminusAlpha(Some(low)));
    RoundIsMonotone(a * 200.0, b * 200.0);
    StepIsBanded(a);
    StepIsBanded(b);
    QuantizeIsGrid(a);
    QuantizeIsGrid(b);
  }

  function LastOf(h0: real, heights: seq<real>): real {
    if heights == [] then h0 else heights[|heights| - 1]
  }

  /** Every repaint of a one-way run moves at least one grid step the same way. */
  lemma {:induction false} RepaintsAreSteps(h0: real, heights: seq<real>)
    requires Monotone(h0, heights)
    ensures var moved := HeightStep(LastOf(h0, heights)) - HeightStep(h0);
            Repaints(Quantize(TerminusAlpha(Some(h0))), heights) <= if moved < 0 then -moved else moved
  {
    if heights != [] {
      hide HeightStep, Quantize, TerminusAlpha;
      var init, last := heights[..|heights| - 1], heights[|heights| - 1];
      var all := [h0] + heights;
      var before := LastOf(h0, init);
      assert [h0] + init == all[..|all| - 1];
      assert before == all[|all| - 2] && last == all[|all| - 1] && h0 == all[0];
      RepaintsAreSteps(h0, init);
      if h0 <= last {
        HeightStepIsAntitone(h0, before);
        HeightStepIsAntitone(before, last);
      } else {
        HeightStepIsAntitone(before, h0);
        HeightStepIsAntitone(last, before);
      }
    }
  }

  /** However many samples a one-way climb or descent has, it repaints at most 12 times. */
  lemma OneWayRunRepaintsFew(h0: real, heights: seq<real>)
    requires Monotone(h0, heights)
    ensures Repaints(Quantize(TerminusAlpha(Some(h0))), heights) <= MOST_STEP - LEAST_STEP
  {
    hide Repaints, HeightStep;
    RepaintsAreSteps(h0, heights);
    HeightStepIsAntitone(h0, h0);
    HeightStepIsAntitone(LastOf(h0, heights), LastOf(h0, heights));
  }

  // -------------------------------------------------------------------- the mask

  class Mask {
    var terminusAlpha: real
    var terminusOverride: Option<real>
    var enabled: bool
    var coalescing: bool
    var dirty: bool
    /** What is on the canvas; `None` when it is clear. */
    var ink: Option<real>
    var terminusRepaints: nat
    var canvasPaints: nat

    constructor ()
      ensures terminusAlpha == OUTSIDE_ALPHA && terminusOverride.None? && enabled && !coalescing && ink.None?
      ensures terminusRepaints == 0 && canvasPaints == 0
    {
      terminusAlpha, terminusOverride, enabled := OUTSIDE_ALPHA, None, true;
      coalescing, dirty, ink, terminusRepaints, canvasPaints := false, false, None, 0, 0;
    }

    function Target(height: Option<real>): real
      reads this
    {
      Quantize(if terminusOverride.None? then TerminusAlpha(height) else terminusOverride.value)
    }

    /** Paint the canvas, clear it once when the scope is off, or leave it to the open scope. */
    method Draw()
      modifies this`dirty, this`ink, this`canvasPaints
      ensures coalescing ==> dirty && ink == old(ink) && canvasPaints == old(canvasPaints)
      ensures !coalescing ==> dirty == old(dirty) && ink == (if enabled then Some(terminusAlpha) else None)
      ensures !coalescing ==> canvasPaints == old(canvasPaints) + (if enabled || old(ink).Some? then 1 else 0)
    {
      if coalescing {
        dirty := true;
      } else if enabled {
        ink, canvasPaints := Some(terminusAlpha), canvasPaints + 1;
      } else if ink.Some? {
        ink, canvasPaints := None, canvasPaints + 1;
      }
    }

    /** Resolve the opacity for a height and repaint only when its grid value moves. */
    method UpdateForHeight(height: Option<real>) returns (repainted: bool)
      modifies this
      ensures terminusAlpha == old(Target(height)) && repainted == (old(terminusAlpha) != old(Target(height)))
      ensures terminusRepaints == old(terminusRepaints) + (if repainted then 1 else 0)
      ensures !repainted ==> ink == old(ink) && canvasPaints == old(canvasPaints) && dirty == old(dirty)
      ensures repainted && !coalescing ==> ink == (if enabled then Some(terminusAlpha) else None)
      ensures repainted && coalescing ==> dirty && ink == old(ink) && canvasPaints == old(canvasPaints)
      ensures terminusOverride == old(terminusOverride) && enabled == old(enabled) && coalescing == old(coalescing)
    {
      var target := Target(height);
      if target == terminusAlpha {
        return false;
      }
      terminusAlpha := target;
      terminusRepaints := terminusRepaints + 1;
      Draw();
      return true;
    }

    /** Follow a run of known heights: the repaint count is the one of the gate. */
    method FollowHeights(heights: seq<real>)
      requires terminusOverride.None?
      modifies this
      ensures terminusRepaints == old(terminusRepaints) + Repaints(old(terminusAlpha), heights)
      ensures terminusAlpha == Painted(old(terminusAlpha), heights)
    {
      var i := 0;
      while i < |heights|
        invariant 0 <= i <= |heights| && terminusOverride.None?
        invariant terminusRepaints == old(terminusRepaints) + Repaints(old(terminusAlpha), heights[..i])
        invariant terminusAlpha == Painted(old(terminusAlpha), heights[..i])
      {
        assert heights[..i + 1][..i] == heights[..i];
        var _ := UpdateForHeight(Some(heights[i]));
        i := i + 1;
      }
      assert heights[..|heights|] == heights;
    }

    /** Pin the opacity to the supported band, or go back to following the altitude. */
    method SetOverride(alpha: Option<real>, height: Option<real>)
      modifies this
      ensures terminusOverride == if alpha.None? then None else Some(Max(OUTSIDE_ALPHA, Min(1.0, alpha.value)))
      ensures terminusAlpha == Target(height)
      ensures exists n :: LEAST_STEP <= n <= MOST_STEP && terminusAlpha == GridValue(n)
      ensures !coalescing && enabled ==> ink == Some(terminusAlpha)
      ensures enabled == old(enabled) && coalescing == old(coalescing)
    {
      terminusOverride := if alpha.None? then None else Some(Max(OUTSIDE_ALPHA, Min(1.0, alpha.value)));
      var target := Target(height);
      if target != terminusAlpha {
        terminusAlpha := target;
        terminusRepaints := terminusRepaints + 1;
      }
      Draw();
      if terminusOverride.None? {
        ThirteenValues(height);
      } else {
        QuantizeIsGrid(terminusOverride.value);
        StepIsBanded(terminusOverride.value);
      }
    }

    /**
     * A device-pixel-ratio change and a terminus step on the same tick: the
     * canvas is painted at most once, and with the newest opacity.
     */
    method OnPixelRatioChange(height: Option<real>)
      requires !coalescing
      modifies this
      ensures !coalescing && enabled == old(enabled)
      ensures terminusAlpha == if enabled then old(Target(height)) else old(terminusAlpha)
      ensures ink == if enabled then Some(terminusAlpha) else None
      ensures canvasPaints == old(canvasPaints) + (if enabled || old(ink).Some? then 1 else 0)
    {
      coalescing, dirty := true, false;
      if enabled {
        var _ := UpdateForHeight(height);
      }
      Draw();
      coalescing := false;
      if dirty {
        dirty := false;
        Draw();
      }
    }
  }
}
