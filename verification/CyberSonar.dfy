/**
 * Colour ownership in the cyber sonar: a contact's colour belongs to its owner,
 * and the sonar composites over it without ever losing or compounding it.
 */
module CyberSonar {
  import opened Numbers
  import opened Options
  import opened SonarSampler

  const FACTOR_TOLERANCE: real := 0.002

  /** What a colour property of a visual can hold. */
  datatype Paint = Undefined | Null | Of(color: Color)

  /** `Main` is `color`; `Flat` are the untinted outline and background; `Fill` is a tinted other. */
  datatype Property = Main | Fill | Flat

  /** The sonar's memory of one property of one visual. */
  datatype Slot = Slot(base: Color, undefinedBase: bool, applied: Color, factor: real, floor: Option<real>)

  /** One property of a visual, with the memory kept beside it. */
  datatype Visual = Visual(paint: Paint, slot: Option<Slot>)

  predicate Owned(v: Visual) {
    v.slot.Some? && v.paint == Of(v.slot.value.applied)
  }

  function ColorOf(paint: Paint): Color {
    if paint.Of? then paint.color else WHITE
  }

  function BaseAlpha(v: Visual): real {
    if Owned(v) then v.slot.value.base.alpha else if v.paint.Of? then v.paint.color.alpha else 1.0
  }

  function Tinted(property: Property, base: Color, factor: real, floor: real): Color {
    if property.Flat? then base
    else Sampler(0.0, 0.0, floor, 0.0, 0.0, 0.0, 0.0, 1.0).Tint(base, factor)
  }

  function Dimmed(channel: real, k: real): real {
    channel * k
  }

  /** The colour shown over `base`: opaque models dim in RGB, everything else in alpha. */
  function Composed(property: Property, opaqueModel: bool, base: Color, factor: real, floor: real): Color {
    var tint := Tinted(property, base, factor, floor);
    var light := if opaqueModel then factor else 1.0;
    Color(Dimmed(tint.red, light), Dimmed(tint.green, light), Dimmed(tint.blue, light),
          Dimmed(base.alpha, if opaqueModel then 1.0 else factor))
  }

  predicate Displayable(c: Color) {
    Unit(c.red) && Unit(c.green) && Unit(c.blue) && Unit(c.alpha)
  }

  lemma DimmedIsUnit(x: real, k: real)
    requires Unit(x) && Unit(k)
    ensures Unit(Dimmed(x, k)) && Dimmed(x, k) <= x && (k == 1.0 ==> Dimmed(x, k) == x)
  {
    NonnegativeProduct(x, k);
    NonnegativeProduct(x, 1.0 - k);
    assert x * (1.0 - k) == x - x * k;
  }

  lemma TintedIsDisplayable(property: Property, base: Color, factor: real, floor: real)
    requires Displayable(base)
    ensures Displayable(Tinted(property, base, factor, floor))
  {
  }

  /** A displayable base stays displayable, and compositing never makes it more opaque than its owner did. */
  lemma ComposedIsDisplayable(property: Property, opaqueModel: bool, base: Color, factor: real, floor: real)
    requires Displayable(base) && Unit(factor)
    ensures var next := Composed(property, opaqueModel, base, factor, floor);
            Displayable(next) && next.alpha <= base.alpha && (opaqueModel ==> next.alpha == base.alpha)
  {
    hide Tinted, Dimmed;
    var tint := Tinted(property, base, factor, floor);
    var light := if opaqueModel then factor else 1.0;
    TintedIsDisplayable(property, base, factor, floor);
    DimmedIsUnit(tint.red, light);
    DimmedIsUnit(tint.green, light);
    DimmedIsUnit(tint.blue, light);
    DimmedIsUnit(base.alpha, if opaqueModel then 1.0 else factor);
  }

  /** The property is the sonar's to paint. */
  predicate Paints(v: Visual, property: Property) {
    v.paint.Of? || property.Main?
  }

  /** The guard that leaves an earlier paint as it is. */
  predicate Skips(v: Visual, requested: real, sampler: Option<real>) {
    Owned(v) && Abs(Clamp01(requested) - v.slot.value.factor) <= FACTOR_TOLERANCE && v.slot.value.floor == sampler
  }

  /** One paint of the sonar. `sampler` is its floor; without one the page's floor is used. */
  function Applied(v: Visual, property: Property, opaqueModel: bool,
                   requested: real, sampler: Option<real>, pageFloor: real): Visual {
    if !Paints(v, property) || Skips(v, requested, sampler) then v
    else
      var factor := Clamp01(requested);
      var base := if Owned(v) then v.slot.value.base else ColorOf(v.paint);
      var undefinedBase := if Owned(v) then v.slot.value.undefinedBase else v.paint == Undefined;
      var next := Composed(property, opaqueModel, base, factor, sampler.GetOr(pageFloor));
      Visual(Of(next), Some(Slot(base, undefinedBase, next, factor, sampler)))
  }

  /** Leave the contact to its owner. */
  function Deactivated(v: Visual): Visual {
    Visual(if !Owned(v) then v.paint else if v.slot.value.undefinedBase then Undefined else Of(v.slot.value.base), None)
  }

  // ----------------------------------------------------------------------- runs

  datatype Event =
    | OwnerWrites(paint: Paint)
    | SonarApplies(requested: real, sampler: Option<real>, pageFloor: real)
    | SonarDeactivates

  function Step(v: Visual, e: Event, property: Property, opaqueModel: bool): Visual {
    match e
    case OwnerWrites(paint) => v.(paint := paint)
    case SonarApplies(requested, sampler, pageFloor) => Applied(v, property, opaqueModel, requested, sampler, pageFloor)
    case SonarDeactivates => Deactivated(v)
  }

  function Run(start: Paint, events: seq<Event>, property: Property, opaqueModel: bool): Visual {
    if events == [] then Visual(start, None)
    else Step(Run(start, events[..|events| - 1], property, opaqueModel), events[|events| - 1], property, opaqueModel)
  }

  /** The colour the owner wrote last; a deactivation turns a composited `null` into white for good. */
  function OwnerPaint(start: Paint, events: seq<Event>, property: Property, opaqueModel: bool): Paint {
    if events == [] then start
    else
      var init, last := events[..|events| - 1], events[|events| - 1];
      var before := OwnerPaint(start, init, property, opaqueModel);
      match last
      case OwnerWrites(paint) => paint
      case SonarApplies(_, _, _) => before
      case SonarDeactivates =>
        if before == Null && Owned(Run(start, init, property, opaqueModel)) then Of(WHITE) else before
  }

  /** The floor that an event's paint uses, if it really paints. */
  function FloorAfter(v: Visual, used: real, e: Event, property: Property): real {
    if e.SonarApplies? && Paints(v, property) && !Skips(v, e.requested, e.sampler) then e.sampler.GetOr(e.pageFloor) else used
  }

  /** The floor of the last paint that was not skipped. */
  function FloorUsed(start: Paint, events: seq<Event>, property: Property, opaqueModel: bool): real {
    if events == [] then 0.0
    else
      var init := events[..|events| - 1];
      FloorAfter(Run(start, init, property, opaqueModel), FloorUsed(start, init, property, opaqueModel),
                 events[|events| - 1], property)
  }

  /** The owner never happens to write exactly the colour the sonar last applied. */
  ghost predicate Distinguishable(start: Paint, events: seq<Event>, property: Property, opaqueModel: bool) {
    forall k :: 0 <= k < |events| && events[k].OwnerWrites? ==>
      var v := Run(start, events[..k], property, opaqueModel);
      v.slot.Some? ==> events[k].paint != Of(v.slot.value.applied)
  }

  /** Either the owner's colour is showing, or the sonar's over a faithful memory of it, at the floor last used. */
  predicate Remembers(v: Visual, owner: Paint, used: real, property: Property, opaqueModel: bool) {
    if Owned(v) then
      var slot := v.slot.value;
      && slot.base == ColorOf(owner) && slot.undefinedBase == owner.Undefined?
      && Unit(slot.factor)
      && slot.applied == Composed(property, opaqueModel, slot.base, slot.factor, used)
      && (slot.floor.Some? ==> used == slot.floor.value)
    else v.paint == owner
  }

  lemma StepRemembers(v: Visual, owner: Paint, used: real, e: Event, property: Property, opaqueModel: bool)
    requires Remembers(v, owner, used, property, opaqueModel)
    requires e.OwnerWrites? && v.slot.Some? ==> e.paint != Of(v.slot.value.applied)
    ensures var after := match e
                         case OwnerWrites(paint) => paint
                         case SonarApplies(_, _, _) => owner
                         case SonarDeactivates => if owner == Null && Owned(v) then Of(WHITE) else owner;
            Remembers(Step(v, e, property, opaqueModel), after, FloorAfter(v, used, e, property), property, opaqueModel)
  {
    hide Composed;
  }

  /** On every interleaving of owner writes, sonar paints and deactivations the owner's colour is kept. */
  lemma {:induction false} RunRemembers(start: Paint, events: seq<Event>, property: Property, opaqueModel: bool)
    requires Distinguishable(start, events, property, opaqueModel)
    ensures Remembers(Run(start, events, property, opaqueModel), OwnerPaint(start, events, property, opaqueModel),
                      FloorUsed(start, events, property, opaqueModel), property, opaqueModel)
  {
    if events != [] {
      hide Step, Remembers, FloorAfter;
      var init, last := events[..|events| - 1], events[|events| - 1];
      forall k | 0 <= k < |init|
        ensures init[..k] == events[..k]
      {
      }
      RunRemembers(start, init, property, opaqueModel);
      StepRemembers(Run(start, init, property, opaqueModel), OwnerPaint(start, init, property, opaqueModel),
                    FloorUsed(start, init, property, opaqueModel), last, property, opaqueModel);
    }
  }

  /**
   * Deactivation gives the owner its colour back, `undefined` included; only a
   * `null` that the sonar painted over comes back as white.
   */
  lemma DeactivationRestores(start: Paint, events: seq<Event>, property: Property, opaqueModel: bool)
    requires Distinguishable(start, events, property, opaqueModel)
    ensures var v := Run(start, events, property, opaqueModel);
            var owner := OwnerPaint(start, events, property, opaqueModel);
            Deactivated(v) == Visual(if owner == Null && Owned(v) then Of(WHITE) else owner, None)
  {
    RunRemembers(start, events, property, opaqueModel);
  }

  /** A `null` the sonar paints over is handed back as white. */
  lemma NullComesBackWhite()
    ensures var events := [SonarApplies(1.0, Some(0.84), 0.84)];
            && Distinguishable(Null, events, Main, false)
            && OwnerPaint(Null, events, Main, false) == Null
            && Deactivated(Run(Null, events, Main, false)) == Visual(Of(WHITE), None)
  {
    var events := [SonarApplies(1.0, Some(0.84), 0.84)];
    assert events[..0] == [];
    assert Run(Null, [], Main, false) == Visual(Null, None);
    DeactivationRestores(Null, events, Main, false);
  }

  /** The floor on screen after an apply: the one asked for, unless the apply was skipped. */
  function FloorShown(v: Visual, used: real, requested: real, sampler: Option<real>, pageFloor: real): real {
    if Skips(v, requested, sampler) then used else sampler.GetOr(pageFloor)
  }

  /** How far a factor is above its floor, as the tint reads it. */
  function TintCoverage(factor: real, floor: real): real {
    if floor >= 0.9999 then 1.0 else Clamp01((factor - floor) / (1.0 - floor))
  }

  /** A channel of the tint: 28 parts of the owner's, 72 of the sweep's hue. */
  function TintChannel(own: real, dark: real, gain: real, coverage: real): real {
    0.28 * own + 0.72 * (dark + gain * coverage)
  }

  /** The owner's channels, tinted towards the sweep unless the property is flat. */
  predicate HasTint(red: real, green: real, blue: real, owner: Color, factor: real, floor: real, property: Property) {
    var coverage := TintCoverage(factor, floor);
    if property.Flat? then red == owner.red && green == owner.green && blue == owner.blue
    else
      && red == TintChannel(owner.red, 0.62, 0.38, coverage)
      && green == TintChannel(owner.green, 0.68, 0.16, coverage)
      && blue == TintChannel(owner.blue, 0.72, 0.12, coverage)
  }

  /** The owner's colour shown: an opaque model dims in its channels and keeps its alpha, all else fades in alpha. */
  ghost predicate Shows(c: Color, owner: Color, factor: real, floor: real, property: Property, opaqueModel: bool) {
    exists red, green, blue :: HasTint(red, green, blue, owner, factor, floor, property) &&
      if opaqueModel
      then c.red == red * factor && c.green == green * factor && c.blue == blue * factor && c.alpha == owner.alpha
      else c.red == red && c.green == green && c.blue == blue && c.alpha == owner.alpha * factor
  }

  lemma ComposedShows(property: Property, opaqueModel: bool, base: Color, factor: real, floor: real)
    ensures Shows(Composed(property, opaqueModel, base, factor, floor), base, factor, floor, property, opaqueModel)
  {
    var tint := Tinted(property, base, factor, floor);
    assert HasTint(tint.red, tint.green, tint.blue, base, factor, floor, property);
  }

  /** What an apply leaves of a property the sonar paints: the owner's colour shown once, at this floor. */
  ghost predicate ShowsOnce(after: Visual, owner: Paint, requested: real, floor: real, property: Property,
                            opaqueModel: bool) {
    && Owned(after) && Unit(after.slot.value.factor)
    && Abs(after.slot.value.factor - Clamp01(requested)) <= 0.002
    && after.paint == Of(Composed(property, opaqueModel, ColorOf(owner), after.slot.value.factor, floor))
    && Shows(after.paint.color, ColorOf(owner), after.slot.value.factor, floor, property, opaqueModel)
  }

  /** The sonar's own paint is still there, at this floor setting and within 0.002 of the factor. */
  predicate CloseEnough(v: Visual, requested: real, sampler: Option<real>) {
    && Owned(v) && v.slot.value.floor == sampler
    && v.slot.value.factor - 0.002 <= Clamp01(requested) <= v.slot.value.factor + 0.002
  }

  /**
   * What a paint leaves on screen is composed from the owner's colour, at a
   * factor within 0.002 of the one asked for, and a floor: the sampler's,
   * if there is one; else the page's, unless the paint is skipped, and then the
   * one last used.
   */
  lemma ApplyNeverCompounds(start: Paint, events: seq<Event>, property: Property, opaqueModel: bool,
                            requested: real, sampler: Option<real>, pageFloor: real)
    requires Distinguishable(start, events, property, opaqueModel)
    ensures var v := Run(start, events, property, opaqueModel);
            var owner := OwnerPaint(start, events, property, opaqueModel);
            var floor := FloorShown(v, FloorUsed(start, events, property, opaqueModel), requested, sampler, pageFloor);
            var after := Applied(v, property, opaqueModel, requested, sampler, pageFloor);
            && (if Paints(v, property) then ShowsOnce(after, owner, requested, floor, property, opaqueModel)
                else after == v && after.paint == owner)
            && (sampler.Some? ==> floor == sampler.value)
            && (Paints(v, property) && !CloseEnough(v, requested, sampler) ==>
                  after.slot.Some? && after.slot.value.factor == Clamp01(requested))
  {
    hide Composed, Run, OwnerPaint, Applied, Remembers, Distinguishable, FloorUsed, FloorShown, Skips;
    hide ShowsOnce, CloseEnough;
    RunRemembers(start, events, property, opaqueModel);
    PaintFromMemory(Run(start, events, property, opaqueModel), OwnerPaint(start, events, property, opaqueModel),
                    FloorUsed(start, events, property, opaqueModel), property, opaqueModel, requested, sampler, pageFloor);
  }

  lemma PaintFromMemory(v: Visual, owner: Paint, used: real, property: Property, opaqueModel: bool,
                        requested: real, sampler: Option<real>, pageFloor: real)
    requires Remembers(v, owner, used, property, opaqueModel)
    ensures var floor := FloorShown(v, used, requested, sampler, pageFloor);
            var after := Applied(v, property, opaqueModel, requested, sampler, pageFloor);
            && (if Paints(v, property) then ShowsOnce(after, owner, requested, floor, property, opaqueModel)
                else after == v && after.paint == owner)
            && (sampler.Some? ==> floor == sampler.value)
            && (Paints(v, property) && !CloseEnough(v, requested, sampler) ==>
                  after.slot.Some? && after.slot.value.factor == Clamp01(requested))
  {
    hide Composed, Shows;
    if Paints(v, property) {
      var after := Applied(v, property, opaqueModel, requested, sampler, pageFloor);
      ComposedShows(property, opaqueModel, ColorOf(owner), after.slot.value.factor,
                    FloorShown(v, used, requested, sampler, pageFloor));
    }
  }

  /** The floor changes a composite exactly when it changes the tint, and the tint is in sight. */
  lemma FloorMattersExactlyWhen(property: Property, opaqueModel: bool, base: Color, factor: real, a: real, b: real)
    ensures Composed(property, opaqueModel, base, factor, a) != Composed(property, opaqueModel, base, factor, b)
            <==> !property.Flat? && TintCoverage(factor, a) != TintCoverage(factor, b) && !(opaqueModel && factor == 0.0)
  {
    if !property.Flat? {
      var p, q := TintCoverage(factor, a), TintCoverage(factor, b);
      var x, y := Tinted(property, base, factor, a).red, Tinted(property, base, factor, b).red;
      assert x - y == (p - q) * 0.2736;
      if opaqueModel && factor != 0.0 && p != q {
        DimmedDiffers(x, y, factor);
      }
    }
  }

  lemma DimmedDiffers(x: real, y: real, k: real)
    requires x != y && k != 0.0
    ensures Dimmed(x, k) != Dimmed(y, k)
  {
    assert Dimmed(x, k) - Dimmed(y, k) == (x - y) * k;
  }

  /**
   * The colour on screen is not the one that the floor in force gives exactly
   * when there is no sampler, the apply is skipped, and the page's floor has
   * moved since the last paint so that a tinted colour shows it.
   */
  lemma PaintIsStaleExactlyWhen(start: Paint, events: seq<Event>, property: Property, opaqueModel: bool,
                                requested: real, sampler: Option<real>, pageFloor: real)
    requires Distinguishable(start, events, property, opaqueModel)
    requires Paints(Run(start, events, property, opaqueModel), property)
    ensures var v := Run(start, events, property, opaqueModel);
            var used := FloorUsed(start, events, property, opaqueModel);
            var owner := OwnerPaint(start, events, property, opaqueModel);
            var after := Applied(v, property, opaqueModel, requested, sampler, pageFloor);
            && after.slot.Some?
            && (after.paint != Of(Composed(property, opaqueModel, ColorOf(owner), after.slot.value.factor,
                                           sampler.GetOr(pageFloor)))
                <==> && sampler.None? && Skips(v, requested, None) && !property.Flat?
                     && !(opaqueModel && v.slot.value.factor == 0.0)
                     && TintCoverage(v.slot.value.factor, used) != TintCoverage(v.slot.value.factor, pageFloor))
  {
    hide Composed, Run, OwnerPaint, Remembers, Distinguishable, FloorUsed, TintCoverage;
    ApplyNeverCompounds(start, events, property, opaqueModel, requested, sampler, pageFloor);
    var v := Run(start, events, property, opaqueModel);
    var after := Applied(v, property, opaqueModel, requested, sampler, pageFloor);
    FloorMattersExactlyWhen(property, opaqueModel, ColorOf(OwnerPaint(start, events, property, opaqueModel)),
                            after.slot.value.factor, FloorUsed(start, events, property, opaqueModel), pageFloor);
  }

  /** The opacity read before a restyle is the owner's, never the composited one. */
  lemma BaseAlphaIsTheOwners(start: Paint, events: seq<Event>, property: Property, opaqueModel: bool)
    requires Distinguishable(start, events, property, opaqueModel)
    ensures BaseAlpha(Run(start, events, property, opaqueModel))
            == ColorOf(OwnerPaint(start, events, property, opaqueModel)).alpha
  {
    hide Composed;
    RunRemembers(start, events, property, opaqueModel);
  }

  /** White painted at factor 0.9 and floor 0.5 is not repainted when the page's floor falls to 0.2. */
  lemma PageFloorIsNotRechecked()
    ensures var events := [SonarApplies(0.9, None, 0.5)];
            var after := Applied(Run(Of(WHITE), events, Main, false), Main, false, 0.9, None, 0.2);
            && Distinguishable(Of(WHITE), events, Main, false)
            && after.paint == Of(Composed(Main, false, WHITE, 0.9, 0.5))
            && after.paint != Of(Composed(Main, false, WHITE, 0.9, 0.2))
  {
    hide Composed;
    var events := [SonarApplies(0.9, None, 0.5)];
    assert events[..0] == [];
    assert Run(Of(WHITE), [], Main, false) == Visual(Of(WHITE), None);
    FloorMattersExactlyWhen(Main, false, WHITE, 0.9, 0.5, 0.2);
  }

  // ------------------------------------------------------------------ the contact

  /** A visual whose colour setter copies, and its slot in the sonar's memory. */
  class Contact {
    var paint: Paint
    var slot: Option<Slot>

    function Now(): Visual
      reads this
    {
      Visual(paint, slot)
    }

    constructor (paint: Paint)
      ensures Now() == Visual(paint, None)
    {
      this.paint, slot := paint, None;
    }

    method OwnerWrite(paint: Paint)
      modifies this
      ensures Now() == old(Now()).(paint := paint)
    {
      this.paint := paint;
    }

    method ApplyCyberSonarPrimitive(property: Property, opaqueModel: bool, requested: real, active: bool,
                                    sampler: Option<real>, pageFloor: real)
      modifies this
      ensures Now() == if active then Applied(old(Now()), property, opaqueModel, requested, sampler, pageFloor)
                       else Deactivated(old(Now()))
    {
      hide Composed;
      var ownsCurrentColor := slot.Some? && paint == Of(slot.value.applied);
      if !active {
        if ownsCurrentColor {
          paint := if slot.value.undefinedBase then Undefined else Of(slot.value.base);
        }
        slot := None;
        return;
      }
      if !paint.Of? && !property.Main? {
        return;
      }
      var factor := Clamp01(requested);
      if ownsCurrentColor && Abs(factor - slot.value.factor) <= FACTOR_TOLERANCE && slot.value.floor == sampler {
        return;
      }
      var base := ColorOf(paint);
      var undefinedBase := paint == Undefined;
      if ownsCurrentColor {
        base, undefinedBase := slot.value.base, slot.value.undefinedBase;
      }
      var next := Composed(property, opaqueModel, base, factor, sampler.GetOr(pageFloor));
      paint := Of(next);
      slot := Some(Slot(base, undefinedBase, next, factor, sampler));
    }
  }
}
