/**
 * The text of a share link: what the codecs write for one panel and for one
 * preset parameter, what they make of one assignment of any text at all, and
 * which parameters of the link they touch.
 */
module ShareWire {
  import opened Options
  import opened ShareText
  import Panels = SharePanels
  import Styles = ShareStyles

  // --------------------------------------------------------------------- panels

  /** Only the control panel and the location bar can be pinned. */
  lemma OnlyTwoPin(spec: Panels.PanelSpec)
    requires spec in Panels.REGISTRY
    ensures spec.pinnable <==> spec.id in {Panels.ControlPanel, Panels.LocationBar}
  {
  }

  function Flag(b: bool): char {
    if b then '1' else '0'
  }

  /** A panel is written as `token.c.flag`, and one that can be pinned also as `token.p.flag`. */
  lemma PanelIsWritten(spec: Panels.PanelSpec, panels: seq<Panels.Panel>)
    requires spec in Panels.REGISTRY
    ensures var (state, out) := (Panels.Find(panels, spec.id), Panels.AssignmentsOf(spec, panels));
            if state.None? || state.value.collapsed.None? then out == []
            else
              var first := spec.token + "." + "c" + "." + [Flag(state.value.collapsed.value)];
              if spec.id in {Panels.ControlPanel, Panels.LocationBar} && state.value.pinned.Some?
              then out == [first, spec.token + "." + "p" + "." + [Flag(state.value.pinned.value)]]
              else out == [first]
  {
    OnlyTwoPin(spec);
    hide Panels.REGISTRY, Panels.Find, Join;
    var state := Panels.Find(panels, spec.id);
    if state.Some? {
      AssignmentIsWritten(spec, "c", state.value.collapsed.GetOr(false));
      AssignmentIsWritten(spec, "p", state.value.pinned.GetOr(false));
    }
    hide Panels.Assignment;
  }

  lemma AssignmentIsWritten(spec: Panels.PanelSpec, field: string, b: bool)
    ensures Panels.Assignment(spec, field, b) == spec.token + "." + field + "." + [Flag(b)]
  {
    JoinTwo(field, Panels.Bit(b), '.');
    var parts := [spec.token, field, Panels.Bit(b)];
    assert parts[1..] == [field, Panels.Bit(b)];
    assert Join(parts, '.') == spec.token + "." + (field + "." + Panels.Bit(b));
  }

  lemma JoinTwo(a: string, b: string, d: char)
    ensures Join([a, b], d) == a + [d] + b
  {
    assert [a, b][1..] == [b];
  }

  /** The layout is the link's `ui` parameter, which is there exactly when a registered panel has a state to tell. */
  lemma LayoutIsUi(params: Params, panels: seq<Panels.Panel>)
    ensures var link := Panels.Encoded(params, panels);
            && link - {"ui"} == params - {"ui"}
            && ("ui" in link <==> Panels.Canonical(Panels.REGISTRY, panels) != [])
  {
    hide Panels.REGISTRY, Panels.Assignments, Panels.Canonical;
    Panels.RegistryIsOk();
    Panels.AssignmentsArePlain(Panels.REGISTRY, panels);
  }

  lemma {:induction false} FindPut(states: seq<Panels.Panel>, panel: Panels.Panel, id: Panels.PanelId)
    ensures Panels.Find(Panels.Put(states, panel), id)
            == if id == panel.id then Some(panel) else Panels.Find(states, id)
  {
    if states != [] {
      FindPut(states[1..], panel, id);
    }
  }

  /** `token.c.flag` or `token.p.flag` of a registered panel. */
  predicate IsPanelText(fields: seq<string>) {
    && |fields| == 3 && Panels.SpecOf(Panels.REGISTRY, fields[0]).Some?
    && fields[1] in {"c", "p"} && fields[2] in {"0", "1"}
  }

  /** What one assignment does: text of any other form nothing, and the rest sets one flag of one panel. */
  lemma AssignmentIsRead(states: seq<Panels.Panel>, assignment: string)
    ensures var (fields, after) := (Split(assignment, '.'), Panels.Apply(Panels.REGISTRY, states, assignment));
            if !IsPanelText(fields) then after == states
            else
              var spec := Panels.SpecOf(Panels.REGISTRY, fields[0]).value;
              var was := Panels.Find(states, spec.id).GetOr(Panels.Panel(spec.id, None, None));
              var flag := Some(fields[2] == "1");
              && spec in Panels.REGISTRY && spec.token == fields[0]
              && (forall id | id != spec.id :: Panels.Find(after, id) == Panels.Find(states, id))
              && Panels.Find(after, spec.id) == Some(
                   if fields[1] == "c" then Panels.Panel(was.id, flag, was.pinned)
                   else if spec.pinnable then Panels.Panel(was.id, was.collapsed, flag)
                   else was)
  {
    hide Panels.REGISTRY, Panels.Put, Panels.Find, Split;
    var fields := Split(assignment, '.');
    if IsPanelText(fields) {
      ByTokenIsRegistered(Panels.REGISTRY, Panels.TokenOf, fields[0]);
      forall panel, id: Panels.PanelId
        ensures Panels.Find(Panels.Put(states, panel), id)
                == if id == panel.id then Some(panel) else Panels.Find(states, id)
      {
        FindPut(states, panel, id);
      }
    }
  }

  // -------------------------------------------------------------------- presets

  /** The parameters of a preset. */
  function KeysOf(style: Styles.Style): set<Styles.Key> {
    match style
    case Retro => {Styles.Pixelation, Styles.Distortion, Styles.Instability}
    case Surveillance => {Styles.Gain, Styles.Bloom, Styles.ScanlineStr, Styles.Pixelation}
    case Thermal => {Styles.Sensitivity, Styles.Bloom, Styles.Mode, Styles.Pixelation, Styles.Palette}
    case Anime => {Styles.Saturation, Styles.EdgeThick}
    case Noir => {Styles.ContrastAmt, Styles.GrainAmt, Styles.VignetteAmt}
    case Snow => {Styles.Density, Styles.Wind}
    case Unregistered(_) => {}
  }

  function Letter(key: Styles.Key): char {
    match key
    case Pixelation => 'p'
    case Distortion => 'd'
    case Instability => 'i'
    case Gain => 'g'
    case Bloom => 'b'
    case ScanlineStr => 's'
    case Sensitivity => 's'
    case Mode => 'm'
    case Palette => 'a'
    case Saturation => 's'
    case EdgeThick => 'e'
    case ContrastAmt => 'c'
    case GrainAmt => 'g'
    case VignetteAmt => 'v'
    case Density => 'd'
    case Wind => 'w'
  }

  /** Where a slider ends. */
  function Top(style: Styles.Style, key: Styles.Key): int {
    if key == Styles.Pixelation then (if style == Styles.Retro then 10 else 6)
    else if key in {Styles.Saturation, Styles.ContrastAmt} then 2
    else 1
  }

  /** An entry of a preset's registry: the parameter's letter and range. */
  predicate EntryIs(style: Styles.Style, s: Styles.ParamSpec) {
    && s.key in KeysOf(style) && s.token == [Letter(s.key)]
    && s.min == (if s.key == Styles.Pixelation then 1 else 0) && s.max == Top(style, s.key)
  }

  ghost predicate Lists(specs: seq<Styles.ParamSpec>, style: Styles.Style) {
    && (forall s <- specs :: EntryIs(style, s))
    && (forall k <- KeysOf(style) :: Listed(specs, k))
  }

  predicate Listed(specs: seq<Styles.ParamSpec>, k: Styles.Key) {
    exists s <- specs :: s.key == k
  }

  lemma ListedAt(specs: seq<Styles.ParamSpec>, i: nat)
    requires i < |specs|
    ensures Listed(specs, specs[i].key)
  {
  }

  lemma FewAreListed(specs: seq<Styles.ParamSpec>, style: Styles.Style)
    requires 0 < |specs| <= 5
    requires forall i | 0 <= i < |specs| :: EntryIs(style, specs[i])
    requires forall k <- KeysOf(style) :: k == specs[0].key || (|specs| > 1 && k == specs[1].key)
               || (|specs| > 2 && k == specs[2].key) || (|specs| > 3 && k == specs[3].key)
               || (|specs| > 4 && k == specs[4].key)
    ensures Lists(specs, style)
  {
    hide Listed, EntryIs, KeysOf;
    forall i: nat | i < |specs|
      ensures Listed(specs, specs[i].key)
    {
      ListedAt(specs, i);
    }
  }

  /** A preset's registry lists exactly its parameters, with their letters and ranges. */
  lemma PresetIs(style: Styles.Style)
    ensures Styles.Registry(style).None? <==> style.Unregistered?
    ensures Styles.Registry(style).Some? ==> Lists(Styles.Registry(style).value, style)
  {
    hide Lists, Letter, EntryIs;
    if Styles.Registry(style).Some? {
      var specs := Styles.Registry(style).value;
      forall i: nat | i < |specs|
        ensures EntryIs(style, specs[i])
      {
        EntryAt(style, i);
      }
      FewAreListed(specs, style);
    }
  }

  lemma EntryAt(style: Styles.Style, i: nat)
    requires Styles.Registry(style).Some? && i < |Styles.Registry(style).value|
    ensures EntryIs(style, Styles.Registry(style).value[i])
  {
    assert i == 0 || i == 1 || i == 2 || i == 3 || i == 4;
  }

  /** A parameter is written as `token.hundredths`. */
  lemma ParameterIsWritten(spec: Styles.ParamSpec, x: real)
    requires spec.min <= spec.max
    ensures exists n: int ::
              && Styles.Assignment(spec, x) == spec.token + "." + Print(n)
              && n as real - 0.5 <= 100.0 * Styles.Clamp(x, spec) < n as real + 0.5
  {
    hide Print;
    var n := Styles.Hundredths(x, spec);
    JoinTwo(spec.token, Print(n), '.');
    assert n as real - 0.5 <= 100.0 * Styles.Clamp(x, spec) < n as real + 0.5;
    assert Styles.Assignment(spec, x) == spec.token + "." + Print(n);
  }

  /** The parameters are the link's `sp`, which is there exactly when a registered one has a value. */
  lemma ParametersAreSp(params: Params, style: Styles.Style, values: Option<map<Styles.Key, real>>)
    ensures var link := Styles.Encoded(params, style, values);
            && link - {"sp"} == params - {"sp"}
            && ("sp" in link <==> values.Some? && KeysOf(style) * values.value.Keys != {})
  {
    hide Styles.Assignments, Styles.Registry, KeysOf, Join;
    if Styles.Registry(style).Some? && values.Some? {
      var specs := Styles.Registry(style).value;
      PresetIs(style);
      AnyValueIsWritten(specs, values.value);
      if k :| k in KeysOf(style) * values.value.Keys {
        assert Listed(specs, k);
      }
      if s :| s in specs && s.key in values.value {
        assert EntryIs(style, s) && s.key in KeysOf(style) * values.value.Keys;
      }
    } else {
      PresetIs(style);
      UnregisteredHasNone(style);
    }
  }

  lemma UnregisteredHasNone(style: Styles.Style)
    ensures style.Unregistered? ==> KeysOf(style) == {}
  {
  }

  lemma {:induction false} AnyValueIsWritten(specs: seq<Styles.ParamSpec>, values: map<Styles.Key, real>)
    ensures Styles.Assignments(specs, values) != [] <==> exists s <- specs :: s.key in values
  {
    if specs != [] {
      AnyValueIsWritten(specs[..|specs| - 1], values);
      assert specs == specs[..|specs| - 1] + [specs[|specs| - 1]];
    }
  }

  /** What one assignment does: set one registered parameter to its hundredths, held in range, or nothing. */
  lemma ParameterIsRead(style: Styles.Style, decoded: map<Styles.Key, real>, assignment: string)
    requires Styles.Registry(style).Some?
    ensures var (fields, specs) := (Split(assignment, '.'), Styles.Registry(style).value);
            var after := Styles.Apply(specs, decoded, assignment);
            if |fields| == 2 && IsInteger(fields[1]) && Styles.SpecOf(specs, fields[0]).Some? then
              exists s <- specs ::
                && s.token == fields[0]
                && after == decoded[s.key := HeldIn(ParseInteger(fields[1]), s)]
            else after == decoded
  {
    hide Styles.Registry, IsInteger, ParseInteger;
    var (fields, specs) := (Split(assignment, '.'), Styles.Registry(style).value);
    if |fields| == 2 && Styles.SpecOf(specs, fields[0]).Some? {
      ByTokenIsRegistered(specs, Styles.TokenOf, fields[0]);
      Styles.RegistriesAreOk(style);
    }
  }

  function HeldIn(n: int, spec: Styles.ParamSpec): real {
    if n < 100 * spec.min then spec.min as real
    else if n > 100 * spec.max then spec.max as real
    else n as real / 100.0
  }
}
