/**
 * The share-link codecs as the manager runs them: encoders collect assignments
 * and write one parameter of the link, decoders fill a table from its text.
 */
module ShareLink {
  import opened Options
  import opened ShareText
  import P = SharePanels
  import S = ShareStyles

  /** The link's parameters, updated in place. */
  class SearchParams {
    var entries: map<string, string>

    constructor ()
      ensures entries == map[]
    {
      entries := map[];
    }

    method Set(name: string, value: string)
      modifies this
      ensures entries == old(entries)[name := value]
    {
      entries := entries[name := value];
    }

    method Delete(name: string)
      modifies this
      ensures entries == old(entries) - {name}
    {
      entries := entries - {name};
    }
  }

  method PanelAssignments(registry: seq<P.PanelSpec>, panels: seq<P.Panel>) returns (assignments: seq<string>)
    ensures assignments == P.Assignments(registry, panels)
  {
    assignments := [];
    for i := 0 to |registry|
      invariant assignments == P.Assignments(registry[..i], panels)
    {
      hide P.Find;
      assert registry[..i + 1][..i] == registry[..i];
      var spec := registry[i];
      var found := P.Find(panels, spec.id);
      if found.Some? && found.value.collapsed.Some? {
        assignments := assignments + [P.Assignment(spec, "c", found.value.collapsed.value)];
        if spec.pinnable && found.value.pinned.Some? {
          assignments := assignments + [P.Assignment(spec, "p", found.value.pinned.value)];
        }
      }
    }
    assert registry[..|registry|] == registry;
  }

  /** Write the panel states, or drop the parameter when there are none. */
  method EncodePanelStateParam(params: SearchParams, state: Option<seq<P.Panel>>)
    modifies params
    ensures params.entries == P.Encoded(old(params.entries), state.GetOr([]))
  {
    if state.None? || state.value == [] {
      P.EmptyAssigns(P.REGISTRY);
      params.Delete(P.UI);
      return;
    }
    var assignments := PanelAssignments(P.REGISTRY, state.value);
    if assignments != [] {
      params.Set(P.UI, Join(assignments, '_'));
    } else {
      params.Delete(P.UI);
    }
  }

  /** Read the panel states a link carries. */
  method DecodePanelStateParams(params: map<string, string>) returns (panels: Option<seq<P.Panel>>)
    ensures panels == P.Decoded(params)
  {
    hide P.Apply;
    if !Current(params) || P.UI !in params {
      return None;
    }
    var raw := Trim(params[P.UI]);
    if raw == "" {
      return None;
    }
    var assignments := Split(raw, '_');
    var states: seq<P.Panel> := [];
    for i := 0 to |assignments|
      invariant states == P.Fold(P.REGISTRY, assignments[..i])
    {
      assert assignments[..i + 1][..i] == assignments[..i];
      states := ApplyAssignment(states, assignments[i]);
    }
    assert assignments[..|assignments|] == assignments;
    var settled: seq<P.Panel> := [];
    for i := 0 to |states|
      invariant settled == P.Settled(states[..i])
    {
      assert states[..i + 1][..i] == states[..i];
      if states[i].collapsed.Some? {
        settled := settled + [states[i]];
      }
    }
    assert states[..|states|] == states;
    panels := if settled == [] then None else Some(settled);
  }

  method ApplyAssignment(states: seq<P.Panel>, assignment: string) returns (after: seq<P.Panel>)
    ensures after == P.Apply(P.REGISTRY, states, assignment)
  {
    var fields := Split(assignment, '.');
    if |fields| != 3 {
      return states;
    }
    var spec := P.SpecOf(P.REGISTRY, fields[0]);
    if spec.None? || (fields[1] != "c" && fields[1] != "p") {
      return states;
    }
    if fields[2] != "0" && fields[2] != "1" {
      return states;
    }
    var flag := fields[2] == "1";
    var current := P.Find(states, spec.value.id).GetOr(P.Panel(spec.value.id, None, None));
    if fields[1] == "c" {
      current := current.(collapsed := Some(flag));
    } else if spec.value.pinnable {
      current := current.(pinned := Some(flag));
    }
    after := P.Put(states, current);
  }

  method StyleAssignments(specs: seq<S.ParamSpec>, values: map<S.Key, real>) returns (assignments: seq<string>)
    ensures assignments == S.Assignments(specs, values)
  {
    hide S.Assignment;
    assignments := [];
    for i := 0 to |specs|
      invariant assignments == S.Assignments(specs[..i], values)
    {
      assert specs[..i + 1][..i] == specs[..i];
      if specs[i].key in values {
        assignments := assignments + [S.Assignment(specs[i], values[specs[i].key])];
      }
    }
    assert specs[..|specs|] == specs;
  }

  /** Write the preset's parameters, or drop the parameter when there are none. */
  method EncodeStyleParamState(params: SearchParams, style: S.Style, values: Option<map<S.Key, real>>)
    modifies params
    ensures params.entries == S.Encoded(old(params.entries), style, values)
  {
    var registry := S.Registry(style);
    if registry.None? || values.None? {
      params.Delete(S.SP);
      return;
    }
    var assignments := StyleAssignments(registry.value, values.value);
    if assignments != [] {
      params.Set(S.SP, Join(assignments, '_'));
    } else {
      params.Delete(S.SP);
    }
  }

  /** Read the preset's parameters a link carries. */
  method DecodeStyleParamState(params: map<string, string>, style: S.Style) returns (decoded: Option<map<S.Key, real>>)
    ensures decoded == S.Decoded(params, style)
  {
    hide S.Registry;
    if !Current(params) || S.SP !in params || S.Registry(style).None? {
      return None;
    }
    var specs := S.Registry(style).value;
    var assignments := Split(params[S.SP], '_');
    var table: map<S.Key, real> := map[];
    for i := 0 to |assignments|
      invariant table == S.Fold(specs, assignments[..i])
    {
      assert assignments[..i + 1][..i] == assignments[..i];
      var fields := Split(assignments[i], '.');
      if |fields| == 2 && IsInteger(fields[1]) {
        var spec := S.SpecOf(specs, fields[0]);
        if spec.Some? {
          table := table[spec.value.key := S.Value(ParseInteger(fields[1]), spec.value)];
        }
      }
    }
    assert assignments[..|assignments|] == assignments;
    decoded := if table == map[] then None else Some(table);
  }
}
