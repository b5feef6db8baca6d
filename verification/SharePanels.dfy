/**
 * The panel layout carried by a share link: which panels are collapsed and
 * which are pinned.
 */
module SharePanels {
  import opened Options
  import opened ShareText

  const UI: string := "ui"

  datatype PanelId =
    | ControlPanel | LocationBar | DataPanel | CctvPanel | RecentImageryPanel
    | RadioPanel | ScenePanel | GlobalContextPanel | PpToggles | ParamSliderPanel
    | Unregistered(name: string)

  datatype PanelSpec = PanelSpec(id: PanelId, token: string, pinnable: bool)

  const REGISTRY: seq<PanelSpec> := [
    PanelSpec(ControlPanel, "c", true),
    PanelSpec(LocationBar, "l", true),
    PanelSpec(DataPanel, "d", false),
    PanelSpec(CctvPanel, "v", false),
    PanelSpec(RecentImageryPanel, "i", false),
    PanelSpec(RadioPanel, "r", false),
    PanelSpec(ScenePanel, "s", false),
    PanelSpec(GlobalContextPanel, "g", false),
    PanelSpec(PpToggles, "p", false),
    PanelSpec(ParamSliderPanel, "m", false)
  ]

  /** One panel's state; `None` is anything but a boolean. */
  datatype Panel = Panel(id: PanelId, collapsed: Option<bool>, pinned: Option<bool>)

  /** What the codec needs of a registry of panels. */
  ghost predicate RegistryOk(specs: seq<PanelSpec>) {
    && (forall i, j :: 0 <= i < j < |specs| ==> specs[i].token != specs[j].token && specs[i].id != specs[j].id)
    && (forall s <- specs :: Plain(s.token))
  }

  predicate Plain(token: string) {
    |token| == 1 && token[0] != '.' && token[0] != '_' && !IsSpace(token[0])
  }

  /** Position of a panel and of a token in the registry. */
  function Rank(id: PanelId): int {
    match id
    case ControlPanel => 0
    case LocationBar => 1
    case DataPanel => 2
    case CctvPanel => 3
    case RecentImageryPanel => 4
    case RadioPanel => 5
    case ScenePanel => 6
    case GlobalContextPanel => 7
    case PpToggles => 8
    case ParamSliderPanel => 9
    case Unregistered(_) => -1
  }

  function TokenRank(token: string): int {
    match token
    case "c" => 0
    case "l" => 1
    case "d" => 2
    case "v" => 3
    case "i" => 4
    case "r" => 5
    case "s" => 6
    case "g" => 7
    case "p" => 8
    case "m" => 9
    case _ => -1
  }

  lemma Ranked(i: nat)
    requires i < |REGISTRY|
    ensures Rank(REGISTRY[i].id) == i && TokenRank(REGISTRY[i].token) == i && Plain(REGISTRY[i].token)
  {
    if i < 5 {
      assert i == 0 || i == 1 || i == 2 || i == 3 || i == 4;
    } else {
      assert i == 5 || i == 6 || i == 7 || i == 8 || i == 9;
    }
  }

  lemma RegistryIsOk()
    ensures RegistryOk(REGISTRY)
  {
    hide Rank, TokenRank, Plain;
    forall i, j | 0 <= i < j < |REGISTRY|
      ensures REGISTRY[i].token != REGISTRY[j].token && REGISTRY[i].id != REGISTRY[j].id
    {
      Ranked(i);
      Ranked(j);
    }
    forall s | s in REGISTRY
      ensures Plain(s.token)
    {
      var i :| 0 <= i < |REGISTRY| && REGISTRY[i] == s;
      Ranked(i);
    }
  }

  // ------------------------------------------------------------------- encoding

  function Find(panels: seq<Panel>, id: PanelId): (found: Option<Panel>)
    ensures found.Some? ==> found.value in panels && found.value.id == id
    ensures found.None? ==> forall p <- panels :: p.id != id
  {
    if panels == [] then None
    else if panels[0].id == id then Some(panels[0])
    else Find(panels[1..], id)
  }

  function Bit(b: bool): string {
    if b then "1" else "0"
  }

  function Assignment(spec: PanelSpec, field: string, b: bool): string {
    Join([spec.token, field, Bit(b)], '.')
  }

  function AssignmentsOf(spec: PanelSpec, panels: seq<Panel>): seq<string> {
    var state := Find(panels, spec.id);
    if state.None? || state.value.collapsed.None? then []
    else [Assignment(spec, "c", state.value.collapsed.value)] +
         (if spec.pinnable && state.value.pinned.Some? then [Assignment(spec, "p", state.value.pinned.value)] else [])
  }

  function Assignments(specs: seq<PanelSpec>, panels: seq<Panel>): seq<string> {
    if specs == [] then []
    else Assignments(specs[..|specs| - 1], panels) + AssignmentsOf(specs[|specs| - 1], panels)
  }

  /** The `ui` parameter after encoding; removed when there is nothing to say. */
  function Encoded(params: Params, panels: seq<Panel>): Params {
    var assignments := Assignments(REGISTRY, panels);
    if assignments == [] then params - {UI} else params[UI := Join(assignments, '_')]
  }

  // ------------------------------------------------------------------- decoding

  function TokenOf(spec: PanelSpec): string {
    spec.token
  }

  function SpecOf(specs: seq<PanelSpec>, token: string): Option<PanelSpec> {
    ByToken(specs, TokenOf, token)
  }

  /** Insertion-ordered update, as a JavaScript `Map` does it. */
  function Put(states: seq<Panel>, panel: Panel): seq<Panel> {
    if states == [] then [panel]
    else if states[0].id == panel.id then [panel] + states[1..]
    else [states[0]] + Put(states[1..], panel)
  }

  function Apply(specs: seq<PanelSpec>, states: seq<Panel>, assignment: string): seq<Panel> {
    var fields := Split(assignment, '.');
    if |fields| != 3 then states else
      var spec := SpecOf(specs, fields[0]);
      if spec.None? || (fields[1] != "c" && fields[1] != "p") then states
      else if fields[2] != "0" && fields[2] != "1" then states
      else
        var current := Find(states, spec.value.id).GetOr(Panel(spec.value.id, None, None));
        var flag := Some(fields[2] == "1");
        Put(states, if fields[1] == "c" then current.(collapsed := flag)
                    else if spec.value.pinnable then current.(pinned := flag)
                    else current)
  }

  function Fold(specs: seq<PanelSpec>, assignments: seq<string>): seq<Panel> {
    if assignments == [] then []
    else Apply(specs, Fold(specs, assignments[..|assignments| - 1]), assignments[|assignments| - 1])
  }

  function Settled(states: seq<Panel>): seq<Panel> {
    if states == [] then []
    else Settled(states[..|states| - 1]) +
         (if states[|states| - 1].collapsed.Some? then [states[|states| - 1]] else [])
  }

  function Decoded(params: Params): Option<seq<Panel>> {
    if !Current(params) || UI !in params then None else
      var raw := Trim(params[UI]);
      if raw == "" then None else
        var panels := Settled(Fold(REGISTRY, Split(raw, '_')));
        if panels == [] then None else Some(panels)
  }

  // ------------------------------------------------------------ what a link says

  function CanonicalOf(spec: PanelSpec, panels: seq<Panel>): seq<Panel> {
    var state := Find(panels, spec.id);
    if state.None? || state.value.collapsed.None? then []
    else [Panel(spec.id, state.value.collapsed, if spec.pinnable then state.value.pinned else None)]
  }

  /** Registry order, registered panels only, `pinned` only where pinnable. */
  function Canonical(specs: seq<PanelSpec>, panels: seq<Panel>): seq<Panel> {
    if specs == [] then []
    else Canonical(specs[..|specs| - 1], panels) + CanonicalOf(specs[|specs| - 1], panels)
  }

  // --------------------------------------------------------------- the round trip

  lemma FieldsOf(spec: PanelSpec, field: string, b: bool)
    requires Plain(spec.token) && (field == "c" || field == "p")
    ensures Split(Assignment(spec, field, b), '.') == [spec.token, field, Bit(b)]
    ensures forall c <- Assignment(spec, field, b) :: c != '_' && !IsSpace(c)
    ensures Assignment(spec, field, b) != ""
  {
    SplitJoin([spec.token, field, Bit(b)], '.');
    forall c | c in Assignment(spec, field, b)
      ensures c != '_' && !IsSpace(c)
    {
      JoinHolds([spec.token, field, Bit(b)], '.', c);
    }
    assert Assignment(spec, field, b)[0] == spec.token[0];
  }

  lemma SpecOfToken(specs: seq<PanelSpec>, i: nat)
    requires RegistryOk(specs) && i < |specs|
    ensures SpecOf(specs, specs[i].token) == Some(specs[i])
  {
    ByTokenFinds(specs, TokenOf, i);
  }

  lemma {:induction false} PutNew(states: seq<Panel>, panel: Panel)
    requires forall p <- states :: p.id != panel.id
    ensures Put(states, panel) == states + [panel]
  {
    if states != [] {
      PutNew(states[1..], panel);
      assert states == [states[0]] + states[1..];
    }
  }

  lemma {:induction false} PutLast(states: seq<Panel>, last: Panel, panel: Panel)
    requires panel.id == last.id && forall p <- states :: p.id != panel.id
    ensures Put(states + [last], panel) == states + [panel]
    ensures Find(states + [last], panel.id) == Some(last)
  {
    if states != [] {
      PutLast(states[1..], last, panel);
      assert (states + [last])[1..] == states[1..] + [last];
    } else {
      assert [last][1..] == [];
    }
  }

  lemma CollapsedReadsBack(specs: seq<PanelSpec>, i: nat, states: seq<Panel>, b: bool)
    requires RegistryOk(specs) && i < |specs|
    requires forall p <- states :: p.id != specs[i].id
    ensures Apply(specs, states, Assignment(specs[i], "c", b)) == states + [Panel(specs[i].id, Some(b), None)]
  {
    hide Assignment;
    FieldsOf(specs[i], "c", b);
    SpecOfToken(specs, i);
    NothingFound(states, specs[i].id);
    PutNew(states, Panel(specs[i].id, Some(b), None));
  }

  lemma PinnedReadsBack(specs: seq<PanelSpec>, i: nat, states: seq<Panel>, last: Panel, b: bool)
    requires RegistryOk(specs) && i < |specs| && specs[i].pinnable && last.id == specs[i].id
    requires forall p <- states :: p.id != specs[i].id
    ensures Apply(specs, states + [last], Assignment(specs[i], "p", b)) == states + [last.(pinned := Some(b))]
  {
    hide Assignment;
    FieldsOf(specs[i], "p", b);
    SpecOfToken(specs, i);
    PutLast(states, last, last.(pinned := Some(b)));
  }

  lemma FoldOneMore(specs: seq<PanelSpec>, before: seq<string>, assignment: string)
    ensures Fold(specs, before + [assignment]) == Apply(specs, Fold(specs, before), assignment)
  {
    hide Apply;
    assert (before + [assignment])[..|before|] == before;
  }

  /** The assignments of one panel, read back, append exactly its canonical state. */
  lemma PanelReadsBack(specs: seq<PanelSpec>, i: nat, states: seq<Panel>, before: seq<string>, panels: seq<Panel>)
    requires RegistryOk(specs) && i < |specs| && Fold(specs, before) == states
    requires forall p <- states :: p.id != specs[i].id
    ensures Fold(specs, before + AssignmentsOf(specs[i], panels)) == states + CanonicalOf(specs[i], panels)
  {
    hide Apply, Assignment, Fold, RegistryOk;
    var spec, state := specs[i], Find(panels, specs[i].id);
    if state.None? || state.value.collapsed.None? {
      assert before + [] == before;
    } else {
      var collapsed := Assignment(spec, "c", state.value.collapsed.value);
      var first := Panel(spec.id, state.value.collapsed, None);
      CollapsedReadsBack(specs, i, states, state.value.collapsed.value);
      FoldOneMore(specs, before, collapsed);
      if spec.pinnable && state.value.pinned.Some? {
        var pinned := Assignment(spec, "p", state.value.pinned.value);
        assert before + AssignmentsOf(spec, panels) == (before + [collapsed]) + [pinned];
        PinnedReadsBack(specs, i, states, first, state.value.pinned.value);
        FoldOneMore(specs, before + [collapsed], pinned);
      } else {
        assert AssignmentsOf(spec, panels) == [collapsed];
      }
    }
  }

  lemma {:induction false} NothingFound(states: seq<Panel>, id: PanelId)
    requires forall p <- states :: p.id != id
    ensures Find(states, id).None?
  {
  }

  lemma {:induction false} CanonicalNames(specs: seq<PanelSpec>, panels: seq<Panel>)
    ensures forall p <- Canonical(specs, panels) ::
              p.collapsed.Some? &&
              exists i :: 0 <= i < |specs| && specs[i].id == p.id && (p.pinned.Some? ==> specs[i].pinnable)
  {
    if specs != [] {
      var init, last := specs[..|specs| - 1], specs[|specs| - 1];
      CanonicalNames(init, panels);
      forall p | p in Canonical(specs, panels)
        ensures p.collapsed.Some? &&
                exists i :: 0 <= i < |specs| && specs[i].id == p.id && (p.pinned.Some? ==> specs[i].pinnable)
      {
        if p in Canonical(init, panels) {
          var i :| 0 <= i < |init| && init[i].id == p.id && (p.pinned.Some? ==> init[i].pinnable);
          assert specs[i] == init[i];
        } else {
          assert specs[|specs| - 1].id == p.id;
        }
      }
    }
  }

  lemma {:induction false} FoldReadsBack(specs: seq<PanelSpec>, n: nat, panels: seq<Panel>)
    requires RegistryOk(specs) && n <= |specs|
    ensures Fold(specs, Assignments(specs[..n], panels)) == Canonical(specs[..n], panels)
  {
    if n > 0 {
      hide AssignmentsOf, CanonicalOf;
      assert specs[..n][..n - 1] == specs[..n - 1];
      FoldReadsBack(specs, n - 1, panels);
      CanonicalNames(specs[..n - 1], panels);
      PanelReadsBack(specs, n - 1, Canonical(specs[..n - 1], panels), Assignments(specs[..n - 1], panels), panels);
    }
  }

  lemma {:induction false} SettledKeeps(states: seq<Panel>)
    requires forall p <- states :: p.collapsed.Some?
    ensures Settled(states) == states
  {
    if states != [] {
      SettledKeeps(states[..|states| - 1]);
      assert states == states[..|states| - 1] + [states[|states| - 1]];
    }
  }

  lemma {:induction false} AssignmentsArePlain(specs: seq<PanelSpec>, panels: seq<Panel>)
    requires RegistryOk(specs)
    ensures forall a <- Assignments(specs, panels) :: a != "" && forall c <- a :: c != '_' && !IsSpace(c)
    ensures Assignments(specs, panels) == [] <==> Canonical(specs, panels) == []
  {
    if specs != [] {
      var last := specs[|specs| - 1];
      AssignmentsArePlain(specs[..|specs| - 1], panels);
      FieldsOf(last, "c", true);
      FieldsOf(last, "c", false);
      FieldsOf(last, "p", true);
      FieldsOf(last, "p", false);
    }
  }

  /**
   * The round trip: what a link decodes to is the canonical form of what it was
   * made from, and nothing exactly when that is empty.
   */
  lemma RoundTrip(params: Params, panels: seq<Panel>)
    requires Current(params)
    ensures var canonical := Canonical(REGISTRY, panels);
            Decoded(Encoded(params, panels)) == if canonical == [] then None else Some(canonical)
  {
    hide Assignments, Fold, Settled, Canonical, RegistryOk, REGISTRY;
    RegistryIsOk();
    AssignmentsArePlain(REGISTRY, panels);
    if Assignments(REGISTRY, panels) != [] {
      TextRoundTrip(REGISTRY, panels);
    }
  }

  lemma TextRoundTrip(specs: seq<PanelSpec>, panels: seq<Panel>)
    requires RegistryOk(specs) && Assignments(specs, panels) != []
    ensures var raw := Join(Assignments(specs, panels), '_');
            && Trim(raw) == raw && raw != ""
            && Settled(Fold(specs, Split(raw, '_'))) == Canonical(specs, panels)
  {
    hide RegistryOk, Assignments, Fold, Canonical, Settled;
    var assignments := Assignments(specs, panels);
    AssignmentsArePlain(specs, panels);
    var raw := Join(assignments, '_');
    forall c | c in raw
      ensures !IsSpace(c)
    {
      JoinHolds(assignments, '_', c);
    }
    TrimKeeps(raw);
    SplitJoin(assignments, '_');
    assert assignments[0] in assignments && |raw| >= |assignments[0]|;
    assert specs[..|specs|] == specs;
    FoldReadsBack(specs, |specs|, panels);
    CanonicalNames(specs, panels);
    SettledKeeps(Canonical(specs, panels));
  }

  // ------------------------------------------------------------------ fixed point

  lemma {:induction false} FindAppend(a: seq<Panel>, b: seq<Panel>, id: PanelId)
    ensures Find(a + b, id) == if Find(a, id).Some? then Find(a, id) else Find(b, id)
  {
    if a == [] {
      assert a + b == b;
    } else {
      FindAppend(a[1..], b, id);
      assert (a + b)[1..] == a[1..] + b;
    }
  }

  function Head(panels: seq<Panel>): Option<Panel> {
    if panels == [] then None else Some(panels[0])
  }

  /** Looking a registered panel up in the canonical form gives its canonical state. */
  lemma {:induction false} FindCanonical(specs: seq<PanelSpec>, i: nat, panels: seq<Panel>)
    requires RegistryOk(specs) && i < |specs|
    ensures Find(Canonical(specs, panels), specs[i].id) == Head(CanonicalOf(specs[i], panels))
    decreases |specs|
  {
    hide CanonicalOf, Find, Head;
    var init, last := specs[..|specs| - 1], specs[|specs| - 1];
    FindAppend(Canonical(init, panels), CanonicalOf(last, panels), specs[i].id);
    FindOwn(last, panels, specs[i].id);
    if i < |init| {
      FindCanonical(init, i, panels);
      assert last.id != specs[i].id;
    } else {
      CanonicalNames(init, panels);
      NothingFound(Canonical(init, panels), last.id);
    }
  }

  lemma FindOwn(spec: PanelSpec, panels: seq<Panel>, id: PanelId)
    ensures Find(CanonicalOf(spec, panels), id) == if id == spec.id then Head(CanonicalOf(spec, panels)) else None
  {
  }

  lemma SameAssignments(spec: PanelSpec, panels: seq<Panel>, canonical: seq<Panel>)
    requires Find(canonical, spec.id) == Head(CanonicalOf(spec, panels))
    ensures AssignmentsOf(spec, canonical) == AssignmentsOf(spec, panels)
    ensures CanonicalOf(spec, canonical) == CanonicalOf(spec, panels)
  {
    hide Assignment;
  }

  lemma {:induction false} CanonicalAgain(specs: seq<PanelSpec>, n: nat, panels: seq<Panel>)
    requires RegistryOk(specs) && n <= |specs|
    ensures Canonical(specs[..n], Canonical(specs, panels)) == Canonical(specs[..n], panels)
    ensures Assignments(specs[..n], Canonical(specs, panels)) == Assignments(specs[..n], panels)
  {
    if n > 0 {
      assert specs[..n][..n - 1] == specs[..n - 1];
      hide AssignmentsOf, CanonicalOf, RegistryOk;
      CanonicalAgain(specs, n - 1, panels);
      FindCanonical(specs, n - 1, panels);
      SameAssignments(specs[n - 1], panels, Canonical(specs, panels));
    }
  }

  lemma {:induction false} EmptyAssigns(specs: seq<PanelSpec>)
    ensures Assignments(specs, []) == []
  {
    if specs != [] {
      EmptyAssigns(specs[..|specs| - 1]);
    }
  }

  /** Re-encoding what a link decodes to writes the same link again. */
  lemma ReencodingIsFixed(params: Params, panels: seq<Panel>)
    requires Current(params)
    ensures Encoded(params, Decoded(Encoded(params, panels)).GetOr([])) == Encoded(params, panels)
  {
    hide Decoded, Canonical, Assignments;
    RegistryIsOk();
    RoundTrip(params, panels);
    AssignmentsArePlain(REGISTRY, panels);
    EmptyAssigns(REGISTRY);
    WholeCanonicalAgain(REGISTRY, panels);
  }

  lemma WholeCanonicalAgain(specs: seq<PanelSpec>, panels: seq<Panel>)
    requires RegistryOk(specs)
    ensures Assignments(specs, Canonical(specs, panels)) == Assignments(specs, panels)
  {
    hide *;
    assert specs[..|specs|] == specs;
    CanonicalAgain(specs, |specs|, panels);
  }

  // --------------------------------------------------------------- hostile strings

  /** A decoded list: distinct registered panels, `pinned` only where pinnable. */
  ghost predicate Lawful(specs: seq<PanelSpec>, states: seq<Panel>) {
    && (forall i, j :: 0 <= i < j < |states| ==> states[i].id != states[j].id)
    && (forall p <- states :: exists s :: s in specs && s.id == p.id && (p.pinned.Some? ==> s.pinnable))
  }

  lemma {:induction false} PutAt(states: seq<Panel>, panel: Panel)
    ensures var after := Put(states, panel);
            && |states| <= |after| <= |states| + 1
            && (forall i :: 0 <= i < |states| ==> after[i].id == states[i].id && (after[i] == states[i] || after[i] == panel))
            && (|after| > |states| ==> after[|states|] == panel && forall p <- states :: p.id != panel.id)
  {
    if states != [] && states[0].id != panel.id {
      PutAt(states[1..], panel);
    }
  }

  lemma ApplyIsLawful(specs: seq<PanelSpec>, states: seq<Panel>, assignment: string)
    requires RegistryOk(specs) && Lawful(specs, states)
    ensures Lawful(specs, Apply(specs, states, assignment))
  {
    var fields := Split(assignment, '.');
    if |fields| == 3 && SpecOf(specs, fields[0]).Some? {
      ByTokenIsRegistered(specs, TokenOf, fields[0]);
      var spec := SpecOf(specs, fields[0]).value;
      var current := Find(states, spec.id).GetOr(Panel(spec.id, None, None));
      UniqueSpec(specs, states, spec);
      PutIsLawful(specs, states, current, spec);
      PutIsLawful(specs, states, current.(collapsed := Some(fields[2] == "1")), spec);
      if spec.pinnable {
        PutIsLawful(specs, states, current.(pinned := Some(fields[2] == "1")), spec);
      }
    }
  }

  lemma UniqueSpec(specs: seq<PanelSpec>, states: seq<Panel>, spec: PanelSpec)
    requires RegistryOk(specs) && Lawful(specs, states) && spec in specs
    ensures var found := Find(states, spec.id); found.Some? && found.value.pinned.Some? ==> spec.pinnable
  {
    var found := Find(states, spec.id);
    if found.Some? {
      var s :| s in specs && s.id == found.value.id && (found.value.pinned.Some? ==> s.pinnable);
      assert s == spec;
    }
  }

  lemma PutIsLawful(specs: seq<PanelSpec>, states: seq<Panel>, panel: Panel, spec: PanelSpec)
    requires Lawful(specs, states)
    requires spec in specs && spec.id == panel.id && (panel.pinned.Some? ==> spec.pinnable)
    ensures Lawful(specs, Put(states, panel))
  {
    hide Put;
    PutAt(states, panel);
    var after := Put(states, panel);
    forall p | p in after
      ensures exists s :: s in specs && s.id == p.id && (p.pinned.Some? ==> s.pinnable)
    {
      assert p == panel || p in states;
    }
  }

  lemma {:induction false} FoldIsLawful(specs: seq<PanelSpec>, assignments: seq<string>)
    requires RegistryOk(specs)
    ensures Lawful(specs, Fold(specs, assignments))
  {
    if assignments != [] {
      FoldIsLawful(specs, assignments[..|assignments| - 1]);
      ApplyIsLawful(specs, Fold(specs, assignments[..|assignments| - 1]), assignments[|assignments| - 1]);
    }
  }

  lemma {:induction false} SettledIsLawful(specs: seq<PanelSpec>, states: seq<Panel>)
    requires Lawful(specs, states)
    ensures Lawful(specs, Settled(states))
    ensures forall p <- Settled(states) :: p in states && p.collapsed.Some?
  {
    if states != [] {
      SettledIsLawful(specs, states[..|states| - 1]);
    }
  }

  /** Whatever string a link carries, it decodes only to registered panels, each once. */
  lemma AnyLinkIsLawful(params: Params)
    ensures var decoded := Decoded(params);
            decoded.Some? ==> && Lawful(REGISTRY, decoded.value) && decoded.value != []
                              && forall p <- decoded.value :: p.collapsed.Some?
  {
    RegistryIsOk();
    if Current(params) && UI in params {
      var parts := Split(Trim(params[UI]), '_');
      FoldIsLawful(REGISTRY, parts);
      SettledIsLawful(REGISTRY, Fold(REGISTRY, parts));
    }
  }
}
