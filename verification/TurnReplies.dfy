/**
 * The provider adapter and the turn together: what a whole streamed reply,
 * however it was cut into fragments, leaves in the store.
 */
module TurnReplies {
  import DeltaAssembly
  import opened Options
  import opened Transcript
  import opened TurnProtocol
  import opened TurnText
  import opened TurnReports

  // ------------------------------------------------------ the turn listening

  /** What an event of the adapter is to the turn; a reported delta is one step more. */
  function InputsFor(e: DeltaAssembly.ModelEvent): seq<Input> {
    match e
    case TextDelta(text) => [ModelText(text), Go(false)]
    case Call(call) => [ModelCall(call)]
    case Completed => [ModelDone]
  }

  function InputsOf(es: seq<DeltaAssembly.ModelEvent>): seq<Input> {
    if es == [] then [] else InputsOf(es[..|es| - 1]) + InputsFor(es[|es| - 1])
  }

  /** All the turn hears of a reply: the adapter's events, then its failure if it failed. */
  function Heard(es: seq<DeltaAssembly.ModelEvent>, ok: bool): seq<Input> {
    InputsOf(es) + if ok then [] else [ModelError]
  }

  predicate Listening(p: Phase) {
    p.Streaming? || p.YDelta?
  }

  /** A listening turn's step, which touches no store. */
  function Hear(l: Limits, t: Turn, i: Input): Turn {
    if t.phase.Streaming? then Stream(l, t, i)
    else if t.phase.YDelta? && i.Go? then t.(phase := Streaming)
    else t
  }

  function Fed(l: Limits, t: Turn, inputs: seq<Input>): Turn {
    if inputs == [] then t else Hear(l, Fed(l, t, inputs[..|inputs| - 1]), inputs[|inputs| - 1])
  }

  /** The turn is still listening at every input. */
  predicate HearsAll(l: Limits, t: Turn, inputs: seq<Input>) {
    inputs == [] ||
    var init := inputs[..|inputs| - 1];
    HearsAll(l, t, init) && Listening(Fed(l, t, init).phase)
  }

  lemma FedOne(l: Limits, t: Turn, inputs: seq<Input>, i: Input)
    ensures Fed(l, t, inputs + [i]) == Hear(l, Fed(l, t, inputs), i)
    ensures HearsAll(l, t, inputs + [i]) <==> HearsAll(l, t, inputs) && Listening(Fed(l, t, inputs).phase)
  {
    assert (inputs + [i])[..|inputs|] == inputs;
  }

  /** `t'` is `t` after these events: their text in its buffer, their calls collected. */
  predicate TookIn(t: Turn, t': Turn, es: seq<DeltaAssembly.ModelEvent>) {
    && t' == t.(buffer := t'.buffer, calls := t'.calls, emitted := t'.emitted, sequence := t'.sequence)
    && t'.calls == t.calls + DeltaAssembly.CollectCalls(es)
    && Concat(t'.buffer) == Concat(t.buffer) + DeltaAssembly.CollectText(es)
    && (t'.buffer == [] <==> t.buffer == [] && DeltaAssembly.CollectText(es) == "")
  }

  lemma TakesInOne(l: Limits, t: Turn, t': Turn, es: seq<DeltaAssembly.ModelEvent>, e: DeltaAssembly.ModelEvent)
    requires t.phase.Streaming? && !t.cancelled && TookIn(t, t', es)
    requires !e.Completed? && (e.TextDelta? ==> e.text != "")
    ensures Listening(t'.phase)
    ensures e.TextDelta? ==> var heard := Hear(l, t', ModelText(e.text));
                             Listening(heard.phase) && TookIn(t, Hear(l, heard, Go(false)), es + [e])
    ensures e.Call? ==> TookIn(t, Hear(l, t', ModelCall(e.call)), es + [e])
  {
    DeltaAssembly.CollectAppend(es, e);
    hide DeltaAssembly.CollectText, DeltaAssembly.CollectCalls;
    if e.TextDelta? {
      ConcatAppend(t'.buffer, e.text);
      hide Concat;
      assert Concat(t.buffer) + DeltaAssembly.CollectText(es) + e.text ==
             Concat(t.buffer) + (DeltaAssembly.CollectText(es) + e.text);
    }
  }

  lemma {:induction false} FedUnderWay(l: Limits, t: Turn, es: seq<DeltaAssembly.ModelEvent>)
    requires t.phase.Streaming? && !t.cancelled && DeltaAssembly.UnderWay(es)
    ensures HearsAll(l, t, InputsOf(es)) && TookIn(t, Fed(l, t, InputsOf(es)), es)
  {
    if es == [] {
      assert Concat(t.buffer) + "" == Concat(t.buffer) && t.calls + [] == t.calls;
    } else {
      var init, e := es[..|es| - 1], es[|es| - 1];
      assert e in es && forall x <- init :: x in es;
      assert init + [e] == es;
      FedUnderWay(l, t, init);
      FedMore(l, t, init, e);
    }
  }

  lemma FedMore(l: Limits, t: Turn, es: seq<DeltaAssembly.ModelEvent>, e: DeltaAssembly.ModelEvent)
    requires t.phase.Streaming? && !t.cancelled && !e.Completed? && (e.TextDelta? ==> e.text != "")
    requires HearsAll(l, t, InputsOf(es)) && TookIn(t, Fed(l, t, InputsOf(es)), es)
    ensures HearsAll(l, t, InputsOf(es + [e])) && TookIn(t, Fed(l, t, InputsOf(es + [e])), es + [e])
  {
    var inputs := InputsOf(es);
    assert InputsOf(es + [e]) == inputs + InputsFor(e) by { assert (es + [e])[..|es|] == es; }
    hide HearsAll, Fed, TookIn, Hear, InputsOf;
    TakesInOne(l, t, Fed(l, t, inputs), es, e);
    if e.TextDelta? {
      FedOne(l, t, inputs, ModelText(e.text));
      FedOne(l, t, inputs + [ModelText(e.text)], Go(false));
      assert inputs + [ModelText(e.text)] + [Go(false)] == inputs + InputsFor(e);
    } else {
      FedOne(l, t, inputs, ModelCall(e.call));
    }
  }

  // ------------------------------------------------------- the reply as heard

  /** The reply is one the turn can save: distinct calls within the budget, and not empty. */
  predicate Acceptable(l: Limits, t: Turn, text: string, calls: seq<ToolCall>) {
    DistinctCalls(calls) && |calls| <= l.maxCalls - t.used && (text != "" || calls != [])
  }

  /** What the turn will save of a reply: all of it, or the text before a failure. */
  ghost function ToSave(t: Turn, fs: seq<DeltaAssembly.Fragment>, parse: string -> Option<string>): Message {
    match DeltaAssembly.ReplyOf(fs, parse)
    case Reply(text, calls) => AssistantMessage(text, t.turnId, calls)
    case Failed => AssistantMessage(DeltaAssembly.TextOf(DeltaAssembly.UntilFault(fs)), t.turnId, [])
  }

  /** There is something to save: an acceptable reply, or text before a failure. */
  ghost predicate Saves(l: Limits, t: Turn, fs: seq<DeltaAssembly.Fragment>, parse: string -> Option<string>) {
    match DeltaAssembly.ReplyOf(fs, parse)
    case Reply(text, calls) => Acceptable(l, t, text, calls)
    case Failed => DeltaAssembly.TextOf(DeltaAssembly.UntilFault(fs)) != ""
  }

  /** About to save this message after its transcript as it stood. */
  predicate AboutToSave(t: Turn, t': Turn, m: Message) {
    && t'.session == t.session && t'.turnId == t.turnId
    && (t'.phase.SavingReply? || t'.phase == Persisting(ModelFailed, false))
    && m == AssistantMessage(Concat(t'.buffer), t.turnId, if t'.phase.SavingReply? then t'.calls else [])
    && (t'.phase.Persisting? ==> Concat(t'.buffer) != "")
  }

  /** A turn whose round has just begun. */
  predicate Ready(t: Turn) {
    t.phase.Streaming? && !t.cancelled && t.buffer == [] && t.calls == []
  }

  lemma EndsReply(l: Limits, t: Turn, u: Turn, es: seq<DeltaAssembly.ModelEvent>)
    requires Ready(t) && TookIn(t, u, es)
    requires Acceptable(l, t, DeltaAssembly.CollectText(es), DeltaAssembly.CollectCalls(es))
    ensures AboutToSave(t, Hear(l, u, ModelDone),
                        AssistantMessage(DeltaAssembly.CollectText(es), t.turnId, DeltaAssembly.CollectCalls(es)))
  {
    assert Concat(t.buffer) == "";
    hide Concat, DistinctCalls, DeltaAssembly.CollectText, DeltaAssembly.CollectCalls;
    assert "" + DeltaAssembly.CollectText(es) == DeltaAssembly.CollectText(es);
    assert [] + DeltaAssembly.CollectCalls(es) == DeltaAssembly.CollectCalls(es);
  }

  lemma EndsFailed(l: Limits, t: Turn, u: Turn, es: seq<DeltaAssembly.ModelEvent>)
    requires Ready(t) && TookIn(t, u, es) && DeltaAssembly.CollectText(es) != ""
    ensures AboutToSave(t, Hear(l, u, ModelError), AssistantMessage(DeltaAssembly.CollectText(es), t.turnId, []))
  {
    assert Concat(t.buffer) == "";
    hide Concat, EndOfStream, DeltaAssembly.CollectText, DeltaAssembly.CollectCalls;
    assert "" + DeltaAssembly.CollectText(es) == DeltaAssembly.CollectText(es);
  }

  lemma TookInListens(t: Turn, u: Turn, es: seq<DeltaAssembly.ModelEvent>)
    requires Ready(t) && TookIn(t, u, es)
    ensures Listening(u.phase)
  {
  }

  /** Fed all the adapter gives, the turn is about to save exactly what the fragments amount to. */
  lemma FedReply(l: Limits, t: Turn, fs: seq<DeltaAssembly.Fragment>, parse: string -> Option<string>,
                 events: seq<DeltaAssembly.ModelEvent>, ok: bool)
    requires Ready(t) && DeltaAssembly.Gives(fs, parse, events, ok) && Saves(l, t, fs, parse)
    ensures HearsAll(l, t, Heard(events, ok)) && AboutToSave(t, Fed(l, t, Heard(events, ok)), ToSave(t, fs, parse))
  {
    hide HearsAll, Fed, TookIn, Hear, AboutToSave, Acceptable;
    hide DeltaAssembly.ReplyOf, DeltaAssembly.TextOf, DeltaAssembly.UntilFault, DeltaAssembly.UnderWay;
    if ok {
      var init := events[..|events| - 1];
      FedUnderWay(l, t, init);
      TookInListens(t, Fed(l, t, InputsOf(init)), init);
      assert init + [DeltaAssembly.Completed] == events;
      DeltaAssembly.CollectAppend(init, DeltaAssembly.Completed);
      hide DeltaAssembly.CollectText, DeltaAssembly.CollectCalls;
      assert DeltaAssembly.CollectText(init) + "" == DeltaAssembly.CollectText(init);
      assert DeltaAssembly.CollectCalls(init) + [] == DeltaAssembly.CollectCalls(init);
      EndsReply(l, t, Fed(l, t, InputsOf(init)), init);
      FedOne(l, t, InputsOf(init), ModelDone);
      assert Heard(events, ok) == InputsOf(init) + [ModelDone];
    } else {
      FedUnderWay(l, t, events);
      TookInListens(t, Fed(l, t, InputsOf(events)), events);
      EndsFailed(l, t, Fed(l, t, InputsOf(events)), events);
      FedOne(l, t, InputsOf(events), ModelError);
    }
  }

  // -------------------------------------------------------------- in a world

  /** What the actions have turn `p` hear. */
  function InputsTo(actions: seq<Action>, p: nat): seq<Input> {
    if actions == [] then []
    else
      var a := actions[|actions| - 1];
      InputsTo(actions[..|actions| - 1], p) + if a.Advance? && a.p == p then [a.input] else []
  }

  /** No one cancels, closes or crashes turn `p`. */
  predicate LeavesAlone(actions: seq<Action>, p: nat) {
    forall a <- actions :: (a.Cancel? || a.Close? || a.Crash?) ==> a.p != p
  }

  lemma ActionHeard(l: Limits, w: World, a: Action, p: nat)
    requires p < |w.turns| && LeavesAlone([a], p)
    ensures p < |Do(l, w, a).turns|
    ensures a.Advance? && a.p == p && Listening(w.turns[p].phase) ==> Do(l, w, a).turns[p] == Hear(l, w.turns[p], a.input)
    ensures !(a.Advance? && a.p == p) ==> Do(l, w, a).turns[p] == w.turns[p]
  {
    hide Stream, Operate, Execute;
    assert a in [a];
  }

  /** Whatever the other turns do meanwhile, a listening turn goes by its own inputs. */
  lemma {:induction false} RunHeard(l: Limits, w: World, actions: seq<Action>, p: nat)
    requires p < |w.turns| && LeavesAlone(actions, p) && HearsAll(l, w.turns[p], InputsTo(actions, p))
    ensures p < |Exec(l, w, actions).turns|
    ensures Exec(l, w, actions).turns[p] == Fed(l, w.turns[p], InputsTo(actions, p))
  {
    if actions != [] {
      var init, a := actions[..|actions| - 1], actions[|actions| - 1];
      assert a in actions && forall x <- init :: x in actions;
      if a.Advance? && a.p == p {
        FedOne(l, w.turns[p], InputsTo(init, p), a.input);
      }
      hide Do, Hear, Fed, HearsAll;
      assert InputsTo(init, p) + [] == InputsTo(init, p);
      RunHeard(l, w, init, p);
      ActionHeard(l, Exec(l, w, init), a, p);
    }
  }

  lemma SavesMessage(l: Limits, w: World, p: nat, t: Turn, m: Message)
    requires Current(w, p) && AboutToSave(t, w.turns[p], m)
    ensures var w' := Do(l, w, Advance(p, Go(false)));
            t.session.id in w'.sessions && w'.sessions[t.session.id].messages == t.session.messages + [m]
  {
    hide Concat;
  }

  /**
   * From the beginning of a round, once the turn has heard all that the adapter
   * gives for a response, with any other turns at work in between, its next
   * step stores the whole reply as one assistant message — text and calls as
   * the fragments amount to, however they were cut — or, when the reply
   * failed, the text before the failure and no calls.
   */
  lemma ReplyIsStored(l: Limits, w: World, actions: seq<Action>, p: nat, lines: seq<DeltaAssembly.Line>,
                      parse: string -> Option<string>, events: seq<DeltaAssembly.ModelEvent>, ok: bool)
    requires p < |w.turns| && Ready(w.turns[p])
    requires var fs := DeltaAssembly.Fragments(DeltaAssembly.BeforeDone(lines));
             DeltaAssembly.Gives(fs, parse, events, ok) && Saves(l, w.turns[p], fs, parse)
    requires LeavesAlone(actions, p) && InputsTo(actions, p) == Heard(events, ok)
    requires Current(Exec(l, w, actions), p)
    ensures var fs := DeltaAssembly.Fragments(DeltaAssembly.BeforeDone(lines));
            var (t, w') := (w.turns[p], Do(l, Exec(l, w, actions), Advance(p, Go(false))));
            && t.session.id in w'.sessions
            && w'.sessions[t.session.id].messages == t.session.messages + [ToSave(t, fs, parse)]
  {
    hide Exec, Do, Fed, HearsAll, AboutToSave, Current, ToSave, Saves, InputsTo, DeltaAssembly.Gives;
    var fs := DeltaAssembly.Fragments(DeltaAssembly.BeforeDone(lines));
    FedReply(l, w.turns[p], fs, parse, events, ok);
    RunHeard(l, w, actions, p);
    SavesMessage(l, Exec(l, w, actions), p, w.turns[p], ToSave(w.turns[p], fs, parse));
  }
}
