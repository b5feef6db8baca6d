/**
 * The life of a tool call: what the store and the events say of it once it has
 * returned, raised, been refused or lost its save, and that a cancelled turn
 * starts no more of them.
 */
module TurnTools {
  import opened Options
  import opened Transcript
  import opened SessionStore
  import opened TurnProtocol
  import opened TurnSafety
  import opened TurnRuns
  import opened TurnEvents
  import opened TurnText
  import opened TurnHistory
  import opened TurnReports

  // ------------------------------------------------------------ the environment

  /** The actions are other turns', new sessions and new turns. */
  predicate Elsewhere(actions: seq<Action>, p: nat) {
    forall a <- actions :: a.CreateSession? || a.Begin? || a.p != p
  }

  lemma {:induction false} ElsewhereLeaves(l: Limits, w: World, actions: seq<Action>, p: nat)
    requires p < |w.turns| && Elsewhere(actions, p)
    ensures p < |Exec(l, w, actions).turns| && Exec(l, w, actions).turns[p] == w.turns[p]
  {
    if actions != [] {
      var init, a := actions[..|actions| - 1], actions[|actions| - 1];
      assert a in actions && forall x <- init :: x in actions;
      ElsewhereLeaves(l, w, init, p);
      hide TurnStep, Exec;
      OtherActionLeaves(l, Exec(l, w, init), a, p);
      assert Exec(l, w, actions) == Do(l, Exec(l, w, init), a) by { LastAction(l, w, actions); }
    }
  }

  lemma LastAction(l: Limits, w: World, actions: seq<Action>)
    requires actions != []
    ensures Exec(l, w, actions) == Do(l, Exec(l, w, actions[..|actions| - 1]), actions[|actions| - 1])
  {
  }

  lemma OtherActionLeaves(l: Limits, w: World, a: Action, p: nat)
    requires p < |w.turns| && (a.CreateSession? || a.Begin? || a.p != p)
    ensures p < |Do(l, w, a).turns| && Do(l, w, a).turns[p] == w.turns[p]
  {
    hide TurnStep;
  }

  // ------------------------------------------------------------- one answer saved

  /** One message more: a tool message of this turn that answers this call with this content. */
  predicate Answered(before: seq<Message>, after: seq<Message>, content: string, turnId: string, call: ToolCall) {
    && |after| == |before| + 1 && after[..|before|] == before
    && var m := after[|before|];
       && m.role == Role.Tool && m.content == content && m.turnId == turnId
       && m.toolCallId == Some(call.callId) && m.toolName == Some(call.toolId)
       && m.toolCalls == [] && m.images == []
  }

  /** Turn `t` of `w`, with its copy current, has become `t'` of `w'` by saving that answer and these links. */
  predicate Answers(w: World, w': World, t: Turn, t': Turn, content: string, call: ToolCall, links: set<string>) {
    && t.sessionId in w.sessions && t.sessionId in w'.sessions
    && Answered(w.sessions[t.sessionId].messages, w'.sessions[t.sessionId].messages, content, t.turnId, call)
    && w'.sessions[t.sessionId].investigationIds == links
    && t'.session == w'.sessions[t.sessionId]
  }

  /** The turn has reported these events and no others since `t`. */
  predicate Tells(t: Turn, t': Turn, kinds: seq<Kind>) {
    && |t'.emitted| == |t.emitted| + |kinds| && t'.emitted[..|t.emitted|] == t.emitted
    && forall k :: 0 <= k < |kinds| ==> t'.emitted[|t.emitted| + k] == Event(t.sequence + 1 + k, kinds[k])
  }

  /** The save of a result or of a failure, on a copy that is current. */
  lemma AnswerIsSaved(t: Turn, sessions: Sessions)
    requires (t.phase.SavingResult? || t.phase.SavingFailure?) && t.next < |t.calls|
    requires t.session.id in sessions && t.session.revision == sessions[t.session.id].revision
    ensures var (o, call) := (Operate(t, sessions, false), t.calls[t.next]);
            var t' := o.turn;
            && t.session.id in o.sessions && t'.session == o.sessions[t.session.id]
            && t'.session.messages == t.session.messages + [ToolMessage(t.phase.content, t.turnId, call)]
            && t'.session.investigationIds == t.session.investigationIds
            && t'.next == t.next + 1 && t'.calls == t.calls && t'.sequence == t.sequence + 1
            && (t.phase.SavingFailure? ==> t'.phase.YToolDone? && Tells(t, t', [ToolFailed(call)]))
            && (t.phase.SavingResult? && call.toolId != EARTH ==>
                  t'.phase.YToolDone? && Tells(t, t', [ToolCompleted(call)]))
            && (t.phase.SavingResult? && call.toolId == EARTH ==>
                  t'.phase == YEarth(call) && Tells(t, t', [EarthCommand]))
  {
    hide Load, Open, Persist, Shut, SaveReply;
  }

  lemma SavesAnswer(l: Limits, w: World, p: nat)
    requires Inv(w) && Current(w, p) && (w.turns[p].phase.SavingResult? || w.turns[p].phase.SavingFailure?)
    requires w.turns[p].next < |w.turns[p].calls|
    ensures var (t, w') := (w.turns[p], Do(l, w, Advance(p, Go(false))));
            var (t', call) := (w'.turns[p], t.calls[t.next]);
            && Answers(w, w', t, t', t.phase.content, call, t.session.investigationIds)
            && t'.next == t.next + 1 && t'.calls == t.calls && t'.sequence == t.sequence + 1
            && (t.phase.SavingFailure? ==> t'.phase.YToolDone? && Tells(t, t', [ToolFailed(call)]))
            && (t.phase.SavingResult? && call.toolId != EARTH ==> t'.phase.YToolDone? && Tells(t, t', [ToolCompleted(call)]))
            && (t.phase.SavingResult? && call.toolId == EARTH ==> t'.phase == YEarth(call) && Tells(t, t', [EarthCommand]))
  {
    hide StoreOk, TurnOk, Operate, Stream, Execute, Continue, Tells;
    var t := w.turns[p];
    assert t in w.turns;
    AnswerIsSaved(t, w.sessions);
    assert t.session.messages == w.sessions[t.sessionId].messages;
  }

  lemma RunningCallIsThere(l: Limits, actions: seq<Action>, p: nat)
    requires p < |Exec(l, EMPTY, actions).turns| && Tooling(Exec(l, EMPTY, actions).turns[p].phase)
    ensures Exec(l, EMPTY, actions).turns[p].next < |Exec(l, EMPTY, actions).turns[p].calls|
  {
    hide Exec, Replay;
    RunReported(l, actions);
    assert Exec(l, EMPTY, actions).turns[p] in Exec(l, EMPTY, actions).turns;
  }

  /** Where the run stands after turn `p` took `i`, and others then took theirs. */
  ghost function Later(l: Limits, actions: seq<Action>, p: nat, i: Input, others: seq<Action>): World {
    Exec(l, Do(l, Exec(l, EMPTY, actions), Advance(p, i)), others)
  }

  ghost function GoesOn(l: Limits, w: World, p: nat): World {
    Do(l, w, Advance(p, Go(false)))
  }

  lemma LaterStands(l: Limits, actions: seq<Action>, p: nat, i: Input, others: seq<Action>)
    requires p < |Exec(l, EMPTY, actions).turns| && Elsewhere(others, p)
    ensures var (w, w') := (Exec(l, EMPTY, actions), Later(l, actions, p, i, others));
            && Inv(w') && p < |w'.turns| && w'.turns[p] == TurnStep(l, w.turns[p], w.sessions, i).turn
  {
    hide TurnStep, Inv;
    EmptyInv();
    RunKeeps(l, EMPTY, actions);
    var w := Exec(l, EMPTY, actions);
    StepKeeps(l, w, Advance(p, i));
    RunKeeps(l, Do(l, w, Advance(p, i)), others);
    ElsewhereLeaves(l, Do(l, w, Advance(p, i)), others, p);
  }

  // --------------------------------------------------------------- main results

  /**
   * A call of any run that returns: whatever other turns do meanwhile, if the
   * copy is then current, the next step stores the returned content as the
   * answer to the running call, with the IDs the result names linked unless
   * the tool is a presentation command, and the call completes.
   */
  lemma ReturnedCallIsAnswered(l: Limits, actions: seq<Action>, p: nat, content: string, ids: set<string>,
                               others: seq<Action>)
    requires p < |Exec(l, EMPTY, actions).turns| && Exec(l, EMPTY, actions).turns[p].phase.Running?
    requires Elsewhere(others, p) && Current(Later(l, actions, p, ToolReturned(content, ids), others), p)
    ensures var t := Exec(l, EMPTY, actions).turns[p];
            var w := Later(l, actions, p, ToolReturned(content, ids), others);
            var (w', w'') := (GoesOn(l, w, p), GoesOn(l, GoesOn(l, w, p), p));
            && t.next < |t.calls| && p < |w'.turns| && p < |w''.turns|
            && var (call, t') := (t.calls[t.next], w'.turns[p]);
               var earth := call.toolId == EARTH;
               && Answers(w, w', t, t', content, call, t.session.investigationIds + if earth then {} else ids)
               && (!earth ==> Tells(t, t', [ToolCompleted(call)]))
               && (earth ==> Tells(t, t', [EarthCommand]) && Tells(t, w''.turns[p], [EarthCommand, ToolCompleted(call)]))
  {
    hide Exec, Inv, Operate, Answered, Stream, Continue;
    RunningCallIsThere(l, actions, p);
    LaterStands(l, actions, p, ToolReturned(content, ids), others);
    var t, w := Exec(l, EMPTY, actions).turns[p], Later(l, actions, p, ToolReturned(content, ids), others);
    assert w.turns[p].phase == SavingResult(content) && w.turns[p].session == Link(t, ids).session;
    hide TurnStep;
    SavesAnswer(l, w, p);
    if t.calls[t.next].toolId == EARTH {
      CommandThenCompletes(l, GoesOn(l, w, p), p, t, t.calls[t.next]);
    }
  }

  lemma CommandThenCompletes(l: Limits, w: World, p: nat, t: Turn, call: ToolCall)
    requires p < |w.turns| && w.turns[p].phase == YEarth(call) && Tells(t, w.turns[p], [EarthCommand])
    requires w.turns[p].sequence == t.sequence + 1
    ensures p < |GoesOn(l, w, p).turns| && Tells(t, GoesOn(l, w, p).turns[p], [EarthCommand, ToolCompleted(call)])
  {
  }

  /** A call that raises: its error is the answer, and the call fails. */
  lemma RaisedCallIsAnswered(l: Limits, actions: seq<Action>, p: nat, content: string, ids: set<string>,
                             others: seq<Action>)
    requires p < |Exec(l, EMPTY, actions).turns| && Exec(l, EMPTY, actions).turns[p].phase.Running?
    requires Elsewhere(others, p) && Current(Later(l, actions, p, ToolRaised(content, ids), others), p)
    ensures var t := Exec(l, EMPTY, actions).turns[p];
            var w := Later(l, actions, p, ToolRaised(content, ids), others);
            && t.next < |t.calls| && p < |GoesOn(l, w, p).turns|
            && var (call, t') := (t.calls[t.next], GoesOn(l, w, p).turns[p]);
               && Answers(w, GoesOn(l, w, p), t, t', content, call,
                          t.session.investigationIds + if call.toolId == EARTH then {} else ids)
               && Tells(t, t', [ToolFailed(call)])
  {
    hide Exec, Inv, Operate;
    RunningCallIsThere(l, actions, p);
    LaterStands(l, actions, p, ToolRaised(content, ids), others);
    SavesAnswer(l, Later(l, actions, p, ToolRaised(content, ids), others), p);
  }

  /** A result whose save the store refuses is answered with the store's error instead, and the call fails. */
  lemma UnsavedCallIsAnswered(l: Limits, actions: seq<Action>, p: nat, others: seq<Action>)
    requires p < |Exec(l, EMPTY, actions).turns| && Exec(l, EMPTY, actions).turns[p].phase.SavingResult?
    requires Elsewhere(others, p) && Current(Later(l, actions, p, Go(true), others), p)
    ensures var t := Exec(l, EMPTY, actions).turns[p];
            var w := Later(l, actions, p, Go(true), others);
            && t.next < |t.calls| && p < |GoesOn(l, w, p).turns|
            && var (call, t') := (t.calls[t.next], GoesOn(l, w, p).turns[p]);
               && Answers(w, GoesOn(l, w, p), t, t', STORE_ERROR, call, t.session.investigationIds)
               && Tells(t, t', [ToolFailed(call)])
  {
    hide Exec, Inv;
    RunningCallIsThere(l, actions, p);
    LaterStands(l, actions, p, Go(true), others);
    SavesAnswer(l, Later(l, actions, p, Go(true), others), p);
  }

  /**
   * A started call runs, unless it is an execution the caller did not
   * authorize; that one is answered with a refusal, and fails, without running.
   */
  lemma StartedCallRunsOrIsRefused(l: Limits, actions: seq<Action>, p: nat, others: seq<Action>)
    requires p < |Exec(l, EMPTY, actions).turns| && Exec(l, EMPTY, actions).turns[p].phase.YToolStarted?
    requires Elsewhere(others, p)
    ensures var t := Exec(l, EMPTY, actions).turns[p];
            var w := Later(l, actions, p, Go(false), others);
            && t.next < |t.calls| && p < |w.turns|
            && var call := t.calls[t.next];
               && (w.turns[p].phase.Running? <==> call.toolId != EXECUTE || t.authorized)
               && (w.turns[p].phase.Running? ==> w.turns[p] == t.(phase := Running))
               && (!w.turns[p].phase.Running? && Current(w, p) ==>
                     && p < |GoesOn(l, w, p).turns|
                     && Answers(w, GoesOn(l, w, p), t, GoesOn(l, w, p).turns[p], UNAUTHORIZED, call,
                                t.session.investigationIds)
                     && Tells(t, GoesOn(l, w, p).turns[p], [ToolFailed(call)]))
  {
    hide Exec, Inv, Operate;
    RunningCallIsThere(l, actions, p);
    LaterStands(l, actions, p, Go(false), others);
    var w := Later(l, actions, p, Go(false), others);
    if !w.turns[p].phase.Running? && Current(w, p) {
      SavesAnswer(l, w, p);
    }
  }

  /** Between tools the turn starts the next call of its reply, in order, or goes to the next round. */
  lemma NextCallStarts(l: Limits, actions: seq<Action>, p: nat)
    requires p < |Exec(l, EMPTY, actions).turns| && Exec(l, EMPTY, actions).turns[p].phase.NextTool?
    ensures var w := Exec(l, EMPTY, actions);
            var (t, w') := (w.turns[p], GoesOn(l, w, p));
            && p < |w'.turns| && t.next <= |t.calls|
            && var t' := w'.turns[p];
               && t'.session == t.session && w'.sessions == w.sessions
               && (t.next == |t.calls| ==> Tells(t, t', []) && t'.phase.RoundHead? && t'.round == t.round + 1)
               && (t.next < |t.calls| && t.cancelled ==>
                     Tells(t, t', [Ended(Ending.Cancelled)]) && t'.phase == YTerminal(Ending.Cancelled))
               && (t.next < |t.calls| && !t.cancelled ==>
                     Tells(t, t', [ToolStarted(t.calls[t.next])]) && t'.phase.YToolStarted? && t'.next == t.next)
  {
    hide Exec, Parse;
    EmptyInv();
    RunKeeps(l, EMPTY, actions);
    assert Exec(l, EMPTY, actions).turns[p] in Exec(l, EMPTY, actions).turns;
  }

  /** An execution's progress is reported as it comes, and the call keeps running; other tools report none. */
  lemma ProgressIsReported(l: Limits, actions: seq<Action>, p: nat, item: string)
    requires p < |Exec(l, EMPTY, actions).turns| && Exec(l, EMPTY, actions).turns[p].phase.Running?
    ensures var w := Exec(l, EMPTY, actions);
            var (t, w') := (w.turns[p], Do(l, w, Advance(p, ToolProgress(item))));
            && t.next < |t.calls| && p < |w'.turns| && w'.sessions == w.sessions
            && (t.calls[t.next].toolId != EXECUTE ==> w'.turns[p] == t)
            && (t.calls[t.next].toolId == EXECUTE ==>
                  && Tells(t, w'.turns[p], [Progress(item)]) && w'.turns[p].session == t.session
                  && p < |GoesOn(l, w', p).turns| && GoesOn(l, w', p).turns[p] == w'.turns[p].(phase := Running))
  {
    hide Exec, Operate;
    RunningCallIsThere(l, actions, p);
  }

  // ------------------------------------------------------------------ cancellation

  /** Nothing a model or a tool could have been asked for. */
  predicate Passive(k: Kind) {
    !k.ToolStarted? && !k.AssistantDelta?
  }

  /** Cancelled for good: the events since `mark` start no tool and deliver no text. */
  predicate Stopped(t: Turn, mark: nat) {
    t.cancelled && mark <= |t.emitted| && forall k :: mark <= k < |t.emitted| ==> Passive(t.emitted[k].kind)
  }

  predicate AddsPassively(t: Turn, t': Turn) {
    && t'.cancelled
    && (|| t'.emitted == t.emitted
        || (|t'.emitted| == |t.emitted| + 1 && t'.emitted[..|t.emitted|] == t.emitted && Passive(t'.emitted[|t.emitted|].kind)))
  }

  lemma StreamPassively(l: Limits, t: Turn, i: Input)
    requires t.cancelled && t.phase.Streaming?
    ensures AddsPassively(t, Stream(l, t, i))
  {
    hide DistinctCalls;
  }

  lemma QuietPassively(l: Limits, t: Turn, i: Input)
    requires t.cancelled
    ensures t.phase.Running? ==> AddsPassively(t, Execute(t, i))
    ensures Silent(t.phase) ==> AddsPassively(t, Continue(l, t))
  {
  }

  lemma PartialPassively(t: Turn, sessions: Sessions, busy: bool)
    requires t.cancelled
    ensures t.phase.Persisting? ==> AddsPassively(t, Persist(t, sessions, busy).turn)
    ensures t.phase.Closing? ==> AddsPassively(t, Shut(t, sessions, busy).turn)
  {
    hide Concat, Attempt;
    AttemptAppends(t, sessions, [AssistantMessage(Concat(t.buffer), t.turnId, [])], busy);
  }

  lemma ReplyPassively(t: Turn, sessions: Sessions, busy: bool)
    requires t.cancelled
    ensures AddsPassively(t, SaveReply(t, sessions, busy).turn)
    ensures AddsPassively(t, Open(t, sessions, busy).turn)
    ensures AddsPassively(t, Load(t, sessions).turn)
  {
    hide Concat, Attempt, Recovery;
    AttemptAppends(t, sessions, [AssistantMessage(Concat(t.buffer), t.turnId, t.calls)], busy);
    AttemptAppends(t, sessions, Recovery(t.session.messages) + [UserMessage(t.prompt, t.turnId)], busy);
  }

  lemma AnswerPassively(t: Turn, sessions: Sessions, busy: bool)
    requires t.cancelled && t.next < |t.calls|
    ensures t.phase.SavingResult? ==> AddsPassively(t, SaveResult(t, sessions, busy).turn)
    ensures t.phase.SavingFailure? ==> AddsPassively(t, SaveFailure(t, sessions, busy).turn)
  {
    hide Attempt;
    if t.phase.SavingResult? || t.phase.SavingFailure? {
      AttemptAppends(t, sessions, [ToolMessage(t.phase.content, t.turnId, t.calls[t.next])], busy);
    }
  }

  lemma SavePassively(t: Turn, sessions: Sessions, busy: bool)
    requires t.cancelled
    ensures AddsPassively(t, Operate(t, sessions, busy).turn)
  {
    hide Persist, Shut, SaveReply, Open, Load, SaveResult, SaveFailure, Passive;
    PartialPassively(t, sessions, busy);
    ReplyPassively(t, sessions, busy);
    if t.next < |t.calls| {
      AnswerPassively(t, sessions, busy);
    }
  }

  lemma StepPassively(l: Limits, t: Turn, sessions: Sessions, i: Input, mark: nat)
    requires Stopped(t, mark)
    ensures Stopped(TurnStep(l, t, sessions, i).turn, mark)
  {
    hide Stream, Execute, Continue, Operate, Passive;
    if t.phase.Streaming? {
      StreamPassively(l, t, i);
    } else if i.Go? && !t.phase.Running? && !Silent(t.phase) {
      SavePassively(t, sessions, i.busy);
    } else {
      QuietPassively(l, t, i);
    }
  }

  lemma ActionPassively(l: Limits, w: World, a: Action, p: nat, mark: nat)
    requires p < |w.turns| && Stopped(w.turns[p], mark)
    ensures p < |Do(l, w, a).turns| && Stopped(Do(l, w, a).turns[p], mark)
  {
    hide TurnStep;
    if a.Advance? && a.p == p {
      StepPassively(l, w.turns[p], w.sessions, a.input, mark);
    }
  }

  /** From its cancellation on, on any continuation, a turn starts no further tool and delivers no further text. */
  lemma {:induction false} CancelledTurnStops(l: Limits, w: World, actions: seq<Action>, p: nat)
    requires p < |w.turns| && w.turns[p].cancelled
    ensures p < |Exec(l, w, actions).turns| && Stopped(Exec(l, w, actions).turns[p], |w.turns[p].emitted|)
  {
    if actions != [] {
      CancelledTurnStops(l, w, actions[..|actions| - 1], p);
      ActionPassively(l, Exec(l, w, actions[..|actions| - 1]), actions[|actions| - 1], p, |w.turns[p].emitted|);
    }
  }
  /** A cancel is heard at once and does nothing else; a close of a suspended turn also leads to its close handler. */
  lemma CancelStops(l: Limits, w: World, p: nat, close: bool, actions: seq<Action>)
    requires p < |w.turns|
    ensures var t, w' := w.turns[p], Do(l, w, if close then Close(p) else Cancel(p));
            && w'.sessions == w.sessions && |w'.turns| == |w.turns|
            && (!close ==> w'.turns[p] == t.(cancelled := true))
            && (close && Suspended(t.phase) ==> w'.turns[p] == t.(cancelled := true, phase := Closing))
            && (close && !Suspended(t.phase) ==> w'.turns[p] == t)
            && (w'.turns[p].cancelled ==>
                  p < |Exec(l, w', actions).turns| && Stopped(Exec(l, w', actions).turns[p], |t.emitted|))
  {
    hide Exec, Stopped, Suspended;
    var w' := Do(l, w, if close then Close(p) else Cancel(p));
    if w'.turns[p].cancelled {
      CancelledTurnStops(l, w', actions, p);
    }
  }
}
