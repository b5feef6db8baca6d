/**
 * The generator's own form of a turn: local variables rebound in place and a
 * shared store object, each segment proved to be the corresponding step of the
 * protocol.
 */
module AgentTurn {
  import opened Transcript
  import opened SessionStore
  import opened TurnProtocol

  class StreamTurn {
    const store: InMemoryAgentSessionStore
    const turnId: string
    const sessionId: string
    const prompt: string
    const authorized: bool

    var phase: Phase
    var session: Session
    var cancelled: bool
    var toolRound: nat
    var toolCallsUsed: nat
    var assistantText: seq<string>
    var toolCalls: seq<ToolCall>
    var nextCall: nat
    var sequence: nat
    var emitted: seq<Event>
    ghost var opening: seq<Message>
    ghost var roundStart: seq<Message>
    ghost var roundMark: nat

    ghost function View(): Turn
      reads this
    {
      Turn(turnId, sessionId, prompt, authorized, phase, session, cancelled, toolRound, toolCallsUsed,
           assistantText, toolCalls, nextCall, sequence, emitted, opening, roundStart, roundMark)
    }

    constructor (store: InMemoryAgentSessionStore, turnId: string, sessionId: string, prompt: string, authorized: bool)
      ensures View() == NewTurn(turnId, sessionId, prompt, authorized)
      ensures this.store == store
    {
      this.store, this.turnId, this.sessionId := store, turnId, sessionId;
      this.prompt, this.authorized := prompt, authorized;
      phase, session, cancelled := Loading, Session(sessionId, 1, [], {}), false;
      toolRound, toolCallsUsed, assistantText, toolCalls, nextCall := 0, 0, [], [], 0;
      sequence, emitted := 0, [];
      opening, roundStart, roundMark := [], [], 0;
    }

    /** The nested `event` function: next number, then the event. */
    method Yield(kind: Kind)
      modifies this
      ensures View() == Emit(old(View()), kind)
    {
      sequence := sequence + 1;
      emitted := emitted + [Event(sequence, kind)];
    }

    method YieldEnd(ending: Ending)
      modifies this
      ensures View() == Terminate(old(View()), ending)
    {
      Yield(Ended(ending));
      phase := YTerminal(ending);
    }

    /** `session = sessions.save(…)`; false when the store raised. */
    method Save(ms: seq<Message>, busy: bool) returns (saved: bool)
      modifies this, store
      ensures var o := Attempt(old(View()), old(store.sessions), ms, busy);
              && saved == o.Some?
              && (saved ==> View() == o.value.turn && store.sessions == o.value.sessions)
              && (!saved ==> View() == old(View()) && store.sessions == old(store.sessions))
    {
      if busy {
        return false;
      }
      var r := store.Save(session.(messages := session.messages + ms), session.revision);
      match r {
        case Saved(s) =>
          session := s;
          return true;
        case _ =>
          return false;
      }
    }

    method LoadSession()
      requires phase.Loading?
      modifies this
      ensures Quiet(View(), store.sessions) == Load(old(View()), store.sessions)
    {
      var found := store.Get(sessionId);
      if found.Some? {
        session, phase := found.value, Opening;
      } else {
        phase := Gone;
      }
    }

    method OpenTurn(busy: bool)
      requires phase.Opening?
      modifies this, store
      ensures var o := Open(old(View()), old(store.sessions), busy);
              View() == o.turn && store.sessions == o.sessions
    {
      var recovered := RecoverInterruptedToolCalls(session.messages);
      var saved := Save(recovered + [UserMessage(prompt, turnId)], busy);
      if saved {
        Yield(TurnStarted);
        phase, opening := YStarted, session.messages;
      } else {
        phase := Gone;
      }
    }

    method EnterRound(l: Limits)
      requires phase.RoundHead?
      modifies this
      ensures View() == BeginRound(l, old(View()))
    {
      roundStart, roundMark := session.messages, |emitted|;
      if toolRound >= l.maxRounds {
        YieldEnd(RoundLimit);
      } else if cancelled {
        phase := Persisting(Cancelled, false);
      } else {
        phase := Streaming;
        assistantText, toolCalls, nextCall := [], [], 0;
      }
    }

    method LeaveStream(l: Limits)
      modifies this
      ensures View() == EndOfStream(l, old(View()))
    {
      if cancelled {
        phase := Persisting(Cancelled, false);
        return;
      }
      var distinct := true;
      for k := 0 to |toolCalls|
        invariant distinct == DistinctCalls(toolCalls[..k])
      {
        var repeated := exists j :: 0 <= j < k && toolCalls[j].callId == toolCalls[k].callId;
        distinct := distinct && !repeated;
        assert toolCalls[..k + 1] == toolCalls[..k] + [toolCalls[k]];
      }
      assert toolCalls[..|toolCalls|] == toolCalls;
      if !distinct {
        YieldEnd(DuplicateCallIds);
      } else if |toolCalls| > l.maxCalls - toolCallsUsed {
        phase := Persisting(CallBudget, false);
      } else if assistantText == [] && toolCalls == [] {
        YieldEnd(EmptyReply);
      } else {
        phase := SavingReply;
      }
    }

    /** One model event, or the end, timeout or failure of the stream. */
    method ReceiveModel(l: Limits, i: Input)
      requires phase.Streaming?
      modifies this
      ensures View() == Stream(l, old(View()), i)
    {
      match i {
        case ModelTimeout =>
          cancelled, phase := true, Persisting(TimedOut, false);
        case ModelError =>
          phase := Persisting(ModelFailed, false);
        case ModelStop =>
          LeaveStream(l);
        case ModelText(text) =>
          if cancelled {
            phase := Persisting(Cancelled, true);
          } else if text != "" {
            assistantText := assistantText + [text];
            Yield(AssistantDelta(text));
            phase := YDelta;
          }
        case ModelCall(call) =>
          if cancelled {
            phase := Persisting(Cancelled, true);
          } else {
            toolCalls := toolCalls + [call];
          }
        case ModelDone =>
          if cancelled {
            phase := Persisting(Cancelled, true);
          } else {
            LeaveStream(l);
          }
        case _ =>
      }
    }

    method PersistPartialAssistant(busy: bool)
      requires phase.Persisting?
      modifies this, store
      ensures var o := Persist(old(View()), old(store.sessions), busy);
              View() == o.turn && store.sessions == o.sessions
    {
      var ending, retry := phase.ending, phase.retry;
      var content := Concat(assistantText);
      if content == "" {
        YieldEnd(ending);
        return;
      }
      var saved := Save([AssistantMessage(content, turnId, [])], busy);
      if saved {
        YieldEnd(ending);
      } else if retry {
        phase := Persisting(ModelFailed, false);
      } else {
        phase := Gone;
      }
    }

    method SaveAssistant(busy: bool)
      requires phase.SavingReply?
      modifies this, store
      ensures var o := SaveReply(old(View()), old(store.sessions), busy);
              View() == o.turn && store.sessions == o.sessions
    {
      var saved := Save([AssistantMessage(Concat(assistantText), turnId, toolCalls)], busy);
      if !saved {
        phase := Gone;
      } else if toolCalls == [] {
        YieldEnd(Completed);
      } else {
        assistantText, nextCall, phase := [], 0, NextTool;
      }
    }

    method StartNextTool()
      requires phase.NextTool?
      modifies this
      ensures View() == StartTool(old(View()))
    {
      if nextCall >= |toolCalls| {
        toolRound, phase := toolRound + 1, RoundHead;
      } else if cancelled {
        YieldEnd(Cancelled);
      } else {
        toolCallsUsed := toolCallsUsed + 1;
        Yield(ToolStarted(toolCalls[nextCall]));
        phase := YToolStarted;
      }
    }

    method ReceiveTool(i: Input)
      requires phase.Running?
      modifies this
      ensures View() == Execute(old(View()), i)
    {
      match i {
        case ToolProgress(item) =>
          if nextCall < |toolCalls| && toolCalls[nextCall].toolId == EXECUTE {
            Yield(Progress(item));
            phase := YProgress;
          }
        case ToolReturned(content, ids) =>
          LinkInvestigations(ids);
          phase := SavingResult(content);
        case ToolRaised(content, ids) =>
          LinkInvestigations(ids);
          phase := SavingFailure(content);
        case _ =>
      }
    }

    method LinkInvestigations(ids: set<string>)
      modifies this
      ensures View() == Link(old(View()), ids)
    {
      if !(nextCall < |toolCalls| && toolCalls[nextCall].toolId == EARTH) {
        session := session.(investigationIds := session.investigationIds + ids);
      }
    }

    method SaveToolResult(busy: bool)
      requires phase.SavingResult? && nextCall < |toolCalls|
      modifies this, store
      ensures var o := SaveResult(old(View()), old(store.sessions), busy);
              View() == o.turn && store.sessions == o.sessions
    {
      var call := toolCalls[nextCall];
      var saved := Save([ToolMessage(phase.content, turnId, call)], busy);
      if !saved {
        phase := SavingFailure(STORE_ERROR);
        return;
      }
      nextCall := nextCall + 1;
      if call.toolId == EARTH {
        Yield(EarthCommand);
        phase := YEarth(call);
      } else {
        Yield(ToolCompleted(call));
        phase := YToolDone;
      }
    }

    method SaveToolFailure(busy: bool)
      requires phase.SavingFailure? && nextCall < |toolCalls|
      modifies this, store
      ensures var o := SaveFailure(old(View()), old(store.sessions), busy);
              View() == o.turn && store.sessions == o.sessions
    {
      var call := toolCalls[nextCall];
      var saved := Save([ToolMessage(phase.content, turnId, call)], busy);
      if saved {
        nextCall := nextCall + 1;
        Yield(ToolFailed(call));
        phase := YToolDone;
      } else {
        phase := Gone;
      }
    }

    /** `except (CancelledError, GeneratorExit)`: persist what is buffered, then re-raise. */
    method CloseGenerator(busy: bool)
      requires phase.Closing?
      modifies this, store
      ensures var o := Shut(old(View()), old(store.sessions), busy);
              View() == o.turn && store.sessions == o.sessions
    {
      var content := Concat(assistantText);
      if content != "" {
        var _ := Save([AssistantMessage(content, turnId, [])], busy);
      }
      phase := Gone;
    }

    /** The steps that only resume the generator. */
    method ResumeGenerator(l: Limits)
      requires Silent(phase)
      modifies this
      ensures View() == Continue(l, old(View()))
    {
      match phase {
        case YStarted => phase := RoundHead;
        case RoundHead => EnterRound(l);
        case YDelta => phase := Streaming;
        case YTerminal(_) => phase := Finished;
        case NextTool => StartNextTool();
        case YToolStarted =>
          if nextCall < |toolCalls| && toolCalls[nextCall].toolId == EXECUTE && !authorized {
            phase := SavingFailure(UNAUTHORIZED);
          } else {
            phase := Running;
          }
        case YProgress => phase := Running;
        case YEarth(call) =>
          Yield(ToolCompleted(call));
          phase := YToolDone;
        case YToolDone => phase := NextTool;
      }
    }

    method CallStore(busy: bool)
      modifies this, store
      ensures var o := Operate(old(View()), old(store.sessions), busy);
              View() == o.turn && store.sessions == o.sessions
    {
      match phase {
        case Loading => LoadSession();
        case Opening => OpenTurn(busy);
        case Persisting(_, _) => PersistPartialAssistant(busy);
        case SavingReply => SaveAssistant(busy);
        case SavingResult(_) => if nextCall < |toolCalls| { SaveToolResult(busy); }
        case SavingFailure(_) => if nextCall < |toolCalls| { SaveToolFailure(busy); }
        case Closing => CloseGenerator(busy);
        case _ =>
      }
    }

    /** One step of the generator is one step of the protocol, on the turn and on the shared store. */
    method Step(l: Limits, i: Input)
      modifies this, store
      ensures var o := TurnStep(l, old(View()), old(store.sessions), i);
              View() == o.turn && store.sessions == o.sessions
    {
      if phase.Streaming? {
        ReceiveModel(l, i);
      } else if phase.Running? {
        ReceiveTool(i);
      } else if i.Go? {
        if Silent(phase) {
          ResumeGenerator(l);
        } else {
          CallStore(i.busy);
        }
      }
    }
  }
}
