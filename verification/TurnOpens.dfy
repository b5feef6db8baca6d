/** What a turn's opening leaves in the store: the calls it found open answered, and its question. */
module TurnOpens {
  import opened Transcript
  import opened CallOrder
  import opened SessionStore
  import opened TurnProtocol
  import opened TurnSafety
  import opened TurnRuns
  import opened TurnReports
  import opened LinkLedger
  import opened TurnTools

  // ------------------------------------------------------------- who is asking

  /** Turn and session, question and authorization are those of this beginning. */
  predicate AsBegun(t: Turn, turnId: string, sessionId: string, prompt: string, authorized: bool) {
    t.turnId == turnId && t.sessionId == sessionId && t.prompt == prompt && t.authorized == authorized
  }

  predicate SameAsker(t: Turn, t': Turn) {
    AsBegun(t', t.turnId, t.sessionId, t.prompt, t.authorized)
  }

  lemma AttemptKeepsAsker(t: Turn, sessions: Sessions, ms: seq<Message>, busy: bool)
    ensures var o := Attempt(t, sessions, ms, busy); o.Some? ==> SameAsker(t, o.value.turn)
  {
    hide Swap;
  }

  lemma PartialKeepsAsker(t: Turn, sessions: Sessions, busy: bool)
    ensures t.phase.Persisting? ==> SameAsker(t, Persist(t, sessions, busy).turn)
    ensures SameAsker(t, Shut(t, sessions, busy).turn)
  {
    hide Concat, Attempt;
    AttemptKeepsAsker(t, sessions, [AssistantMessage(Concat(t.buffer), t.turnId, [])], busy);
  }

  lemma ReplyKeepsAsker(t: Turn, sessions: Sessions, busy: bool)
    ensures SameAsker(t, SaveReply(t, sessions, busy).turn)
    ensures SameAsker(t, Open(t, sessions, busy).turn) && SameAsker(t, Load(t, sessions).turn)
  {
    hide Concat, Attempt, Recovery;
    AttemptKeepsAsker(t, sessions, [AssistantMessage(Concat(t.buffer), t.turnId, t.calls)], busy);
    AttemptKeepsAsker(t, sessions, Recovery(t.session.messages) + [UserMessage(t.prompt, t.turnId)], busy);
  }

  lemma AnswerKeepsAsker(t: Turn, sessions: Sessions, busy: bool)
    requires t.next < |t.calls|
    ensures t.phase.SavingResult? ==> SameAsker(t, SaveResult(t, sessions, busy).turn)
    ensures t.phase.SavingFailure? ==> SameAsker(t, SaveFailure(t, sessions, busy).turn)
  {
    hide Attempt;
    if t.phase.SavingResult? || t.phase.SavingFailure? {
      AttemptKeepsAsker(t, sessions, [ToolMessage(t.phase.content, t.turnId, t.calls[t.next])], busy);
    }
  }

  lemma StreamKeepsAsker(l: Limits, t: Turn, i: Input)
    ensures SameAsker(t, Stream(l, t, i))
  {
    hide EndOfStream;
    EndKeepsAsker(l, t);
  }

  lemma EndKeepsAsker(l: Limits, t: Turn)
    ensures SameAsker(t, EndOfStream(l, t))
  {
    hide DistinctCalls;
  }

  lemma ExecuteKeepsAsker(t: Turn, i: Input)
    ensures SameAsker(t, Execute(t, i))
  {
  }

  lemma ContinueKeepsAsker(l: Limits, t: Turn)
    requires Silent(t.phase)
    ensures SameAsker(t, Continue(l, t))
  {
    hide BeginRound, StartTool;
    RoundKeepsAsker(l, t);
  }

  lemma RoundKeepsAsker(l: Limits, t: Turn)
    ensures SameAsker(t, BeginRound(l, t)) && SameAsker(t, StartTool(t))
  {
  }

  lemma SavesKeepAsker(t: Turn, sessions: Sessions, busy: bool)
    ensures SameAsker(t, Operate(t, sessions, busy).turn)
  {
    hide Persist, Shut, SaveReply, Open, Load, SaveResult, SaveFailure;
    PartialKeepsAsker(t, sessions, busy);
    ReplyKeepsAsker(t, sessions, busy);
    if t.next < |t.calls| {
      AnswerKeepsAsker(t, sessions, busy);
    }
  }

  lemma StepKeepsAsker(l: Limits, t: Turn, sessions: Sessions, i: Input)
    ensures SameAsker(t, TurnStep(l, t, sessions, i).turn)
  {
    hide Operate, Stream, Execute, Continue;
    if t.phase.Streaming? {
      StreamKeepsAsker(l, t, i);
    } else if t.phase.Running? {
      ExecuteKeepsAsker(t, i);
    } else if i.Go? && Silent(t.phase) {
      ContinueKeepsAsker(l, t);
    } else if i.Go? {
      SavesKeepAsker(t, sessions, i.busy);
    }
  }

  lemma ActionKeepsAsker(l: Limits, w: World, a: Action, p: nat)
    requires p < |w.turns|
    ensures p < |Do(l, w, a).turns|
    ensures SameAsker(w.turns[p], Do(l, w, a).turns[p])
  {
    hide TurnStep;
    if a.Advance? && a.p == p {
      StepKeepsAsker(l, w.turns[p], w.sessions, a.input);
    }
  }

  /** A turn begins uncancelled and is, on every continuation, the one that was begun. */
  lemma {:induction false} BegunAsAsked(l: Limits, w: World, turnId: string, sessionId: string, prompt: string,
                                        authorized: bool, actions: seq<Action>)
    requires Fresh(w, turnId)
    ensures var (p, begun) := (|w.turns|, Do(l, w, Begin(turnId, sessionId, prompt, authorized)));
            && |begun.turns| == p + 1 && begun.turns[..p] == w.turns && begun.sessions == w.sessions
            && begun.turns[p].phase.Loading? && !begun.turns[p].cancelled && begun.turns[p].emitted == []
            && p < |Exec(l, begun, actions).turns|
            && AsBegun(Exec(l, begun, actions).turns[p], turnId, sessionId, prompt, authorized)
  {
    if actions != [] {
      var begun := Do(l, w, Begin(turnId, sessionId, prompt, authorized));
      BegunAsAsked(l, w, turnId, sessionId, prompt, authorized, actions[..|actions| - 1]);
      hide TurnStep;
      ActionKeepsAsker(l, Exec(l, begun, actions[..|actions| - 1]), actions[|actions| - 1], |w.turns|);
    }
  }

  // --------------------------------------------------------------- the opening

  /** `m` is the question, as this turn asks it. */
  predicate Asks(m: Message, t: Turn) {
    && m.role == Role.User && m.content == t.prompt && m.turnId == t.turnId
    && m.toolCalls == [] && m.toolCallId.None? && m.toolName.None? && m.images == []
  }

  /** `after` is `before`, an answer to each call it left open, and the question. */
  ghost predicate OpensOn(before: seq<Message>, after: seq<Message>, t: Turn) {
    var keys := Sorted(Pending(before).Keys);
    && |after| == |before| + |keys| + 1 && after[..|before|] == before
    && (forall k :: 0 <= k < |keys| ==> Recovers(before, keys[k], after[|before| + k]))
    && Asks(after[|after| - 1], t)
  }

  lemma SavesOpening(t: Turn, sessions: Sessions)
    requires t.phase.Opening? && t.session.id in sessions && t.session.revision == sessions[t.session.id].revision
    ensures var o := Open(t, sessions, false);
            && o.saved && t.session.id in o.sessions && o.sessions[t.session.id] == o.turn.session
            && o.turn.session.messages
               == t.session.messages + (Recovery(t.session.messages) + [UserMessage(t.prompt, t.turnId)])
            && o.turn.session.investigationIds == t.session.investigationIds
            && o.turn.phase.YStarted? && Tells(t, o.turn, [TurnStarted])
  {
    hide Recovery;
  }

  lemma OpensAsAsked(t: Turn, before: seq<Message>)
    ensures OpensOn(before, before + (Recovery(before) + [UserMessage(t.prompt, t.turnId)]), t)
  {
    RecoveryAnswersLeftOpen(before);
    hide Recovers, Recovery, Sorted, Pending;
  }

  /** At its opening a turn has linked nothing of its own yet. */
  lemma OpeningLinks(l: Limits, actions: seq<Action>, p: nat)
    requires Current(Exec(l, EMPTY, actions), p) && Exec(l, EMPTY, actions).turns[p].phase.Opening?
    ensures var (w, t) := (Exec(l, EMPTY, actions), Exec(l, EMPTY, actions).turns[p]);
            && t.sessionId in w.sessions && t.session.id == t.sessionId
            && t.session.investigationIds == w.sessions[t.sessionId].investigationIds
  {
    hide Exec, StoreOk, TurnOk, StoresBalance, Loads, Ledger;
    RunReckons(l, actions);
    assert Exec(l, EMPTY, actions).turns[p] in Exec(l, EMPTY, actions).turns;
  }

  /**
   * The opening of any turn of any run, on a session no one has saved since it
   * was loaded: the stored transcript gains one interrupted answer for each
   * call it had open, in order, and then the question; `turn.started` follows.
   */
  lemma OpeningIsStored(l: Limits, actions: seq<Action>, p: nat)
    requires Current(Exec(l, EMPTY, actions), p) && Exec(l, EMPTY, actions).turns[p].phase.Opening?
    ensures var w := Exec(l, EMPTY, actions);
            var (t, w') := (w.turns[p], GoesOn(l, w, p));
            && p < |w'.turns| && t.sessionId in w.sessions && t.sessionId in w'.sessions
            && OpensOn(w.sessions[t.sessionId].messages, w'.sessions[t.sessionId].messages, t)
            && w'.sessions[t.sessionId].investigationIds == w.sessions[t.sessionId].investigationIds
            && w'.turns[p].session == w'.sessions[t.sessionId]
            && Tells(t, w'.turns[p], [TurnStarted])
  {
    hide Exec, Open, OpensOn, Recovery, StoreOk, TurnOk;
    EmptyInv();
    RunKeeps(l, EMPTY, actions);
    var w := Exec(l, EMPTY, actions);
    var t := w.turns[p];
    assert t in w.turns;
    assert t.session.id == t.sessionId && t.session.messages == w.sessions[t.sessionId].messages;
    OpeningLinks(l, actions, p);
    SavesOpening(t, w.sessions);
    assert GoesOn(l, w, p).sessions == Open(t, w.sessions, false).sessions;
    assert GoesOn(l, w, p).turns[p] == Open(t, w.sessions, false).turn;
    OpensAsAsked(t, w.sessions[t.sessionId].messages);
  }

  /** A turn begins with what is stored, or not at all. */
  lemma LoadReadsStore(l: Limits, actions: seq<Action>, p: nat)
    requires p < |Exec(l, EMPTY, actions).turns| && Exec(l, EMPTY, actions).turns[p].phase.Loading?
    ensures var w := Exec(l, EMPTY, actions);
            var (t, w') := (w.turns[p], GoesOn(l, w, p));
            && p < |w'.turns| && w'.sessions == w.sessions && Tells(t, w'.turns[p], [])
            && (w'.turns[p].phase.Opening? <==> t.sessionId in w.sessions)
            && (t.sessionId in w.sessions ==> w'.turns[p].session == w.sessions[t.sessionId])
            && (t.sessionId !in w.sessions ==> w'.turns[p].phase.Gone?)
  {
    hide Exec;
  }
}
