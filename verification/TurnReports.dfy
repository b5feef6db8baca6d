/** What every turn of every run reports, spends and leaves in its transcript. */
module TurnReports {
  import opened Transcript
  import opened SessionStore
  import opened TurnProtocol
  import opened TurnSafety
  import opened TurnRuns
  import opened TurnEvents
  import opened TurnBudgets
  import opened TurnText
  import opened TurnHistory
  import opened TurnStore

  // ---------------------------------------------------------- main results

  /**
   * In every run, a turn's events are numbered 1, 2, 3, …, begin with
   * `turn.started`, contain a terminal event only at the end, and settle each
   * started call exactly where the next non-notice event is; a turn that has
   * ended has one terminal event and no unsettled call.
   */
  lemma TurnsReportInOrder(l: Limits, actions: seq<Action>, p: nat)
    requires p < |Exec(l, EMPTY, actions).turns|
    ensures var t := Exec(l, EMPTY, actions).turns[p];
            var es := t.emitted;
            && (forall i :: 0 <= i < |es| ==> es[i].sequence == i + 1)
            && (es != [] ==> es[0].kind == TurnStarted)
            && (forall i :: 0 <= i < |es| && IsEnd(es[i]) ==> i == |es| - 1)
            && (forall j :: 0 <= j < |es| && (es[j].kind.ToolCompleted? || es[j].kind.ToolFailed?) ==> HasStart(es, j))
            && (forall i :: 0 <= i < |es| && es[i].kind.ToolStarted? ==>
                              Unsettled(es, i) || exists j :: Pairs(es, i, j))
            && (t.phase.YTerminal? || t.phase.Finished? ==>
                  && es != [] && IsEnd(es[|es| - 1])
                  && forall i :: 0 <= i < |es| && es[i].kind.ToolStarted? ==> exists j :: Pairs(es, i, j))
  {
    RunReported(l, actions);
    var t := Exec(l, EMPTY, actions).turns[p];
    assert t in Exec(l, EMPTY, actions).turns;
    StreamShape(t.emitted);
    SettlementsHaveStarts(t.emitted);
    StartsAreSettled(t.emitted);
    RunningCall(t.emitted);
  }

  /**
   * Calls, rounds and appended messages of every turn of every run are bounded
   * by the limits, the answers that its opening had to recover included.
   */
  lemma TurnsStayWithinBudget(l: Limits, actions: seq<Action>, p: nat)
    requires p < |Exec(l, EMPTY, actions).turns|
    ensures var t := Exec(l, EMPTY, actions).turns[p];
            && Started(t.emitted) == t.used <= l.maxCalls
            && t.round <= l.maxRounds
            && (t.phase.Streaming? ==> t.round < l.maxRounds)
            && (t.opening != [] ==> |t.session.messages| - |t.opening| <= l.maxRounds + l.maxCalls + 1)
            && (t.opening != [] && t.phase.Finished? ==> |t.session.messages| - |t.opening| <= l.maxRounds + l.maxCalls)
            && (t.opening != [] ==>
                  exists n :: OpenedOn(l, t, n) && |t.session.messages| - n <= l.maxRounds + 2 * l.maxCalls + 2)
  {
    hide Exec, Recovery;
    RunReported(l, actions);
    RunKept(l, actions);
    var t := Exec(l, EMPTY, actions).turns[p];
    assert t in Exec(l, EMPTY, actions).turns;
    if t.opening != [] {
      var n :| OpenedOn(l, t, n);
      assert |t.opening| == n + |Recovery(t.opening[..n])| + 1;
    }
  }

  /** What a turn that rests has of its last round: the reply, or nothing of it when the ending drops it. */
  lemma RestingText(l: Limits, actions: seq<Action>, p: nat, e: Ending)
    requires p < |Exec(l, EMPTY, actions).turns| && Rests(Exec(l, EMPTY, actions).turns[p], e)
    ensures var t := Exec(l, EMPTY, actions).turns[p];
            && t.session.messages != []
            && (if Drops(e) then Buffered(t, Delivered(t)) else Kept(t, Delivered(t)))
  {
    hide Exec, Parse, Concat, Deltas;
    var k := RestingWas(l, actions, p, e);
    RunReported(l, actions[..k]);
    RunKept(l, actions[..k]);
    var u := Exec(l, EMPTY, actions[..k]).turns[p];
    assert u in Exec(l, EMPTY, actions[..k]).turns;
    OwnedIsNotEmpty(u);
  }

  lemma OwnedIsNotEmpty(t: Turn)
    requires Owns(t)
    ensures t.session.messages != []
  {
  }

  /**
   * Once a turn has reached its terminal event, finished or not, the text
   * delivered in its last round is in its transcript as exactly one assistant
   * message, and in the stored one whoever has saved since — if and only if
   * the ending is not one that drops the reply.
   */
  lemma DeliveredTextIsSaved(l: Limits, actions: seq<Action>, p: nat, e: Ending)
    requires p < |Exec(l, EMPTY, actions).turns| && Rests(Exec(l, EMPTY, actions).turns[p], e)
    requires Delivered(Exec(l, EMPTY, actions).turns[p]) != ""
    ensures var w := Exec(l, EMPTY, actions);
            var t := w.turns[p];
            && (SavedOnce(t, Delivered(t)) <==> !Drops(e))
            && t.sessionId in w.sessions
            && (SavedOnceIn(w.sessions[t.sessionId].messages, t, Delivered(t)) <==> !Drops(e))
  {
    hide Exec, Deltas, Concat, Continues;
    RestingText(l, actions, p, e);
    TranscriptsAreStored(l, actions, [], p);
    var w := Exec(l, EMPTY, actions);
    OnceInStore(w.turns[p], w.sessions[w.turns[p].sessionId].messages, Delivered(w.turns[p]));
  }

  /** The failing family: a reply with text whose call IDs repeat ends the turn and saves nothing. */
  lemma DuplicateCallsDropText(l: Limits, actions: seq<Action>, p: nat)
    requires p < |Exec(l, EMPTY, actions).turns|
    requires var t := Exec(l, EMPTY, actions).turns[p];
             t.phase.Streaming? && !t.cancelled && !DistinctCalls(t.calls) && Delivered(t) != ""
    ensures var t := Exec(l, EMPTY, actions).turns[p];
            var o := TurnStep(l, t, Exec(l, EMPTY, actions).sessions, ModelStop);
            && o.turn.phase == YTerminal(DuplicateCallIds) && !o.saved
            && o.turn.session.messages == t.roundStart
            && Delivered(o.turn) == Delivered(t)
            && !SavedOnce(o.turn, Delivered(t))
            && t.sessionId in o.sessions && !SavedOnceIn(o.sessions[t.sessionId].messages, o.turn, Delivered(t))
  {
    hide Exec, Deltas, Concat, Replay, Parse, Continues;
    RunReported(l, actions);
    RunKept(l, actions);
    TranscriptsOfStreaming(l, actions, p);
    var w := Exec(l, EMPTY, actions);
    var t := w.turns[p];
    assert t in w.turns;
    DeltasAppend(t.emitted, Event(t.sequence + 1, Ended(DuplicateCallIds)), t.roundMark);
    OnceInStore(t, w.sessions[t.sessionId].messages, Delivered(t));
  }

  lemma TranscriptsOfStreaming(l: Limits, actions: seq<Action>, p: nat)
    requires p < |Exec(l, EMPTY, actions).turns| && Exec(l, EMPTY, actions).turns[p].phase.Streaming?
    ensures var w := Exec(l, EMPTY, actions);
            var t := w.turns[p];
            t.sessionId in w.sessions && Continues(t, w.sessions[t.sessionId].messages)
  {
    hide Exec, Parse;
    RunKept(l, actions);
    assert Exec(l, EMPTY, actions).turns[p] in Exec(l, EMPTY, actions).turns;
    OwnedIsNotEmpty(Exec(l, EMPTY, actions).turns[p]);
    TranscriptsAreStored(l, actions, [], p);
  }

  /** The session has not moved on since the turn last read or saved it. */
  ghost predicate Current(w: World, p: nat) {
    p < |w.turns| && w.turns[p].session.id in w.sessions &&
    w.turns[p].session.revision == w.sessions[w.turns[p].session.id].revision
  }

  /**
   * A turn closed before its terminal event, on a session no other turn has
   * saved meanwhile, leaves its delivered text in the store exactly once.
   */
  lemma ClosedTurnKeepsText(l: Limits, actions: seq<Action>, p: nat)
    requires p < |Exec(l, EMPTY, actions).turns|
    requires var w := Exec(l, EMPTY, actions);
             var t := w.turns[p];
             Current(w, p) && t.phase.Closing? && !Replay(t.emitted).Over? && Delivered(t) != ""
    ensures var w := Exec(l, EMPTY, actions);
            var w' := Do(l, w, Advance(p, Go(false)));
            && SavedOnce(w'.turns[p], Delivered(w.turns[p]))
            && w.turns[p].sessionId in w'.sessions
            && w'.turns[p].session.messages == w'.sessions[w.turns[p].sessionId].messages
  {
    hide Replay, Deltas, Exec, StoreOk, Parse, Concat, SavedOnce;
    RunReported(l, actions);
    EmptyInv();
    RunKeeps(l, EMPTY, actions);
    var w := Exec(l, EMPTY, actions);
    assert w.turns[p] in w.turns;
    StepGood(l, w.turns[p], w.sessions, Go(false), w.admitted);
    CloseKeepsText(w.turns[p], w.sessions);
  }

  /** The close handler's step on a current copy leaves the store and the copy alike. */
  lemma ClosedCopyIsStored(l: Limits, actions: seq<Action>, p: nat)
    requires Current(Exec(l, EMPTY, actions), p) && Suspended(Exec(l, EMPTY, actions).turns[p].phase)
    ensures var w := Exec(l, EMPTY, actions);
            var (t, w') := (w.turns[p], ClosedNow(l, w, p));
            t.sessionId in w'.sessions && w'.turns[p].session.messages == w'.sessions[t.sessionId].messages
  {
    hide Exec, Shut, Parse, StoreOk;
    RunKept(l, actions);
    var w := Exec(l, EMPTY, actions);
    assert w.turns[p] in w.turns;
    var closing := w.turns[p].(cancelled := true, phase := Closing);
    StepGood(l, closing, w.sessions, Go(false), w.admitted);
    ShutMoves(closing, w.sessions);
  }

  lemma ShutMoves(t: Turn, sessions: Sessions)
    requires t.phase.Closing?
    ensures var o := Shut(t, sessions, false); !o.saved ==> o.turn.session == t.session
  {
  }

  /** A turn closed where it is suspended, and then its handler run. */
  ghost function ClosedNow(l: Limits, w: World, p: nat): World {
    Do(l, Do(l, w, Close(p)), Advance(p, Go(false)))
  }

  /** Closed at its terminal event instead, a turn that still holds its buffer saves the text a second time. */
  lemma ClosedAtTerminalRepeatsText(l: Limits, actions: seq<Action>, p: nat)
    requires p < |Exec(l, EMPTY, actions).turns|
    requires var w := Exec(l, EMPTY, actions);
             var t := w.turns[p];
             Current(w, p) && t.phase.YTerminal? && !Drops(t.phase.ending) && t.buffer != [] && Delivered(t) != ""
    ensures var w := Exec(l, EMPTY, actions);
            var (t, w') := (w.turns[p], ClosedNow(l, w, p));
            && SavedTwice(w'.turns[p], Delivered(t))
            && t.sessionId in w'.sessions && w'.turns[p].session.messages == w'.sessions[t.sessionId].messages
  {
    hide Exec, Deltas, Concat, Attempt, SavedTwice, Replay;
    RunReported(l, actions);
    ClosedCopyIsStored(l, actions, p);
    var w := Exec(l, EMPTY, actions);
    assert w.turns[p] in w.turns;
    CloseReported(l, w.turns[p]);
    CloseAtTerminalRepeatsText(w.turns[p].(cancelled := true, phase := Closing), w.sessions);
  }

  // ---------------------------------------------------------- authorization

  predicate RunsTool(p: Phase) {
    p.Running? || p.YProgress? || p.SavingResult?
  }

  predicate Modest(k: Kind) {
    !k.Progress? && (k.ToolCompleted? ==> k.call.toolId != EXECUTE)
  }

  /** No phase in which an execution runs. */
  predicate Restrained(t: Turn) {
    && (RunsTool(t.phase) && t.next < |t.calls| ==> t.calls[t.next].toolId != EXECUTE)
    && (t.phase.YEarth? ==> t.phase.call.toolId == EARTH)
  }

  /** The step adds at most one event, and that a modest one. */
  predicate SaysModestly(t: Turn, t': Turn) {
    || t'.emitted == t.emitted
    || (|t'.emitted| == |t.emitted| + 1 && t'.emitted[..|t.emitted|] == t.emitted && Modest(t'.emitted[|t.emitted|].kind))
  }

  predicate Behaves(t: Turn, t': Turn) {
    t'.authorized == t.authorized && (!t.authorized ==> Restrained(t') && SaysModestly(t, t'))
  }

  lemma OpenBehaves(t: Turn, sessions: Sessions, busy: bool)
    requires t.phase.Opening? && (!t.authorized ==> Restrained(t))
    ensures Behaves(t, Open(t, sessions, busy).turn)
  {
  }

  lemma PersistBehaves(t: Turn, sessions: Sessions, busy: bool)
    requires t.phase.Persisting? && (!t.authorized ==> Restrained(t))
    ensures Behaves(t, Persist(t, sessions, busy).turn)
  {
  }

  lemma SaveReplyBehaves(t: Turn, sessions: Sessions, busy: bool)
    requires t.phase.SavingReply? && (!t.authorized ==> Restrained(t))
    ensures Behaves(t, SaveReply(t, sessions, busy).turn)
  {
  }

  lemma SaveResultBehaves(t: Turn, sessions: Sessions, busy: bool)
    requires t.phase.SavingResult? && t.next < |t.calls| && (!t.authorized ==> Restrained(t))
    ensures Behaves(t, SaveResult(t, sessions, busy).turn)
  {
  }

  lemma SaveFailureBehaves(t: Turn, sessions: Sessions, busy: bool)
    requires t.phase.SavingFailure? && t.next < |t.calls| && (!t.authorized ==> Restrained(t))
    ensures Behaves(t, SaveFailure(t, sessions, busy).turn)
  {
  }

  lemma ShutBehaves(t: Turn, sessions: Sessions, busy: bool)
    requires t.phase.Closing? && (!t.authorized ==> Restrained(t))
    ensures Behaves(t, Shut(t, sessions, busy).turn)
  {
  }

  lemma OperateBehaves(t: Turn, sessions: Sessions, busy: bool)
    requires !t.authorized ==> Restrained(t)
    ensures Behaves(t, Operate(t, sessions, busy).turn)
  {
    hide Open, Persist, SaveReply, SaveResult, SaveFailure, Shut;
    match t.phase
    case Opening => OpenBehaves(t, sessions, busy);
    case Persisting(_, _) => PersistBehaves(t, sessions, busy);
    case SavingReply => SaveReplyBehaves(t, sessions, busy);
    case SavingResult(_) => if t.next < |t.calls| { SaveResultBehaves(t, sessions, busy); }
    case SavingFailure(_) => if t.next < |t.calls| { SaveFailureBehaves(t, sessions, busy); }
    case Closing => ShutBehaves(t, sessions, busy);
    case _ =>
  }

  lemma StreamBehaves(l: Limits, t: Turn, i: Input)
    requires t.phase.Streaming? && (!t.authorized ==> Restrained(t))
    ensures Behaves(t, Stream(l, t, i))
  {
  }

  lemma ExecuteBehaves(t: Turn, i: Input)
    requires t.phase.Running? && t.next < |t.calls| && (!t.authorized ==> Restrained(t))
    ensures Behaves(t, Execute(t, i))
  {
  }

  lemma ContinueBehaves(l: Limits, t: Turn)
    requires Silent(t.phase) && (!t.authorized ==> Restrained(t))
    ensures Behaves(t, Continue(l, t))
  {
    assert EARTH[0] != EXECUTE[0];
  }

  lemma StepBehaves(l: Limits, t: Turn, sessions: Sessions, i: Input)
    requires EventsOk(t) && (!t.authorized ==> Restrained(t))
    ensures Behaves(t, TurnStep(l, t, sessions, i).turn)
  {
    if t.phase.Streaming? {
      StreamBehaves(l, t, i);
    } else if t.phase.Running? {
      ExecuteBehaves(t, i);
    } else if i.Go? && Silent(t.phase) {
      ContinueBehaves(l, t);
    } else if i.Go? {
      OperateBehaves(t, sessions, i.busy);
    }
  }

  lemma BehavesModestly(t: Turn, t': Turn)
    requires Behaves(t, t') && !t.authorized && forall e <- t.emitted :: Modest(e.kind)
    ensures forall e <- t'.emitted :: Modest(e.kind)
  {
    forall e <- t'.emitted
      ensures Modest(e.kind)
    {
      if t'.emitted != t.emitted {
        var k :| 0 <= k < |t'.emitted| && t'.emitted[k] == e;
        if k < |t.emitted| { assert t'.emitted[..|t.emitted|][k] == e; }
      }
    }
  }

  predicate StaysModest(t: Turn) {
    !t.authorized ==> Restrained(t) && forall e <- t.emitted :: Modest(e.kind)
  }

  lemma StepStaysModest(l: Limits, t: Turn, sessions: Sessions, i: Input)
    requires EventsOk(t) && StaysModest(t)
    ensures StaysModest(TurnStep(l, t, sessions, i).turn)
  {
    hide TurnStep;
    StepBehaves(l, t, sessions, i);
    if !t.authorized {
      BehavesModestly(t, TurnStep(l, t, sessions, i).turn);
    }
  }

  lemma ActionStaysModest(l: Limits, w: World, a: Action, k: nat)
    requires forall t <- w.turns :: StaysModest(t) && EventsOk(t)
    requires k < |Do(l, w, a).turns|
    ensures StaysModest(Do(l, w, a).turns[k])
  {
    hide TurnStep, EventsOk;
    if k < |w.turns| {
      assert w.turns[k] in w.turns;
      if a.Advance? && a.p == k {
        StepStaysModest(l, w.turns[k], w.sessions, a.input);
      }
    }
  }

  /** In every run, a turn the caller did not authorize never runs, reports progress of, or completes an execution. */
  lemma {:induction false} UnauthorizedTurnsNeverExecute(l: Limits, actions: seq<Action>)
    ensures forall t <- Exec(l, EMPTY, actions).turns ::
              !t.authorized ==> Restrained(t) && forall e <- t.emitted :: Modest(e.kind)
  {
    if actions != [] {
      var w := Exec(l, EMPTY, actions[..|actions| - 1]);
      UnauthorizedTurnsNeverExecute(l, actions[..|actions| - 1]);
      RunReported(l, actions[..|actions| - 1]);
      var w' := Do(l, w, actions[|actions| - 1]);
      assert forall t <- w.turns :: StaysModest(t) && EventsOk(t);
      hide Do, EventsOk, Restrained, Modest;
      forall k | 0 <= k < |w'.turns|
        ensures StaysModest(w'.turns[k])
      {
        ActionStaysModest(l, w, actions[|actions| - 1], k);
      }
    }
  }
}
