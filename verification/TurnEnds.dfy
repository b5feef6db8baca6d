/**
 * How a turn stops: one that no one closes or crashes, and out of which no store
 * exception escapes, can always go on until it has finished.
 */
module TurnEnds {
  import opened Options
  import opened Transcript
  import opened SessionStore
  import opened TurnProtocol
  import opened TurnEvents
  import opened TurnBudgets
  import opened TurnHistory
  import opened TurnReports

  /**
   * What the turn is about to save with no handler of its own around the call.
   * A failed save of a result is caught, and so is the first one of a partial
   * text inside the model loop.
   */
  ghost function UnguardedSave(t: Turn): Option<seq<Message>> {
    match t.phase
    case Opening => Some(Recovery(t.session.messages) + [UserMessage(t.prompt, t.turnId)])
    case Persisting(_, retry) =>
      if retry || Concat(t.buffer) == "" then None else Some([AssistantMessage(Concat(t.buffer), t.turnId, [])])
    case SavingReply => Some([AssistantMessage(Concat(t.buffer), t.turnId, t.calls)])
    case SavingFailure(content) =>
      if t.next < |t.calls| then Some([ToolMessage(content, t.turnId, t.calls[t.next])]) else None
    case _ => None
  }

  /** A store exception escapes from this step: no such session, a conflict, or a reason of the store's own. */
  ghost predicate Escapes(t: Turn, sessions: Sessions, i: Input) {
    i.Go? &&
    if t.phase.Loading? then t.sessionId !in sessions
    else UnguardedSave(t).Some? && Attempt(t, sessions, UnguardedSave(t).value, i.busy).None?
  }

  predicate Broken(p: Phase) {
    p.Closing? || p.Gone?
  }

  lemma StoreStepsSurvive(t: Turn, sessions: Sessions, busy: bool)
    requires !Broken(t.phase) && !Silent(t.phase) && !Escapes(t, sessions, Go(busy))
    ensures !Broken(Operate(t, sessions, busy).turn.phase)
  {
    hide Recovery, Concat;
  }

  lemma StepSurvives(l: Limits, t: Turn, sessions: Sessions, i: Input)
    requires !Broken(t.phase) && !Escapes(t, sessions, i)
    ensures !Broken(TurnStep(l, t, sessions, i).turn.phase)
  {
    hide Operate, Escapes;
    if i.Go? && !Silent(t.phase) && !t.phase.Streaming? && !t.phase.Running? {
      StoreStepsSurvive(t, sessions, i.busy);
    }
  }

  // ----------------------------------------------------------- undisturbed runs

  /** Action `a`, taken in `w`, neither closes nor crashes turn `p`, nor lets a store exception out of it. */
  ghost predicate Spares(w: World, a: Action, p: nat) {
    match a
    case Close(q) => q != p
    case Crash(q) => q != p
    case Advance(q, i) => q == p && p < |w.turns| ==> !Escapes(w.turns[p], w.sessions, i)
    case _ => true
  }

  ghost predicate Undisturbed(l: Limits, actions: seq<Action>, p: nat) {
    forall k :: 0 <= k < |actions| ==> Spares(Exec(l, EMPTY, actions[..k]), actions[k], p)
  }

  lemma ActionSpares(l: Limits, w: World, a: Action, p: nat)
    requires Spares(w, a, p) && p < |Do(l, w, a).turns|
    requires p < |w.turns| ==> !Broken(w.turns[p].phase)
    ensures !Broken(Do(l, w, a).turns[p].phase)
  {
    hide TurnStep, Escapes;
    if a.Advance? && a.p == p && p < |w.turns| {
      StepSurvives(l, w.turns[p], w.sessions, a.input);
    }
  }

  lemma {:induction false} UndisturbedIsWhole(l: Limits, actions: seq<Action>, p: nat)
    requires Undisturbed(l, actions, p)
    ensures p < |Exec(l, EMPTY, actions).turns| ==> !Broken(Exec(l, EMPTY, actions).turns[p].phase)
  {
    if actions != [] {
      var init := actions[..|actions| - 1];
      hide Do, Spares;
      forall k | 0 <= k < |init|
        ensures Spares(Exec(l, EMPTY, init[..k]), init[k], p)
      {
        assert init[..k] == actions[..k];
      }
      UndisturbedIsWhole(l, init, p);
      assert Spares(Exec(l, EMPTY, init), actions[|init|], p);
      if p < |Exec(l, EMPTY, actions).turns| {
        ActionSpares(l, Exec(l, EMPTY, init), actions[|init|], p);
      }
    }
  }

  /** Driven to exhaustion: nothing that can happen to the turn's next step moves it. */
  ghost predicate Exhausted(l: Limits, t: Turn, sessions: Sessions) {
    forall i: Input :: TurnStep(l, t, sessions, i).turn == t
  }

  lemma SomethingMoves(l: Limits, t: Turn, sessions: Sessions)
    requires !Broken(t.phase) && !t.phase.Finished? && BudgetOk(l, t)
    ensures !Exhausted(l, t, sessions)
  {
    hide Recovery, Concat, Attempt;
    if t.phase.Streaming? {
      assert TurnStep(l, t, sessions, ModelStop).turn != t;
    } else if t.phase.Running? {
      assert TurnStep(l, t, sessions, ToolReturned("", {})).turn != t;
    } else {
      MovesOn(l, t, sessions);
      assert TurnStep(l, t, sessions, Go(false)).turn != t;
    }
  }

  lemma MovesOn(l: Limits, t: Turn, sessions: Sessions)
    requires !Broken(t.phase) && !t.phase.Finished? && !t.phase.Streaming? && !t.phase.Running? && BudgetOk(l, t)
    ensures TurnStep(l, t, sessions, Go(false)).turn.phase != t.phase
  {
    hide Recovery, Concat;
  }

  /**
   * In every run, a turn that is never closed or crashed and out of which no
   * store exception escapes can only stop by finishing; its events then run 1, 2, 3, …
   * from `turn.started` to its one terminal event, with every call settled.
   */
  lemma ExhaustedTurnHasEnded(l: Limits, actions: seq<Action>, p: nat)
    requires p < |Exec(l, EMPTY, actions).turns| && Undisturbed(l, actions, p)
    requires Exhausted(l, Exec(l, EMPTY, actions).turns[p], Exec(l, EMPTY, actions).sessions)
    ensures var t := Exec(l, EMPTY, actions).turns[p];
            var es := t.emitted;
            && t.phase.Finished?
            && es != [] && es[0].kind == TurnStarted
            && (forall i :: 0 <= i < |es| ==> es[i].sequence == i + 1)
            && (forall i :: 0 <= i < |es| ==> (IsEnd(es[i]) <==> i == |es| - 1))
            && (forall i :: 0 <= i < |es| && es[i].kind.ToolStarted? ==> exists j :: Pairs(es, i, j))
  {
    hide Exec, Pairs, Exhausted, Undisturbed;
    UndisturbedIsWhole(l, actions, p);
    RunReported(l, actions);
    var w := Exec(l, EMPTY, actions);
    assert w.turns[p] in w.turns;
    if !w.turns[p].phase.Finished? {
      SomethingMoves(l, w.turns[p], w.sessions);
    }
    TurnsReportInOrder(l, actions, p);
  }
}
