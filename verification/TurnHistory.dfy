/** What every turn of every run has behind it: its events, its spending, its text and how it ended. */
module TurnHistory {
  import opened SessionStore
  import opened Transcript
  import opened TurnProtocol
  import opened TurnEvents
  import opened TurnBudgets
  import opened TurnText

  ghost predicate Reported(l: Limits, t: Turn) {
    EventsOk(t) && BudgetOk(l, t) && TextOk(t)
  }

  lemma StepReported(l: Limits, t: Turn, sessions: Sessions, i: Input)
    requires Reported(l, t)
    ensures Reported(l, TurnStep(l, t, sessions, i).turn)
  {
    StepEvents(l, t, sessions, i);
    StepBudget(l, t, sessions, i);
    StepText(l, t, sessions, i);
  }

  lemma CloseReported(l: Limits, t: Turn)
    requires Reported(l, t) && Suspended(t.phase)
    ensures Reported(l, t.(cancelled := true, phase := Closing))
  {
  }

  lemma CrashReported(l: Limits, t: Turn)
    requires Reported(l, t)
    ensures Reported(l, t.(phase := Gone))
  {
  }

  lemma CancelReported(l: Limits, t: Turn)
    requires Reported(l, t)
    ensures Reported(l, t.(cancelled := true))
  {
  }

  lemma NewReported(l: Limits, id: string, sid: string, prompt: string, authorized: bool)
    ensures Reported(l, NewTurn(id, sid, prompt, authorized))
  {
  }

  lemma WorldStepReported(l: Limits, w: World, a: Action)
    requires forall t <- w.turns :: Reported(l, t)
    ensures forall t <- Do(l, w, a).turns :: Reported(l, t)
  {
    hide TurnStep, EventsOk, BudgetOk, TextOk;
    match a
    case Begin(id, sid, prompt, authorized) => NewReported(l, id, sid, prompt, authorized);
    case Close(p) => if p < |w.turns| && Suspended(w.turns[p].phase) { CloseReported(l, w.turns[p]); }
    case Crash(p) => if p < |w.turns| { CrashReported(l, w.turns[p]); }
    case Cancel(p) => if p < |w.turns| { CancelReported(l, w.turns[p]); }
    case Advance(p, i) => if p < |w.turns| { StepReported(l, w.turns[p], w.sessions, i); }
    case CreateSession(_) =>
  }

  lemma {:induction false} RunReported(l: Limits, actions: seq<Action>)
    ensures forall t <- Exec(l, EMPTY, actions).turns :: Reported(l, t)
  {
    if actions != [] {
      RunReported(l, actions[..|actions| - 1]);
      WorldStepReported(l, Exec(l, EMPTY, actions[..|actions| - 1]), actions[|actions| - 1]);
    }
  }

  // --------------------------------------------------------- ended turns

  /** The turn stands at its terminal event, or has finished after it. */
  predicate Rests(t: Turn, e: Ending) {
    || t.phase == YTerminal(e)
    || (t.phase.Finished? && t.emitted != [] && t.emitted[|t.emitted| - 1].kind == Ended(e))
  }

  lemma EndIsLast(t: Turn)
    requires EventsOk(t) && t.phase.YTerminal?
    ensures t.emitted != [] && t.emitted[|t.emitted| - 1].kind == Ended(t.phase.ending)
  {
    StreamShape(t.emitted);
  }

  /** `t` is `u`, later: it has finished, or been told to cancel. */
  predicate SameButPhase(t: Turn, u: Turn) {
    t == u.(phase := t.phase, cancelled := t.cancelled)
  }

  lemma OthersNeverFinish(l: Limits, t: Turn, i: Input)
    ensures t.phase.Streaming? ==> !Stream(l, t, i).phase.Finished?
    ensures t.phase.Running? ==> !Execute(t, i).phase.Finished?
    ensures Silent(t.phase) && !t.phase.YTerminal? ==> !Continue(l, t).phase.Finished?
  {
    hide Concat;
  }

  lemma SavingNeverFinishes(t: Turn, sessions: Sessions, busy: bool)
    requires !Silent(t.phase) && !t.phase.Streaming? && !t.phase.Running? && !t.phase.Finished?
    ensures !Operate(t, sessions, busy).turn.phase.Finished?
  {
    hide Concat, Attempt, Recovery;
  }

  lemma StepFinishes(l: Limits, t: Turn, sessions: Sessions, i: Input)
    requires TurnStep(l, t, sessions, i).turn.phase.Finished?
    ensures t.phase.Finished? || t.phase.YTerminal?
    ensures TurnStep(l, t, sessions, i).turn == t.(phase := Finished)
  {
    hide Operate, Stream, Execute;
    OthersNeverFinish(l, t, i);
    if t.phase.Finished? {
      if i.Go? { FinishedStays(t, sessions, i); }
    } else if i.Go? && !Silent(t.phase) && !t.phase.Streaming? && !t.phase.Running? {
      SavingNeverFinishes(t, sessions, i.busy);
    }
  }

  lemma FinishedStays(t: Turn, sessions: Sessions, i: Input)
    requires t.phase.Finished? && i.Go?
    ensures Operate(t, sessions, i.busy) == Quiet(t, sessions)
  {
  }

  /** A finished turn was at a terminal event earlier in the run, and nothing of it has changed since. */
  lemma {:induction false} FinishedWas(l: Limits, actions: seq<Action>, p: nat) returns (k: nat)
    requires p < |Exec(l, EMPTY, actions).turns| && Exec(l, EMPTY, actions).turns[p].phase.Finished?
    ensures k < |actions| && p < |Exec(l, EMPTY, actions[..k]).turns|
    ensures Exec(l, EMPTY, actions[..k]).turns[p].phase.YTerminal?
    ensures SameButPhase(Exec(l, EMPTY, actions).turns[p], Exec(l, EMPTY, actions[..k]).turns[p])
  {
    var init, last := actions[..|actions| - 1], actions[|actions| - 1];
    var w := Exec(l, EMPTY, init);
    assert p < |w.turns| && (w.turns[p].phase.YTerminal? || w.turns[p].phase.Finished?) &&
           SameButPhase(Exec(l, EMPTY, actions).turns[p], w.turns[p]) by {
      ActionFinishes(l, w, last, p);
    }
    if w.turns[p].phase.YTerminal? {
      k := |init|;
    } else {
      k := FinishedWas(l, init, p);
      assert init[..k] == actions[..k];
    }
  }

  lemma ActionFinishes(l: Limits, w: World, a: Action, p: nat)
    requires p < |Do(l, w, a).turns| && Do(l, w, a).turns[p].phase.Finished?
    ensures p < |w.turns| && (w.turns[p].phase.YTerminal? || w.turns[p].phase.Finished?)
    ensures SameButPhase(Do(l, w, a).turns[p], w.turns[p])
  {
    hide TurnStep;
    if a.Advance? && a.p == p {
      StepFinishes(l, w.turns[p], w.sessions, a.input);
    }
  }

  /** A turn that rests was, when it reached its terminal event, what it is now. */
  lemma RestingWas(l: Limits, actions: seq<Action>, p: nat, e: Ending) returns (k: nat)
    requires p < |Exec(l, EMPTY, actions).turns| && Rests(Exec(l, EMPTY, actions).turns[p], e)
    ensures k <= |actions| && p < |Exec(l, EMPTY, actions[..k]).turns|
    ensures Exec(l, EMPTY, actions[..k]).turns[p].phase == YTerminal(e)
    ensures SameButPhase(Exec(l, EMPTY, actions).turns[p], Exec(l, EMPTY, actions[..k]).turns[p])
  {
    hide Exec;
    if Exec(l, EMPTY, actions).turns[p].phase.Finished? {
      k := FinishedWas(l, actions, p);
      RunReported(l, actions[..k]);
      assert Exec(l, EMPTY, actions[..k]).turns[p] in Exec(l, EMPTY, actions[..k]).turns;
      EndIsLast(Exec(l, EMPTY, actions[..k]).turns[p]);
    } else {
      k := |actions|;
      assert actions[..k] == actions;
    }
  }
}
