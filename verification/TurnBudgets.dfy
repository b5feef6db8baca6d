/** Rounds, tool calls and messages of one turn stay within its limits. */
module TurnBudgets {
  import opened SessionStore
  import opened TurnProtocol
  import opened TurnEvents

  function Started(es: seq<Event>): nat {
    if es == [] then 0
    else Started(es[..|es| - 1]) + if es[|es| - 1].kind.ToolStarted? then 1 else 0
  }

  lemma StartedAppend(es: seq<Event>, e: Event)
    ensures Started(es + [e]) == Started(es) + if e.kind.ToolStarted? then 1 else 0
  {
    assert (es + [e])[..|es|] == es;
  }

  /** Messages this turn has added since its opening save. */
  function Grown(t: Turn): int {
    |t.session.messages| - |t.opening|
  }

  predicate InRound(p: Phase) {
    p.Streaming? || p.YDelta? || p.Persisting? || p.SavingReply?
  }

  /** After the opening, each round adds its reply and each settled call its result. */
  predicate Budgeted(l: Limits, t: Turn) {
    && t.round <= l.maxRounds && t.used <= l.maxCalls
    && (t.phase.Loading? || t.phase.Opening? ==> t.round == 0 && t.used == 0 && t.opening == [])
    && (t.phase.YStarted? || t.phase.RoundHead? || InRound(t.phase) ==> Grown(t) == t.round + t.used)
    && (InRound(t.phase) || Tooling(t.phase) || t.phase.NextTool? || t.phase.YEarth? || t.phase.YToolDone? ==>
          t.round < l.maxRounds)
    && (t.phase.SavingReply? ==> |t.calls| + t.used <= l.maxCalls)
    && (t.phase.NextTool? || t.phase.YEarth? || t.phase.YToolDone? ==>
          && t.next <= |t.calls| && t.used + |t.calls| - t.next <= l.maxCalls
          && Grown(t) == t.round + 1 + t.used)
    && (Tooling(t.phase) ==>
          && t.next < |t.calls| && t.used + |t.calls| - t.next - 1 <= l.maxCalls
          && Grown(t) == t.round + t.used)
    && (t.phase.YTerminal? || t.phase.Finished? || t.phase.Closing? ==> Grown(t) <= l.maxRounds + l.maxCalls)
    && (t.phase.Gone? && t.opening != [] ==> Grown(t) <= l.maxRounds + l.maxCalls + 1)
  }

  /** `used` moves with the started events. */
  predicate Counts(t: Turn, t': Turn) {
    || (t'.emitted == t.emitted && t'.used == t.used)
    || (&& |t'.emitted| == |t.emitted| + 1 && t'.emitted[..|t.emitted|] == t.emitted
        && t'.used == t.used + if t'.emitted[|t.emitted|].kind.ToolStarted? then 1 else 0)
  }

  lemma EndOfStreamBudget(l: Limits, t: Turn)
    requires t.phase.Streaming? && Budgeted(l, t)
    ensures Budgeted(l, EndOfStream(l, t)) && Counts(t, EndOfStream(l, t))
  {
  }

  lemma StreamBudget(l: Limits, t: Turn, i: Input)
    requires t.phase.Streaming? && Budgeted(l, t)
    ensures Budgeted(l, Stream(l, t, i)) && Counts(t, Stream(l, t, i))
  {
    hide EndOfStream;
    EndOfStreamBudget(l, t);
  }

  lemma ExecuteBudget(l: Limits, t: Turn, i: Input)
    requires t.phase.Running? && Budgeted(l, t)
    ensures Budgeted(l, Execute(t, i)) && Counts(t, Execute(t, i))
  {
  }

  lemma BeginRoundBudget(l: Limits, t: Turn)
    requires t.phase.RoundHead? && Budgeted(l, t)
    ensures Budgeted(l, BeginRound(l, t)) && Counts(t, BeginRound(l, t))
  {
  }

  lemma StartToolBudget(l: Limits, t: Turn)
    requires t.phase.NextTool? && Budgeted(l, t)
    ensures Budgeted(l, StartTool(t)) && Counts(t, StartTool(t))
  {
  }

  lemma DispatchBudget(l: Limits, t: Turn)
    requires t.phase.YToolStarted? && Budgeted(l, t)
    ensures Budgeted(l, Dispatch(t)) && Counts(t, Dispatch(t))
  {
  }

  lemma ContinueBudget(l: Limits, t: Turn)
    requires Silent(t.phase) && Budgeted(l, t)
    ensures Budgeted(l, Continue(l, t)) && Counts(t, Continue(l, t))
  {
    hide BeginRound, StartTool, Dispatch;
    match t.phase
    case RoundHead => BeginRoundBudget(l, t);
    case YToolStarted => DispatchBudget(l, t);
    case NextTool => StartToolBudget(l, t);
    case _ =>
  }

  lemma OpenBudget(l: Limits, t: Turn, sessions: Sessions, busy: bool)
    requires t.phase.Opening? && Budgeted(l, t)
    ensures Budgeted(l, Open(t, sessions, busy).turn) && Counts(t, Open(t, sessions, busy).turn)
  {
  }

  lemma PersistBudget(l: Limits, t: Turn, sessions: Sessions, busy: bool)
    requires t.phase.Persisting? && Budgeted(l, t)
    ensures Budgeted(l, Persist(t, sessions, busy).turn) && Counts(t, Persist(t, sessions, busy).turn)
  {
    hide Concat;
  }

  lemma ShutBudget(l: Limits, t: Turn, sessions: Sessions, busy: bool)
    requires t.phase.Closing? && Budgeted(l, t)
    ensures Budgeted(l, Shut(t, sessions, busy).turn) && Counts(t, Shut(t, sessions, busy).turn)
  {
    hide Concat;
  }

  lemma SaveReplyBudget(l: Limits, t: Turn, sessions: Sessions, busy: bool)
    requires t.phase.SavingReply? && Budgeted(l, t)
    ensures Budgeted(l, SaveReply(t, sessions, busy).turn) && Counts(t, SaveReply(t, sessions, busy).turn)
  {
    hide Concat;
  }

  lemma SaveResultBudget(l: Limits, t: Turn, sessions: Sessions, busy: bool)
    requires t.phase.SavingResult? && Budgeted(l, t)
    ensures Budgeted(l, SaveResult(t, sessions, busy).turn) && Counts(t, SaveResult(t, sessions, busy).turn)
  {
  }

  lemma SaveFailureBudget(l: Limits, t: Turn, sessions: Sessions, busy: bool)
    requires t.phase.SavingFailure? && Budgeted(l, t)
    ensures Budgeted(l, SaveFailure(t, sessions, busy).turn) && Counts(t, SaveFailure(t, sessions, busy).turn)
  {
  }

  lemma LoadBudget(l: Limits, t: Turn, sessions: Sessions)
    requires t.phase.Loading? && Budgeted(l, t)
    ensures Budgeted(l, Load(t, sessions).turn) && Counts(t, Load(t, sessions).turn)
  {
  }

  lemma OperateBudget(l: Limits, t: Turn, sessions: Sessions, busy: bool)
    requires Budgeted(l, t)
    ensures Budgeted(l, Operate(t, sessions, busy).turn) && Counts(t, Operate(t, sessions, busy).turn)
  {
    hide Open, Persist, SaveReply, SaveResult, SaveFailure, Shut, Load;
    match t.phase
    case Loading => LoadBudget(l, t, sessions);
    case Opening => OpenBudget(l, t, sessions, busy);
    case Persisting(_, _) => PersistBudget(l, t, sessions, busy);
    case SavingReply => SaveReplyBudget(l, t, sessions, busy);
    case SavingResult(_) => SaveResultBudget(l, t, sessions, busy);
    case SavingFailure(_) => SaveFailureBudget(l, t, sessions, busy);
    case Closing => ShutBudget(l, t, sessions, busy);
    case _ =>
  }

  ghost predicate BudgetOk(l: Limits, t: Turn) {
    Budgeted(l, t) && t.used == Started(t.emitted)
  }

  lemma CountsKeep(t: Turn, t': Turn)
    requires t.used == Started(t.emitted) && Counts(t, t')
    ensures t'.used == Started(t'.emitted)
  {
    if t'.emitted != t.emitted {
      assert t'.emitted == t.emitted + [t'.emitted[|t.emitted|]];
      StartedAppend(t.emitted, t'.emitted[|t.emitted|]);
    }
  }

  lemma StepBudget(l: Limits, t: Turn, sessions: Sessions, i: Input)
    requires BudgetOk(l, t)
    ensures BudgetOk(l, TurnStep(l, t, sessions, i).turn)
  {
    if t.phase.Streaming? {
      StreamBudget(l, t, i);
      CountsKeep(t, Stream(l, t, i));
    } else if t.phase.Running? {
      ExecuteBudget(l, t, i);
      CountsKeep(t, Execute(t, i));
    } else if i.Go? && Silent(t.phase) {
      ContinueBudget(l, t);
      CountsKeep(t, Continue(l, t));
    } else if i.Go? {
      OperateBudget(l, t, sessions, i.busy);
      CountsKeep(t, Operate(t, sessions, i.busy).turn);
    }
  }
}
