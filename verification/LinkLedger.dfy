/**
 * Which investigations a stored session is linked to: over every run, exactly
 * those that the results of its turns' tools named, up to each turn's last save.
 */
module LinkLedger {
  import opened Transcript
  import opened SessionStore
  import opened TurnProtocol
  import opened TurnSafety
  import opened TurnRuns
  import opened TurnEvents
  import opened TurnBudgets
  import opened TurnText
  import opened TurnHistory

  // ------------------------------------------------------------- the reckoning

  /** The IDs that this action's tool result brings turn `p`; a presentation command brings none. */
  function Brings(w: World, a: Action, p: nat): set<string> {
    if a.Advance? && a.p == p && p < |w.turns| && w.turns[p].phase.Running? &&
       w.turns[p].next < |w.turns[p].calls| && w.turns[p].calls[w.turns[p].next].toolId != EARTH
    then
      match a.input
      case ToolReturned(_, ids) => ids
      case ToolRaised(_, ids) => ids
      case _ => {}
    else {}
  }

  /** All that turn `p`'s tools have named so far. */
  ghost function Carried(l: Limits, actions: seq<Action>, p: nat): set<string> {
    if actions == [] then {}
    else
      var init := actions[..|actions| - 1];
      Carried(l, init, p) + Brings(Exec(l, EMPTY, init), actions[|actions| - 1], p)
  }

  /** The action is a save, by one of this session's turns. */
  ghost predicate SavesTo(l: Limits, w: World, a: Action, id: string) {
    a.Advance? && a.p < |w.turns| && w.turns[a.p].sessionId == id && Do(l, w, a).log != w.log
  }

  /** What the turns of a session had carried at their saves. */
  ghost function Linked(l: Limits, actions: seq<Action>, id: string): set<string> {
    if actions == [] then {}
    else
      var init, a := actions[..|actions| - 1], actions[|actions| - 1];
      Linked(l, init, id) + if SavesTo(l, Exec(l, EMPTY, init), a, id) then Carried(l, init, a.p) else {}
  }

  // ---------------------------------------------------------------- invariants

  /** A turn up to date with its session has linked what is stored and what it carries. */
  ghost predicate Tallies(t: Turn, sessions: Sessions, carried: set<string>) {
    && (t.phase.Loading? || t.phase.Opening? ==> carried == {})
    && (Live(t) && t.sessionId in sessions && t.session.revision == sessions[t.sessionId].revision ==>
          t.session.investigationIds == sessions[t.sessionId].investigationIds + carried)
  }

  ghost predicate StoresBalance(sessions: Sessions, linked: string -> set<string>) {
    && (forall id <- sessions :: sessions[id].investigationIds == linked(id))
    && (forall id :: id !in sessions ==> linked(id) == {})
  }

  ghost predicate TurnsBalance(turns: seq<Turn>, sessions: Sessions, carried: nat -> set<string>) {
    && (forall p :: 0 <= p < |turns| ==> Tallies(turns[p], sessions, carried(p)))
    && (forall p: nat :: p >= |turns| ==> carried(p) == {})
  }

  /** The books of a world: what is linked to each session, and what each turn carries. */
  ghost predicate Balanced(w: World, linked: string -> set<string>, carried: nat -> set<string>) {
    StoresBalance(w.sessions, linked) && TurnsBalance(w.turns, w.sessions, carried)
  }

  ghost function Ledger(l: Limits, actions: seq<Action>): string -> set<string> {
    id => Linked(l, actions, id)
  }

  ghost function Loads(l: Limits, actions: seq<Action>): nat -> set<string> {
    (p: nat) => Carried(l, actions, p)
  }

  ghost predicate Reckoned(l: Limits, actions: seq<Action>) {
    Balanced(Exec(l, EMPTY, actions), Ledger(l, actions), Loads(l, actions))
  }

  // ------------------------------------------------------------------ one step

  /** What a step does to the turn's own links: a load reads them, a result adds to them, nothing else moves them. */
  ghost predicate LinksMove(t: Turn, o: Outcome, brought: set<string>) {
    if t.phase.Loading? then
      || o.turn == t || o.turn.phase.Gone?
      || (o.turn.phase.Opening? && t.sessionId in o.sessions && o.turn.session == o.sessions[t.sessionId])
    else
      && o.turn.session.investigationIds == t.session.investigationIds + brought
      && (brought != {} ==> !o.saved)
      && (Live(o.turn) ==> Live(t)) && !o.turn.phase.Loading?
      && (o.turn.phase.Opening? ==> t.phase.Opening?)
  }

  lemma AttemptKeepsLinks(t: Turn, sessions: Sessions, ms: seq<Message>, busy: bool)
    ensures var o := Attempt(t, sessions, ms, busy);
            o.Some? ==> && o.value.turn == t.(session := o.value.turn.session)
                        && o.value.turn.session.investigationIds == t.session.investigationIds
  {
  }

  lemma PartialMovesNoLinks(t: Turn, sessions: Sessions, busy: bool)
    ensures t.phase.Persisting? ==> LinksMove(t, Persist(t, sessions, busy), {})
    ensures t.phase.Closing? ==> LinksMove(t, Shut(t, sessions, busy), {})
  {
    hide Concat, Attempt;
    AttemptKeepsLinks(t, sessions, [AssistantMessage(Concat(t.buffer), t.turnId, [])], busy);
  }

  lemma ReplyMovesNoLinks(t: Turn, sessions: Sessions, busy: bool)
    ensures t.phase.SavingReply? ==> LinksMove(t, SaveReply(t, sessions, busy), {})
    ensures t.phase.Opening? ==> LinksMove(t, Open(t, sessions, busy), {})
  {
    hide Concat, Attempt, Recovery;
    AttemptKeepsLinks(t, sessions, [AssistantMessage(Concat(t.buffer), t.turnId, t.calls)], busy);
    AttemptKeepsLinks(t, sessions, Recovery(t.session.messages) + [UserMessage(t.prompt, t.turnId)], busy);
  }

  lemma AnswerMovesNoLinks(t: Turn, sessions: Sessions, busy: bool)
    requires t.next < |t.calls|
    ensures t.phase.SavingResult? ==> LinksMove(t, SaveResult(t, sessions, busy), {})
    ensures t.phase.SavingFailure? ==> LinksMove(t, SaveFailure(t, sessions, busy), {})
  {
    hide Attempt;
    if t.phase.SavingResult? || t.phase.SavingFailure? {
      AttemptKeepsLinks(t, sessions, [ToolMessage(t.phase.content, t.turnId, t.calls[t.next])], busy);
    }
  }

  lemma SavingMovesNoLinks(t: Turn, sessions: Sessions, busy: bool)
    requires !Silent(t.phase) && !t.phase.Streaming? && !t.phase.Running?
    ensures LinksMove(t, Operate(t, sessions, busy), {})
  {
    hide Persist, Shut, SaveReply, Open, SaveResult, SaveFailure;
    PartialMovesNoLinks(t, sessions, busy);
    ReplyMovesNoLinks(t, sessions, busy);
    if t.next < |t.calls| {
      AnswerMovesNoLinks(t, sessions, busy);
    }
  }

  lemma StreamMovesNoLinks(l: Limits, t: Turn, i: Input, sessions: Sessions)
    requires t.phase.Streaming?
    ensures LinksMove(t, Quiet(Stream(l, t, i), sessions), {})
  {
    hide DistinctCalls, Concat;
  }

  lemma SilenceMovesNoLinks(l: Limits, t: Turn, sessions: Sessions)
    requires Silent(t.phase)
    ensures LinksMove(t, Quiet(Continue(l, t), sessions), {})
  {
    hide Concat;
  }

  lemma ResultMovesLinks(t: Turn, i: Input, sessions: Sessions, brought: set<string>)
    requires t.phase.Running? && t.next < |t.calls|
    requires brought == if t.calls[t.next].toolId == EARTH then {}
                        else if i.ToolReturned? || i.ToolRaised? then i.ids else {}
    ensures LinksMove(t, Quiet(Execute(t, i), sessions), brought)
  {
  }

  lemma StepMovesLinks(l: Limits, w: World, p: nat, i: Input)
    requires p < |w.turns| && BudgetOk(l, w.turns[p])
    ensures LinksMove(w.turns[p], TurnStep(l, w.turns[p], w.sessions, i), Brings(w, Advance(p, i), p))
  {
    hide LinksMove, Stream, Continue, Execute, Operate;
    var t := w.turns[p];
    if t.phase.Streaming? {
      StreamMovesNoLinks(l, t, i, w.sessions);
    } else if t.phase.Running? {
      ResultMovesLinks(t, i, w.sessions, Brings(w, Advance(p, i), p));
    } else if !i.Go? {
      StillMovesNoLinks(t, w.sessions);
    } else if Silent(t.phase) {
      SilenceMovesNoLinks(l, t, w.sessions);
    } else {
      SavingMovesNoLinks(t, w.sessions, i.busy);
    }
  }

  lemma StillMovesNoLinks(t: Turn, sessions: Sessions)
    ensures LinksMove(t, Quiet(t, sessions), {})
  {
  }

  lemma MoverTallies(t: Turn, sessions: Sessions, admitted: set<string>, o: Outcome, carried: set<string>, brought: set<string>)
    requires Good(t, sessions, admitted, o) && LinksMove(t, o, brought) && Agrees(t, sessions)
    requires Tallies(t, sessions, carried) && (t.phase.Loading? || t.phase.Opening? ==> brought == {})
    ensures Tallies(o.turn, o.sessions, carried + brought)
    ensures o.saved ==> && t.sessionId in sessions && t.sessionId in o.sessions
                        && o.sessions[t.sessionId].investigationIds == sessions[t.sessionId].investigationIds + carried
  {
    hide StoreOk, TurnOk;
  }

  lemma OtherTallies(q: Turn, t: Turn, before: Sessions, after: Sessions, carried: set<string>)
    requires Tallies(q, before, carried) && Agrees(q, before)
    requires SavedBy(t, before, after)
    ensures Tallies(q, after, carried)
  {
  }

  lemma StoreMoves(t: Turn, sessions: Sessions, admitted: set<string>, o: Outcome)
    requires Good(t, sessions, admitted, o)
    ensures !o.saved ==> o.sessions == sessions
    ensures o.saved ==> && SavedBy(t, sessions, o.sessions) && t.session.id == t.sessionId && t.sessionId in sessions
                        && o.sessions.Keys == sessions.Keys
                        && forall id <- sessions :: id != t.sessionId ==> o.sessions[id] == sessions[id]
  {
  }

  /** The books after an action: the mover carries what it brings, and a save enters what it carried. */
  ghost predicate Entered(l: Limits, w: World, a: Action, linked: string -> set<string>, carried: nat -> set<string>,
                          linked': string -> set<string>, carried': nat -> set<string>)
  {
    && (forall p: nat :: carried'(p) == carried(p) + Brings(w, a, p))
    && (forall id :: linked'(id) == linked(id) + if SavesTo(l, w, a, id) then carried(a.p) else {})
  }

  /** The store that a step leaves, and whose books its save enters. */
  lemma AdvanceSaves(l: Limits, w: World, p: nat, i: Input)
    requires p < |w.turns|
    ensures var (o, w') := (TurnStep(l, w.turns[p], w.sessions, i), Do(l, w, Advance(p, i)));
            && w'.sessions == o.sessions && w'.turns == w.turns[p := o.turn]
            && forall id :: SavesTo(l, w, Advance(p, i), id) <==> o.saved && id == w.turns[p].sessionId
  {
    hide TurnStep;
  }

  lemma EntersSave(t: Turn, sessions: Sessions, o: Outcome, linked: string -> set<string>, carried: set<string>,
                   linked': string -> set<string>)
    requires StoresBalance(sessions, linked)
    requires forall id :: linked'(id) == linked(id) + if o.saved && id == t.sessionId then carried else {}
    requires !o.saved ==> o.sessions == sessions
    requires o.saved ==> && t.sessionId in sessions && o.sessions.Keys == sessions.Keys
                         && o.sessions[t.sessionId].investigationIds == sessions[t.sessionId].investigationIds + carried
                         && forall id <- sessions :: id != t.sessionId ==> o.sessions[id] == sessions[id]
    ensures StoresBalance(o.sessions, linked')
  {
    forall id <- o.sessions
      ensures o.sessions[id].investigationIds == linked'(id)
    {
      assert id in sessions && linked'(id) == linked(id) + if o.saved && id == t.sessionId then carried else {};
    }
  }

  lemma AdvanceBalances(l: Limits, w: World, p: nat, i: Input, linked: string -> set<string>, carried: nat -> set<string>,
                        linked': string -> set<string>, carried': nat -> set<string>)
    requires Balanced(w, linked, carried) && Inv(w) && p < |w.turns| && BudgetOk(l, w.turns[p])
    requires Entered(l, w, Advance(p, i), linked, carried, linked', carried')
    ensures Balanced(Do(l, w, Advance(p, i)), linked', carried')
  {
    hide TurnStep, Good, LinksMove, Tallies, StoreOk, TurnOk, BudgetOk, Agrees, Brings, SavesTo, Do, SavedBy, StoresBalance;
    var a, t, o := Advance(p, i), w.turns[p], TurnStep(l, w.turns[p], w.sessions, i);
    assert t in w.turns && forall q <- w.turns :: Agrees(q, w.sessions);
    StepGood(l, t, w.sessions, i, w.admitted);
    hide Inv;
    AdvanceSaves(l, w, p, i);
    StepMovesLinks(l, w, p, i);
    OnlyRunningBrings(w, a, p);
    MoverTallies(t, w.sessions, w.admitted, o, carried(p), Brings(w, a, p));
    StoreMoves(t, w.sessions, w.admitted, o);
    EntersSave(t, w.sessions, o, linked, carried(p), linked');
    TurnsStayBalanced(w, p, t, o, carried, carried');
  }

  lemma TurnsStayBalanced(w: World, p: nat, t: Turn, o: Outcome, carried: nat -> set<string>, carried': nat -> set<string>)
    requires p < |w.turns| && TurnsBalance(w.turns, w.sessions, carried)
    requires forall q <- w.turns :: Agrees(q, w.sessions)
    requires Tallies(o.turn, o.sessions, carried'(p)) && forall k: nat :: k != p ==> carried'(k) == carried(k)
    requires if o.saved then SavedBy(t, w.sessions, o.sessions) else o.sessions == w.sessions
    ensures TurnsBalance(w.turns[p := o.turn], o.sessions, carried')
  {
    hide Tallies, SavedBy, Agrees;
    forall k | 0 <= k < |w.turns|
      ensures Tallies(w.turns[p := o.turn][k], o.sessions, carried'(k))
    {
      if k != p && o.saved {
        assert w.turns[k] in w.turns;
        OtherTallies(w.turns[k], t, w.sessions, o.sessions, carried(k));
      }
    }
  }

  lemma OnlyRunningBrings(w: World, a: Action, p: nat)
    requires p < |w.turns|
    ensures !w.turns[p].phase.Running? ==> Brings(w, a, p) == {}
    ensures a.Advance? ==> forall q: nat :: q != a.p ==> Brings(w, a, q) == {}
  {
  }

  lemma NoneEntered(l: Limits, w: World, a: Action, linked: string -> set<string>, carried: nat -> set<string>,
                    linked': string -> set<string>, carried': nat -> set<string>)
    requires (a.Advance? ==> a.p >= |w.turns|) && Entered(l, w, a, linked, carried, linked', carried')
    ensures (forall p: nat :: carried'(p) == carried(p)) && (forall id :: linked'(id) == linked(id))
  {
  }

  lemma CreateBalances(w: World, id: string, linked: string -> set<string>, carried: nat -> set<string>)
    requires Balanced(w, linked, carried) && Inv(w) && id !in w.sessions
    ensures Balanced(w.(sessions := w.sessions[id := Session(id, 1, [], {})]), linked, carried)
  {
    hide StoreOk, TurnOk;
    var sessions := w.sessions[id := Session(id, 1, [], {})];
    forall k | 0 <= k < |w.turns|
      ensures Tallies(w.turns[k], sessions, carried(k))
    {
      assert w.turns[k] in w.turns;
    }
  }

  lemma SameBooks(w: World, linked: string -> set<string>, carried: nat -> set<string>,
                  linked': string -> set<string>, carried': nat -> set<string>)
    requires Balanced(w, linked, carried)
    requires (forall p: nat :: carried'(p) == carried(p)) && (forall id :: linked'(id) == linked(id))
    ensures Balanced(w, linked', carried')
  {
  }

  lemma TurnBalances(w: World, turns: seq<Turn>, linked: string -> set<string>, carried: nat -> set<string>)
    requires Balanced(w, linked, carried) && |w.turns| <= |turns|
    requires forall k :: 0 <= k < |turns| ==>
               if k < |w.turns| then turns[k] == w.turns[k] || Milder(turns[k], w.turns[k]) else turns[k].phase.Loading?
    ensures Balanced(w.(turns := turns), linked, carried)
  {
  }

  /** The same turn, but for being cancelled, closing or gone. */
  predicate Milder(t: Turn, u: Turn) {
    && t.session == u.session && t.sessionId == u.sessionId
    && (t.phase == u.phase || (t.phase.Closing? && Suspended(u.phase)) || t.phase.Gone?)
  }

  lemma OthersBalance(l: Limits, w: World, a: Action, linked: string -> set<string>, carried: nat -> set<string>,
                      linked': string -> set<string>, carried': nat -> set<string>)
    requires Balanced(w, linked, carried) && Inv(w) && (a.Advance? ==> a.p >= |w.turns|)
    requires Entered(l, w, a, linked, carried, linked', carried')
    ensures Balanced(Do(l, w, a), linked', carried')
  {
    NoneEntered(l, w, a, linked, carried, linked', carried');
    hide TurnStep, Balanced, Entered, Inv;
    match a {
      case CreateSession(id) => if id !in w.sessions { CreateBalances(w, id, linked, carried); }
      case Advance(_, _) =>
      case _ => TurnBalances(w, Do(l, w, a).turns, linked, carried);
    }
    SameBooks(Do(l, w, a), linked, carried, linked', carried');
  }

  lemma ReckonedEnters(l: Limits, actions: seq<Action>, a: Action)
    ensures Entered(l, Exec(l, EMPTY, actions), a, Ledger(l, actions), Loads(l, actions),
                    Ledger(l, actions + [a]), Loads(l, actions + [a]))
  {
    hide SavesTo, Brings;
    assert (actions + [a])[..|actions|] == actions;
  }

  lemma ActionReckons(l: Limits, actions: seq<Action>, a: Action)
    requires Reckoned(l, actions) && Inv(Exec(l, EMPTY, actions))
    requires a.Advance? && a.p < |Exec(l, EMPTY, actions).turns| ==> BudgetOk(l, Exec(l, EMPTY, actions).turns[a.p])
    ensures Reckoned(l, actions + [a])
  {
    hide Ledger, Loads, Entered, Balanced, Do, Inv;
    assert (actions + [a])[..|actions|] == actions;
    var w := Exec(l, EMPTY, actions);
    assert Exec(l, EMPTY, actions + [a]) == Do(l, w, a);
    hide Exec;
    ReckonedEnters(l, actions, a);
    if a.Advance? && a.p < |w.turns| {
      AdvanceBalances(l, w, a.p, a.input, Ledger(l, actions), Loads(l, actions),
                      Ledger(l, actions + [a]), Loads(l, actions + [a]));
    } else {
      OthersBalance(l, w, a, Ledger(l, actions), Loads(l, actions), Ledger(l, actions + [a]), Loads(l, actions + [a]));
    }
  }

  lemma NothingReckoned(l: Limits)
    ensures Reckoned(l, [])
  {
  }

  lemma {:induction false} RunReckons(l: Limits, actions: seq<Action>)
    ensures Reckoned(l, actions) && Inv(Exec(l, EMPTY, actions))
  {
    if actions == [] {
      EmptyInv();
      NothingReckoned(l);
    } else {
      var init, a := actions[..|actions| - 1], actions[|actions| - 1];
      RunReckons(l, init);
      RunReported(l, init);
      assert init + [a] == actions;
      hide Do, Reckoned, Inv, EventsOk, TextOk, BudgetOk;
      var w := Exec(l, EMPTY, init);
      StepKeeps(l, w, a);
      if a.Advance? && a.p < |w.turns| {
        assert w.turns[a.p] in w.turns;
      }
      ActionReckons(l, init, a);
    }
  }

  // -------------------------------------------------------------- main result

  /**
   * In every run, the investigations a stored session is linked to are exactly
   * those named by the results its turns had received when they last saved;
   * presentation commands link none.
   */
  lemma LinksAreCarried(l: Limits, actions: seq<Action>, id: string)
    requires id in Exec(l, EMPTY, actions).sessions
    ensures Exec(l, EMPTY, actions).sessions[id].investigationIds == Linked(l, actions, id)
  {
    RunReckons(l, actions);
  }
}
