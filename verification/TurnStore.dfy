/**
 * What of a turn's own transcript is in the store, whoever has saved the
 * session since, and how much an opening has to recover.
 */
module TurnStore {
  import opened Options
  import opened Transcript
  import opened SessionStore
  import opened TurnProtocol
  import opened TurnSafety
  import opened TurnRuns
  import opened TurnEvents
  import opened TurnBudgets
  import opened TurnText
  import opened TurnHistory

  // ------------------------------------------------------- what a step adds

  /** The message has what its role calls for and nothing else. */
  predicate OfItsRole(m: Message) {
    && m.images == []
    && (m.role == Assistant || m.toolCalls == [])
    && (m.toolCallId.Some? <==> m.role == Tool) && (m.toolName.Some? <==> m.role == Tool)
  }

  /** Every message is of its role, and none makes more calls than a turn may. */
  predicate Bounded(l: Limits, ms: seq<Message>) {
    forall m <- ms :: OfItsRole(m) && |m.toolCalls| <= l.maxCalls
  }

  /** The writer's own messages, and answers on behalf of interrupted turns. */
  predicate Own(turnId: string, ms: seq<Message>) {
    forall m <- ms :: m.turnId == turnId || m.role == Tool
  }

  /** `after` is `before` with messages that the turn may add. */
  predicate Adds(l: Limits, turnId: string, before: seq<Message>, after: seq<Message>) {
    before <= after && Bounded(l, after[|before|..]) && Own(turnId, after[|before|..])
  }

  /** What the opening save appends to the transcript that was loaded. */
  ghost function OpeningMessages(t: Turn, loaded: seq<Message>): seq<Message> {
    Recovery(loaded) + [UserMessage(t.prompt, t.turnId)]
  }

  /** The turn's transcript only moves with a save, and its opening only with the opening save. */
  ghost predicate Appends(l: Limits, t: Turn, o: Outcome) {
    && o.turn.turnId == t.turnId && o.turn.sessionId == t.sessionId && o.turn.prompt == t.prompt
    && (!o.saved && !t.phase.Loading? ==> o.turn.session.messages == t.session.messages)
    && (!o.saved && t.phase.Loading? ==>
          o.turn.session == t.session || (t.sessionId in o.sessions && o.turn.session == o.sessions[t.sessionId]))
    && (o.saved ==> Adds(l, t.turnId, t.session.messages, o.turn.session.messages))
    && (|| o.turn.opening == t.opening
        || (&& t.phase.Opening? && o.saved
            && o.turn.opening == o.turn.session.messages == t.session.messages + OpeningMessages(t, t.session.messages)))
  }

  lemma AttemptAdds(l: Limits, t: Turn, sessions: Sessions, ms: seq<Message>, busy: bool)
    requires Bounded(l, ms) && Own(t.turnId, ms)
    ensures var o := Attempt(t, sessions, ms, busy);
            o.Some? ==> && o.value.saved && o.value.turn == t.(session := o.value.turn.session)
                        && o.value.turn.session.messages == t.session.messages + ms
                        && Adds(l, t.turnId, t.session.messages, o.value.turn.session.messages)
  {
    assert (t.session.messages + ms)[|t.session.messages|..] == ms;
  }

  lemma {:induction false} RecoveriesAreAnswers(l: Limits, turnId: string, keys: seq<(string, string)>,
                                                pending: map<(string, string), ToolCall>)
    requires forall k <- keys :: k in pending
    ensures Bounded(l, Recoveries(keys, pending)) && Own(turnId, Recoveries(keys, pending))
    ensures forall m <- Recoveries(keys, pending) :: m.role == Tool
  {
    if keys != [] {
      RecoveriesAreAnswers(l, turnId, keys[..|keys| - 1], pending);
    }
  }

  lemma RecoveryIsAnswers(l: Limits, turnId: string, ms: seq<Message>)
    ensures Bounded(l, Recovery(ms)) && Own(turnId, Recovery(ms)) && forall m <- Recovery(ms) :: m.role == Tool
  {
    CallOrder.SortedIsOrderedEnumeration(Pending(ms).Keys);
    RecoveriesAreAnswers(l, turnId, CallOrder.Sorted(Pending(ms).Keys), Pending(ms));
  }

  lemma OpenAppends(l: Limits, t: Turn, sessions: Sessions, busy: bool)
    requires t.phase.Opening?
    ensures Appends(l, t, Open(t, sessions, busy))
  {
    RecoveryIsAnswers(l, t.turnId, t.session.messages);
    hide Recovery, Attempt, Adds;
    AttemptAdds(l, t, sessions, OpeningMessages(t, t.session.messages), busy);
  }

  lemma PartialAppends(l: Limits, t: Turn, sessions: Sessions, busy: bool)
    ensures t.phase.Persisting? ==> Appends(l, t, Persist(t, sessions, busy))
    ensures t.phase.Closing? ==> Appends(l, t, Shut(t, sessions, busy))
  {
    hide Concat, Attempt, Adds, OpeningMessages;
    AttemptAdds(l, t, sessions, [AssistantMessage(Concat(t.buffer), t.turnId, [])], busy);
  }

  lemma SaveReplyAppends(l: Limits, t: Turn, sessions: Sessions, busy: bool)
    requires t.phase.SavingReply? && |t.calls| <= l.maxCalls
    ensures Appends(l, t, SaveReply(t, sessions, busy))
  {
    hide Concat, Attempt, Adds, OpeningMessages;
    AttemptAdds(l, t, sessions, [AssistantMessage(Concat(t.buffer), t.turnId, t.calls)], busy);
  }

  lemma SaveAnswerAppends(l: Limits, t: Turn, sessions: Sessions, busy: bool)
    requires t.next < |t.calls|
    ensures t.phase.SavingResult? ==> Appends(l, t, SaveResult(t, sessions, busy))
    ensures t.phase.SavingFailure? ==> Appends(l, t, SaveFailure(t, sessions, busy))
  {
    hide Attempt, Adds, OpeningMessages;
    if t.phase.SavingResult? || t.phase.SavingFailure? {
      AttemptAdds(l, t, sessions, [ToolMessage(t.phase.content, t.turnId, t.calls[t.next])], busy);
    }
  }

  lemma SavingAppends(l: Limits, t: Turn, sessions: Sessions, busy: bool)
    requires !t.phase.Opening? && !Silent(t.phase) && !t.phase.Streaming? && !t.phase.Running?
    requires t.phase.SavingReply? ==> |t.calls| <= l.maxCalls
    ensures Appends(l, t, Operate(t, sessions, busy))
  {
    hide Adds, OpeningMessages, Persist, Shut, SaveReply, SaveResult, SaveFailure;
    PartialAppends(l, t, sessions, busy);
    if t.phase.SavingReply? {
      SaveReplyAppends(l, t, sessions, busy);
    } else if (t.phase.SavingResult? || t.phase.SavingFailure?) && t.next < |t.calls| {
      SaveAnswerAppends(l, t, sessions, busy);
    }
  }

  lemma StreamAppends(l: Limits, t: Turn, i: Input, sessions: Sessions)
    requires t.phase.Streaming?
    ensures Appends(l, t, Quiet(Stream(l, t, i), sessions))
  {
    hide Adds, OpeningMessages, DistinctCalls;
  }

  lemma ExecuteAppends(l: Limits, t: Turn, i: Input, sessions: Sessions)
    requires t.phase.Running?
    ensures Appends(l, t, Quiet(Execute(t, i), sessions))
  {
    hide Adds, OpeningMessages;
  }

  lemma ContinueAppends(l: Limits, t: Turn, sessions: Sessions)
    requires Silent(t.phase)
    ensures Appends(l, t, Quiet(Continue(l, t), sessions))
  {
    hide Adds, OpeningMessages;
  }

  lemma StepAppends(l: Limits, t: Turn, sessions: Sessions, i: Input)
    requires BudgetOk(l, t)
    ensures Appends(l, t, TurnStep(l, t, sessions, i))
  {
    hide Adds, OpeningMessages, Stream, Execute, Continue, Open, Concat;
    if t.phase.Streaming? {
      StreamAppends(l, t, i, sessions);
    } else if t.phase.Running? {
      ExecuteAppends(l, t, i, sessions);
    } else if i.Go? && Silent(t.phase) {
      ContinueAppends(l, t, sessions);
    } else if !i.Go? {
    } else if t.phase.Opening? {
      OpenAppends(l, t, sessions, i.busy);
    } else {
      hide Operate;
      SavingAppends(l, t, sessions, i.busy);
    }
  }

  // ----------------------------------------------------- interrupted calls

  lemma {:induction false} FewCallIds(calls: seq<ToolCall>)
    ensures |CallIds(calls)| <= |calls|
  {
    if calls == [] {
      assert CallIds(calls) == {};
    } else {
      var init, last := calls[..|calls| - 1], calls[|calls| - 1];
      FewCallIds(init);
      assert calls == init + [last];
      assert CallIds(calls) == CallIds(init) + {last.callId};
    }
  }

  /** What a transcript leaves open was asked for by one message. */
  lemma {:induction false} OpenCallsAreFew(l: Limits, ms: seq<Message>)
    requires WellFormed(ms) && Bounded(l, ms)
    ensures |Parse(ms).open| <= l.maxCalls
  {
    if ms != [] {
      var init, last := ms[..|ms| - 1], ms[|ms| - 1];
      assert last in ms && forall m <- init :: m in ms;
      OpenCallsAreFew(l, init);
      hide Parse, CallIds;
      assert Parse(ms) == Read(Parse(init), last) by { ParseAppend(init, last); assert init + [last] == ms; }
      FewCallIds(last.toolCalls);
      if last.role == Tool {
        ShrinkingIsFew(Parse(init).open, last.toolCallId);
      }
    }
  }

  lemma ShrinkingIsFew(open: set<string>, id: Option<string>)
    ensures id.Some? ==> |open - {id.value}| <= |open|
  {
    if id.Some? && id.value in open {
      assert open == (open - {id.value}) + {id.value};
    } else if id.Some? {
      assert open - {id.value} == open;
    }
  }

  lemma RecoveryIsFew(l: Limits, ms: seq<Message>)
    requires WellFormed(ms) && Bounded(l, ms)
    ensures |Recovery(ms)| <= l.maxCalls
  {
    OpenCallsAreFew(l, ms);
    RecoveryClosesTranscript(ms);
  }

  // -------------------------------------------------------------- invariants

  /** `ms` continues the turn's own transcript, and what follows under its name only answers its calls. */
  predicate Continues(t: Turn, ms: seq<Message>) {
    && t.session.messages <= ms
    && forall k :: |t.session.messages| <= k < |ms| && ms[k].turnId == t.turnId ==> ms[k].role == Tool
  }

  /** Once a turn has a transcript, the stored one continues it. */
  ghost predicate Stored(t: Turn, sessions: Sessions) {
    t.session.messages != [] ==> t.sessionId in sessions && Continues(t, sessions[t.sessionId].messages)
  }

  /** The opening save found `n` messages of other turns and answered no more calls than one turn may make. */
  ghost predicate OpenedOn(l: Limits, t: Turn, n: int) {
    && 0 <= n <= |t.opening|
    && t.opening == t.opening[..n] + OpeningMessages(t, t.opening[..n])
    && |Recovery(t.opening[..n])| <= l.maxCalls
    && forall k :: 0 <= k < n ==> t.opening[k].turnId != t.turnId
  }

  /** Since its opening the turn has added messages of its own. */
  predicate GrowsOwn(t: Turn) {
    t.opening <= t.session.messages && Own(t.turnId, t.session.messages[|t.opening|..])
  }

  ghost predicate OpeningOk(l: Limits, t: Turn) {
    t.opening != [] ==> GrowsOwn(t) && exists n :: OpenedOn(l, t, n)
  }

  ghost predicate StoreKept(l: Limits, w: World) {
    && (forall id <- w.sessions :: Bounded(l, w.sessions[id].messages))
    && (forall t <- w.turns :: Stored(t, w.sessions) && OpeningOk(l, t))
  }

  // ------------------------------------------------------------- one step

  lemma OtherStaysStored(l: Limits, q: Turn, t: Turn, before: Sessions, after: Sessions)
    requires Stored(q, before) && q.turnId != t.turnId
    requires Live(t) && Agrees(t, before) && t.session.id == t.sessionId && SavedBy(t, before, after)
    requires Adds(l, t.turnId, t.session.messages, after[t.sessionId].messages)
    ensures Stored(q, after)
  {
    if q.session.messages != [] && q.sessionId == t.sessionId {
      var base, ms := before[t.sessionId].messages, after[t.sessionId].messages;
      assert base == t.session.messages;
      forall k | |q.session.messages| <= k < |ms| && ms[k].turnId == q.turnId
        ensures ms[k].role == Tool
      {
        if k < |base| {
          assert ms[k] == base[k];
        } else {
          assert ms[k] == ms[|base|..][k - |base|];
        }
      }
    }
  }

  lemma MoverStaysStored(l: Limits, t: Turn, sessions: Sessions, admitted: set<string>, o: Outcome)
    requires Good(t, sessions, admitted, o) && Appends(l, t, o) && Stored(t, sessions)
    ensures Stored(o.turn, o.sessions)
  {
    hide Parse, Recovery, TurnOk, StoreOk, OpeningMessages;
  }

  lemma MoverStaysOpened(l: Limits, t: Turn, sessions: Sessions, admitted: set<string>, o: Outcome)
    requires Appends(l, t, o) && OpeningOk(l, t) && TurnOk(t, admitted)
    requires t.phase.Opening? ==> Bounded(l, t.session.messages)
    requires t.phase.Loading? ==> t.opening == []
    ensures OpeningOk(l, o.turn)
  {
    hide Parse, Recovery;
    if o.turn.opening != [] {
      if o.turn.opening == t.opening {
        OwnMore(l, t, o);
        var n :| OpenedOn(l, t, n);
        assert OpenedOn(l, o.turn, n);
      } else {
        RecoveryIsFew(l, t.session.messages);
        SeenAreTurns(t.session.messages);
        var n := |t.session.messages|;
        assert o.turn.opening[..n] == t.session.messages;
        assert OpenedOn(l, o.turn, n);
        assert o.turn.session.messages[|o.turn.opening|..] == [];
      }
    }
  }

  lemma OwnMore(l: Limits, t: Turn, o: Outcome)
    requires Appends(l, t, o) && !t.phase.Loading? && GrowsOwn(t) && o.turn.opening == t.opening
    ensures GrowsOwn(o.turn)
  {
    hide Recovery, Bounded;
    var n, ms, ms' := |t.opening|, t.session.messages, o.turn.session.messages;
    if o.saved {
      assert ms'[n..] == ms[n..] + ms'[|ms|..];
    }
  }

  lemma SavedIsBounded(l: Limits, t: Turn, before: Sessions, after: Sessions)
    requires forall id <- before :: Bounded(l, before[id].messages)
    requires Live(t) && Agrees(t, before) && t.session.id == t.sessionId && SavedBy(t, before, after)
    requires Adds(l, t.turnId, t.session.messages, after[t.sessionId].messages)
    ensures forall id <- after :: Bounded(l, after[id].messages)
  {
    var base, ms := before[t.sessionId].messages, after[t.sessionId].messages;
    assert ms == base + ms[|base|..];
  }

  lemma AdvanceKept(l: Limits, w: World, p: nat, i: Input)
    requires Inv(w) && StoreKept(l, w) && p < |w.turns| && BudgetOk(l, w.turns[p])
    ensures StoreKept(l, Do(l, w, Advance(p, i)))
  {
    var t := w.turns[p];
    var o := TurnStep(l, t, w.sessions, i);
    var w' := Do(l, w, Advance(p, i));
    hide Adds, OpeningOk, Bounded, Parse, Recovery, TurnStep, StoreOk, SavedBy, Stored, BudgetOk, TurnOk;
    assert t in w.turns;
    StepAppends(l, t, w.sessions, i);
    StepGood(l, t, w.sessions, i, w.admitted);
    MoverStaysStored(l, t, w.sessions, w.admitted, o);
    OpeningIsBounded(l, t, w.sessions);
    MoverStaysOpened(l, t, w.sessions, w.admitted, o);
    if o.saved {
      SavedIsBounded(l, t, w.sessions, o.sessions);
    }
    forall k | 0 <= k < |w'.turns|
      ensures Stored(w'.turns[k], w'.sessions) && OpeningOk(l, w'.turns[k])
    {
      if k != p {
        assert w.turns[k] in w.turns && w.turns[k].turnId != t.turnId;
        if o.saved {
          OtherStaysStored(l, w.turns[k], t, w.sessions, o.sessions);
        }
      }
    }
  }

  lemma OpeningIsBounded(l: Limits, t: Turn, sessions: Sessions)
    requires Stored(t, sessions) && forall id <- sessions :: Bounded(l, sessions[id].messages)
    ensures Bounded(l, t.session.messages)
  {
    if t.session.messages != [] {
      var ms := sessions[t.sessionId].messages;
      assert forall m <- t.session.messages :: m in ms;
    }
  }

  lemma EnvironmentKept(l: Limits, w: World, a: Action)
    requires Inv(w) && StoreKept(l, w) && !a.Advance?
    ensures StoreKept(l, Do(l, w, a))
  {
    hide Recovery;
    match a
    case Cancel(p) => if p < |w.turns| { TurnStaysKept(l, w, p, w.turns[p].(cancelled := true)); }
    case Close(p) => if p < |w.turns| { TurnStaysKept(l, w, p, w.turns[p].(cancelled := true, phase := Closing)); }
    case Crash(p) => if p < |w.turns| { TurnStaysKept(l, w, p, w.turns[p].(phase := Gone)); }
    case _ =>
  }

  lemma TurnStaysKept(l: Limits, w: World, p: nat, t: Turn)
    requires StoreKept(l, w) && p < |w.turns| && SameButPhase(t, w.turns[p])
    ensures StoreKept(l, w.(turns := w.turns[p := t]))
  {
    hide Bounded, Recovery;
    assert w.turns[p] in w.turns;
    if t.opening != [] {
      var n :| OpenedOn(l, w.turns[p], n);
      assert OpenedOn(l, t, n);
    }
  }

  lemma {:induction false} RunKept(l: Limits, actions: seq<Action>)
    ensures StoreKept(l, Exec(l, EMPTY, actions)) && Inv(Exec(l, EMPTY, actions))
  {
    EmptyInv();
    if actions != [] {
      var init, last := actions[..|actions| - 1], actions[|actions| - 1];
      RunKept(l, init);
      RunReported(l, init);
      hide Do, StoreKept, Inv, EventsOk, TextOk, BudgetOk;
      StepKeeps(l, Exec(l, EMPTY, init), last);
      if last.Advance? {
        if last.p < |Exec(l, EMPTY, init).turns| {
          assert Exec(l, EMPTY, init).turns[last.p] in Exec(l, EMPTY, init).turns;
          AdvanceKept(l, Exec(l, EMPTY, init), last.p, last.input);
        } else {
          NoSuchTurn(l, Exec(l, EMPTY, init), last);
        }
      } else {
        EnvironmentKept(l, Exec(l, EMPTY, init), last);
      }
    }
  }

  lemma NoSuchTurn(l: Limits, w: World, a: Action)
    requires a.Advance? && a.p >= |w.turns|
    ensures Do(l, w, a) == w
  {
  }

  // ------------------------------------------------------------ main results

  /**
   * In every run the stored session continues what any turn holds of it,
   * whoever has saved since: the rest is other turns' messages and answers to
   * the turn's calls. And every later store still begins with it.
   */
  lemma TranscriptsAreStored(l: Limits, actions: seq<Action>, more: seq<Action>, p: nat)
    requires p < |Exec(l, EMPTY, actions).turns| && Exec(l, EMPTY, actions).turns[p].session.messages != []
    ensures var w := Exec(l, EMPTY, actions);
            var (t, w') := (w.turns[p], Exec(l, w, more));
            && t.sessionId in w.sessions && Continues(t, w.sessions[t.sessionId].messages)
            && t.sessionId in w'.sessions && t.session.messages <= w'.sessions[t.sessionId].messages
  {
    RunKept(l, actions);
    var w := Exec(l, EMPTY, actions);
    assert w.turns[p] in w.turns;
    RunExtends(l, w, more, w.turns[p].sessionId);
  }

  /** In every store of every run, an interrupted turn left no more calls open than one turn may make. */
  lemma InterruptedCallsAreFew(l: Limits, actions: seq<Action>, id: string)
    requires id in Exec(l, EMPTY, actions).sessions
    ensures var ms := Exec(l, EMPTY, actions).sessions[id].messages;
            WellFormed(ms) && |Parse(ms).open| == |Recovery(ms)| <= l.maxCalls
  {
    RunKept(l, actions);
    RecoveryIsFew(l, Exec(l, EMPTY, actions).sessions[id].messages);
    RecoveryClosesTranscript(Exec(l, EMPTY, actions).sessions[id].messages);
  }

  // --------------------------------------------------- the text, in the store

  /** From the start of the turn's round on, `ms` has exactly one assistant message of the turn's, with exactly this text. */
  predicate SavedOnceIn(ms: seq<Message>, t: Turn, text: string) {
    var n := |t.roundStart|;
    && n < |ms| && ms[..n] == t.roundStart
    && ms[n].role == Assistant && ms[n].content == text && ms[n].turnId == t.turnId
    && forall k :: n < k < |ms| && ms[k].turnId == t.turnId ==> ms[k].role == Tool
  }

  /** A continuation has the text once exactly when the turn's own transcript has. */
  lemma OnceInStore(t: Turn, ms: seq<Message>, text: string)
    requires Continues(t, ms) && (SavedOnce(t, text) || t.session.messages == t.roundStart)
    ensures SavedOnceIn(ms, t, text) <==> SavedOnce(t, text)
  {
    var local := t.session.messages;
    assert forall k :: 0 <= k < |local| ==> ms[k] == local[k];
    if SavedOnce(t, text) {
      assert ms[..|t.roundStart|] == local[..|t.roundStart|];
    }
  }
}
