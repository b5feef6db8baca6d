/**
 * What every run of any number of turns keeps: stored transcripts stay well
 * formed, and the compare-and-swap fences a turn out for good once another
 * turn has saved.
 */
module TurnSafety {
  import opened Options
  import opened Transcript
  import opened ModelContext
  import opened SessionStore
  import opened TurnProtocol

  // ------------------------------------------------------------- invariants

  predicate Live(t: Turn) {
    !t.phase.Loading? && !t.phase.Gone? && !t.phase.Finished?
  }

  predicate Replying(p: Phase) {
    p.YStarted? || p.RoundHead? || p.Streaming? || p.YDelta? || p.Persisting? || p.SavingReply?
  }

  predicate InTool(p: Phase) {
    p.YToolStarted? || p.Running? || p.YProgress? || p.SavingResult? || p.SavingFailure?
  }

  predicate BetweenTools(p: Phase) {
    p.NextTool? || p.YEarth? || p.YToolDone?
  }

  /** `r` is a transcript of this turn's, open exactly in the calls it still has to answer. */
  predicate OwnsReading(t: Turn, r: Reading) {
    && r.Reading? && r.turn == Some(t.turnId)
    && (t.buffer != [] ==> r.open == {})
    && (Replying(t.phase) ==> r.open == {})
    && (t.phase.SavingReply? ==> DistinctCalls(t.calls))
    && (InTool(t.phase) || BetweenTools(t.phase) ==>
          DistinctCalls(t.calls) && t.next <= |t.calls| && r.open == CallIds(t.calls[t.next..]) && t.buffer == [])
    && (InTool(t.phase) ==> t.next < |t.calls|)
  }

  ghost predicate Owns(t: Turn) {
    OwnsReading(t, Parse(t.session.messages))
  }

  ghost predicate TurnOk(t: Turn, admitted: set<string>) {
    && (t.phase.Loading? ==> t.turnId !in admitted)
    && (t.phase.Opening? ==>
          && t.turnId !in admitted
          && WellFormed(t.session.messages) && Parse(t.session.messages).seen <= admitted)
    && (Live(t) && !t.phase.Opening? ==> t.turnId in admitted && Owns(t))
    && (Live(t) ==> NoImages(t.session.messages))
  }

  /** The local copy is the stored session, or an older one. */
  ghost predicate Agrees(t: Turn, sessions: Sessions) {
    Live(t) ==>
      && t.session.id == t.sessionId && t.sessionId in sessions && sessions[t.sessionId].id == t.sessionId
      && t.session.revision <= sessions[t.sessionId].revision
      && (t.session.revision == sessions[t.sessionId].revision ==>
            && t.session.messages == sessions[t.sessionId].messages
            && sessions[t.sessionId].investigationIds <= t.session.investigationIds)
  }

  ghost predicate StoreOk(sessions: Sessions, admitted: set<string>) {
    forall id <- sessions ::
      && sessions[id].id == id && sessions[id].revision >= 1
      && WellFormed(sessions[id].messages) && NoImages(sessions[id].messages)
      && Parse(sessions[id].messages).seen <= admitted
  }

  function TurnIds(turns: seq<Turn>): set<string> {
    set t | t in turns :: t.turnId
  }

  ghost predicate Inv(w: World) {
    && w.admitted <= TurnIds(w.turns)
    && StoreOk(w.sessions, w.admitted)
    && (forall t <- w.turns :: TurnOk(t, w.admitted) && Agrees(t, w.sessions))
    && (forall i, j :: 0 <= i < j < |w.turns| ==> w.turns[i].turnId != w.turns[j].turnId)
  }

  /** From one store to a later one, a session is only extended. */
  ghost predicate Extends(before: Session, after: Session) {
    && before.id == after.id
    && before.revision <= after.revision
    && before.messages <= after.messages
    && before.investigationIds <= after.investigationIds
  }

  /** One save by `t`: its session gains one revision, every other session is untouched. */
  ghost predicate SavedBy(t: Turn, before: Sessions, after: Sessions) {
    && t.session.id in before && after.Keys == before.Keys
    && t.session.revision == before[t.session.id].revision
    && after[t.session.id].revision == before[t.session.id].revision + 1
    && Extends(before[t.session.id], after[t.session.id])
    && (forall id <- before :: id != t.session.id ==> after[id] == before[id])
  }

  // -------------------------------------------------------------- one save

  lemma AttemptSaves(t: Turn, sessions: Sessions, ms: seq<Message>, busy: bool)
    requires Live(t) && Agrees(t, sessions)
    ensures var o := Attempt(t, sessions, ms, busy);
            o.Some? ==>
              && o.value.saved && o.value.turn == t.(session := o.value.turn.session)
              && SavedBy(t, sessions, o.value.sessions)
              && o.value.turn.session == o.value.sessions[t.sessionId]
              && o.value.turn.session.messages == t.session.messages + ms
  {
  }

  lemma SaveKeepsStore(t: Turn, sessions: Sessions, ms: seq<Message>, busy: bool, admitted: set<string>)
    requires Live(t) && Agrees(t, sessions) && StoreOk(sessions, admitted)
    requires NoImages(t.session.messages + ms)
    requires WellFormed(t.session.messages + ms) && Parse(t.session.messages + ms).seen <= admitted + {t.turnId}
    ensures var o := Attempt(t, sessions, ms, busy);
            o.Some? ==> StoreOk(o.value.sessions, admitted + {t.turnId})
  {
    AttemptSaves(t, sessions, ms, busy);
  }

  // ---------------------------------------------------------- the segments

  /** What a step must establish for the turn that takes it. */
  ghost predicate Good(t: Turn, sessions: Sessions, admitted: set<string>, o: Outcome) {
    var admitted' := if o.saved then admitted + {t.turnId} else admitted;
    && o.turn.turnId == t.turnId && o.turn.sessionId == t.sessionId
    && StoreOk(o.sessions, admitted')
    && TurnOk(o.turn, admitted')
    && Agrees(o.turn, o.sessions)
    && (!o.saved ==> o.sessions == sessions)
    && (!o.saved && !t.phase.Loading? ==> o.turn.session.revision == t.session.revision)
    && (o.turn.phase.Loading? ==> t.phase.Loading?)
    && (o.saved ==> Live(t) && SavedBy(t, sessions, o.sessions) && t.session.id == t.sessionId &&
                     o.turn.session == o.sessions[t.sessionId])
  }

  lemma {:induction false} RecoveryHasNoImages(keys: seq<(string, string)>, pending: map<(string, string), ToolCall>)
    requires forall k <- keys :: k in pending
    ensures NoImages(Recoveries(keys, pending))
  {
    if keys != [] {
      RecoveryHasNoImages(keys[..|keys| - 1], pending);
    }
  }

  /** Recovery and the user message start a turn of this one's own, with nothing open. */
  lemma OpenTranscript(t: Turn, ms: seq<Message>, admitted: set<string>)
    requires t.phase.Opening? && TurnOk(t, admitted)
    requires ms == Recovery(t.session.messages) + [UserMessage(t.prompt, t.turnId)]
    ensures var r := Parse(t.session.messages + ms);
            && NoImages(t.session.messages + ms)
            && r.Reading? && r.turn == Some(t.turnId) && r.open == {} && r.seen <= admitted + {t.turnId}
  {
    var base, user := t.session.messages, UserMessage(t.prompt, t.turnId);
    RecoveryClosesTranscript(base);
    ParseAppend(base + Recovery(base), user);
    assert base + ms == base + Recovery(base) + [user];
    CallOrder.SortedIsOrderedEnumeration(Pending(base).Keys);
    RecoveryHasNoImages(CallOrder.Sorted(Pending(base).Keys), Pending(base));
  }

  lemma OpenGood(t: Turn, sessions: Sessions, busy: bool, admitted: set<string>)
    requires t.phase.Opening? && TurnOk(t, admitted) && Agrees(t, sessions) && StoreOk(sessions, admitted)
    ensures Good(t, sessions, admitted, Open(t, sessions, busy))
  {
    hide Recovery, Parse;
    var ms := Recovery(t.session.messages) + [UserMessage(t.prompt, t.turnId)];
    OpenTranscript(t, ms, admitted);
    SaveKeepsStore(t, sessions, ms, busy, admitted);
    AttemptSaves(t, sessions, ms, busy);
  }

  /** Appending plain assistant text to a transcript with no open call. */
  lemma PartialGood(t: Turn, sessions: Sessions, busy: bool, admitted: set<string>)
    requires Live(t) && t.turnId in admitted && Owns(t) && NoImages(t.session.messages)
    requires Agrees(t, sessions) && StoreOk(sessions, admitted)
    requires Parse(t.session.messages).open == {}
    ensures var m := AssistantMessage(Concat(t.buffer), t.turnId, []);
            var o := Attempt(t, sessions, [m], busy);
            && Parse(t.session.messages + [m]) == Parse(t.session.messages)
            && (o.Some? ==>
                  && StoreOk(o.value.sessions, admitted + {t.turnId})
                  && SavedBy(t, sessions, o.value.sessions)
                  && o.value.turn == t.(session := o.value.sessions[t.sessionId])
                  && o.value.turn.session.messages == t.session.messages + [m])
  {
    var m := AssistantMessage(Concat(t.buffer), t.turnId, []);
    ParseAppend(t.session.messages, m);
    assert CallIds([]) == {};
    SeenWithin(t, sessions, admitted);
    if Attempt(t, sessions, [m], busy).Some? {
      SaveKeepsStore(t, sessions, [m], busy, admitted);
    }
    AttemptSaves(t, sessions, [m], busy);
  }

  lemma SeenWithin(t: Turn, sessions: Sessions, admitted: set<string>)
    requires Live(t) && Agrees(t, sessions) && StoreOk(sessions, admitted)
    ensures t.session.revision == sessions[t.sessionId].revision ==>
              Parse(t.session.messages).Reading? && Parse(t.session.messages).seen <= admitted
  {
  }

  /** Same turn, same local transcript; only linked investigations may have been added. */
  predicate SameTurn(t: Turn, t': Turn) {
    && t'.turnId == t.turnId && t'.sessionId == t.sessionId
    && t'.session == t.session.(investigationIds := t'.session.investigationIds)
    && t.session.investigationIds <= t'.session.investigationIds
    && !t'.phase.Opening? && !t'.phase.Loading?
  }

  /** A step that leaves store and local messages alone only has to keep ownership. */
  lemma QuietGood(t: Turn, t': Turn, sessions: Sessions, admitted: set<string>)
    requires Live(t) && !t.phase.Opening? && SameTurn(t, t')
    requires TurnOk(t, admitted) && Agrees(t, sessions) && StoreOk(sessions, admitted)
    requires Live(t') ==> OwnsReading(t', Parse(t.session.messages))
    ensures Good(t, sessions, admitted, Quiet(t', sessions))
  {
  }

  /** A step that saved. */
  lemma SavedGood(t: Turn, sessions: Sessions, admitted: set<string>, o: Outcome)
    requires Live(t) && Agrees(t, sessions) && t.turnId in admitted
    requires StoreOk(o.sessions, admitted) && SavedBy(t, sessions, o.sessions)
    requires o.saved && o.turn.turnId == t.turnId && o.turn.sessionId == t.sessionId
    requires o.turn.session == o.sessions[t.session.id]
    requires !o.turn.phase.Opening? && !o.turn.phase.Loading?
    requires Live(o.turn) ==> OwnsReading(o.turn, Parse(o.turn.session.messages))
    ensures Good(t, sessions, admitted, o)
  {
    assert admitted + {t.turnId} == admitted;
  }

  lemma PersistGood(t: Turn, sessions: Sessions, busy: bool, admitted: set<string>)
    requires t.phase.Persisting? && TurnOk(t, admitted) && Agrees(t, sessions) && StoreOk(sessions, admitted)
    ensures Good(t, sessions, admitted, Persist(t, sessions, busy))
  {
    hide Good, SavedBy, StoreOk, Concat, Parse;
    var o := Persist(t, sessions, busy);
    PartialGood(t, sessions, busy, admitted);
    assert admitted + {t.turnId} == admitted;
    if o.saved {
      SavedGood(t, sessions, admitted, o);
    } else {
      QuietGood(t, o.turn, sessions, admitted);
    }
  }

  lemma ShutGood(t: Turn, sessions: Sessions, busy: bool, admitted: set<string>)
    requires t.phase.Closing? && TurnOk(t, admitted) && Agrees(t, sessions) && StoreOk(sessions, admitted)
    ensures Good(t, sessions, admitted, Shut(t, sessions, busy))
  {
    var o := Shut(t, sessions, busy);
    if Concat(t.buffer) != "" {
      PartialGood(t, sessions, busy, admitted);
    }
    assert admitted + {t.turnId} == admitted;
    if o.saved {
      SavedGood(t, sessions, admitted, o);
    } else {
      QuietGood(t, o.turn, sessions, admitted);
    }
  }

  lemma AfterReplyOwns(t: Turn, before: Reading, r: Reading)
    requires t.phase.SavingReply? && OwnsReading(t, before)
    requires r == before.(open := CallIds(t.calls))
    ensures OwnsReading(AfterReply(t), r)
  {
    assert t.calls[0..] == t.calls;
  }

  lemma SaveReplyGood(t: Turn, sessions: Sessions, busy: bool, admitted: set<string>)
    requires t.phase.SavingReply? && TurnOk(t, admitted) && Agrees(t, sessions) && StoreOk(sessions, admitted)
    ensures Good(t, sessions, admitted, SaveReply(t, sessions, busy))
  {
    var m := AssistantMessage(Concat(t.buffer), t.turnId, t.calls);
    var a := Attempt(t, sessions, [m], busy);
    if a.Some? {
      hide Good, SavedBy, StoreOk, Concat, CallIds;
      ParseAppend(t.session.messages, m);
      AttemptSaves(t, sessions, [m], busy);
      SaveKeepsStore(t, sessions, [m], busy, admitted);
      assert admitted + {t.turnId} == admitted;
      AfterReplyOwns(a.value.turn, Parse(t.session.messages), Parse(a.value.turn.session.messages));
      SavedGood(t, sessions, admitted, a.value.(turn := AfterReply(a.value.turn)));
    } else {
      QuietGood(t, t.(phase := Gone), sessions, admitted);
    }
  }

  /** Answering the next call of the reply closes it and leaves the later ones open. */
  lemma AnswerNext(t: Turn, content: string)
    requires Owns(t) && InTool(t.phase)
    ensures var ms := t.session.messages + [ToolMessage(content, t.turnId, t.calls[t.next])];
            Parse(ms) == Parse(t.session.messages).(open := CallIds(t.calls[t.next + 1..]))
  {
    ParseAppend(t.session.messages, ToolMessage(content, t.turnId, t.calls[t.next]));
    var rest, c := t.calls[t.next + 1..], t.calls[t.next];
    assert t.calls[t.next..] == [c] + rest;
    assert CallIds([c] + rest) == {c.callId} + CallIds(rest);
    assert c.callId !in CallIds(rest) by {
      forall x <- rest ensures x.callId != c.callId {
        var k :| 0 <= k < |rest| && rest[k] == x;
        assert rest[k] == t.calls[t.next + 1 + k];
      }
    }
  }

  lemma SaveAnswerGood(t: Turn, sessions: Sessions, content: string, busy: bool, admitted: set<string>)
    requires InTool(t.phase) && TurnOk(t, admitted) && Agrees(t, sessions) && StoreOk(sessions, admitted)
    ensures var o := Attempt(t, sessions, [ToolMessage(content, t.turnId, t.calls[t.next])], busy);
            o.Some? ==>
              && StoreOk(o.value.sessions, admitted)
              && SavedBy(t, sessions, o.value.sessions)
              && o.value.turn == t.(session := o.value.sessions[t.sessionId])
              && Parse(o.value.turn.session.messages) ==
                 Parse(t.session.messages).(open := CallIds(t.calls[t.next + 1..]))
  {
    var m := ToolMessage(content, t.turnId, t.calls[t.next]);
    AnswerNext(t, content);
    AttemptSaves(t, sessions, [m], busy);
    if Attempt(t, sessions, [m], busy).Some? {
      SaveKeepsStore(t, sessions, [m], busy, admitted);
    }
    assert admitted + {t.turnId} == admitted;
  }

  lemma AnnounceOwns(t: Turn, call: ToolCall, r: Reading)
    requires OwnsReading(t.(phase := NextTool), r)
    ensures OwnsReading(Announce(t, call), r)
    ensures Announce(t, call).session == t.session && Announce(t, call).turnId == t.turnId
    ensures Announce(t, call).sessionId == t.sessionId
    ensures !Announce(t, call).phase.Opening? && !Announce(t, call).phase.Loading?
  {
  }

  lemma SaveResultGood(t: Turn, sessions: Sessions, busy: bool, admitted: set<string>)
    requires t.phase.SavingResult? && TurnOk(t, admitted) && Agrees(t, sessions) && StoreOk(sessions, admitted)
    ensures Good(t, sessions, admitted, SaveResult(t, sessions, busy))
  {
    var call := t.calls[t.next];
    var a := Attempt(t, sessions, [ToolMessage(t.phase.content, t.turnId, call)], busy);
    hide Good, SavedBy, StoreOk, Parse, Announce, Attempt, DistinctCalls, CallIds;
    SaveAnswerGood(t, sessions, t.phase.content, busy, admitted);
    AttemptSaves(t, sessions, [ToolMessage(t.phase.content, t.turnId, call)], busy);
    if a.Some? {
      var saved := a.value.turn.(next := t.next + 1);
      AnnounceOwns(saved, call, Parse(saved.session.messages));
      SavedGood(t, sessions, admitted, a.value.(turn := Announce(saved, call)));
    } else {
      QuietGood(t, t.(phase := SavingFailure(STORE_ERROR)), sessions, admitted);
    }
  }

  lemma SaveFailureGood(t: Turn, sessions: Sessions, busy: bool, admitted: set<string>)
    requires t.phase.SavingFailure? && TurnOk(t, admitted) && Agrees(t, sessions) && StoreOk(sessions, admitted)
    ensures Good(t, sessions, admitted, SaveFailure(t, sessions, busy))
  {
    var o := SaveFailure(t, sessions, busy);
    SaveAnswerGood(t, sessions, t.phase.content, busy, admitted);
    if o.saved {
      SavedGood(t, sessions, admitted, o);
    } else {
      QuietGood(t, o.turn, sessions, admitted);
    }
  }

  /** Steps that touch neither the store nor the local messages keep ownership. */
  lemma StreamOwns(l: Limits, t: Turn, i: Input, r: Reading)
    requires t.phase.Streaming? && OwnsReading(t, r)
    ensures OwnsReading(Stream(l, t, i), r) && SameTurn(t, Stream(l, t, i))
  {
    hide CallIds;
  }

  lemma ExecuteOwns(t: Turn, i: Input, r: Reading)
    requires t.phase.Running? && OwnsReading(t, r)
    ensures OwnsReading(Execute(t, i), r) && SameTurn(t, Execute(t, i))
  {
  }

  lemma BeginRoundOwns(l: Limits, t: Turn, r: Reading)
    requires t.phase.RoundHead? && OwnsReading(t, r)
    ensures OwnsReading(BeginRound(l, t), r) && SameTurn(t, BeginRound(l, t))
  {
  }

  lemma StartToolOwns(t: Turn, r: Reading)
    requires t.phase.NextTool? && OwnsReading(t, r)
    ensures OwnsReading(StartTool(t), r) && SameTurn(t, StartTool(t))
  {
    if t.next == |t.calls| {
      assert CallIds(t.calls[t.next..]) == {};
    }
  }

  lemma ContinueOwns(l: Limits, t: Turn, r: Reading)
    requires Silent(t.phase) && OwnsReading(t, r)
    ensures OwnsReading(Continue(l, t), r) && SameTurn(t, Continue(l, t))
  {
    if t.phase.RoundHead? {
      BeginRoundOwns(l, t, r);
    } else if t.phase.NextTool? {
      StartToolOwns(t, r);
    }
  }

  lemma OperateGood(t: Turn, sessions: Sessions, busy: bool, admitted: set<string>)
    requires TurnOk(t, admitted) && Agrees(t, sessions) && StoreOk(sessions, admitted)
    requires !Silent(t.phase) && !t.phase.Streaming? && !t.phase.Running?
    ensures Good(t, sessions, admitted, Operate(t, sessions, busy))
  {
    match t.phase
    case Loading => LoadGood(t, sessions, admitted);
    case Opening => OpenGood(t, sessions, busy, admitted);
    case Persisting(_, _) => PersistGood(t, sessions, busy, admitted);
    case SavingReply => SaveReplyGood(t, sessions, busy, admitted);
    case SavingResult(_) => SaveResultGood(t, sessions, busy, admitted);
    case SavingFailure(_) => SaveFailureGood(t, sessions, busy, admitted);
    case Closing => ShutGood(t, sessions, busy, admitted);
    case Finished =>
    case Gone =>
  }

  lemma StutterGood(t: Turn, sessions: Sessions, admitted: set<string>)
    requires TurnOk(t, admitted) && Agrees(t, sessions) && StoreOk(sessions, admitted)
    ensures Good(t, sessions, admitted, Quiet(t, sessions))
  {
  }

  lemma LoadGood(t: Turn, sessions: Sessions, admitted: set<string>)
    requires t.phase.Loading? && TurnOk(t, admitted) && StoreOk(sessions, admitted)
    ensures Good(t, sessions, admitted, Load(t, sessions))
  {
  }

  /** One step of one turn keeps the store, the turn and their agreement. */
  lemma StepGood(l: Limits, t: Turn, sessions: Sessions, i: Input, admitted: set<string>)
    requires TurnOk(t, admitted) && Agrees(t, sessions) && StoreOk(sessions, admitted)
    ensures Good(t, sessions, admitted, TurnStep(l, t, sessions, i))
  {
    var r := Parse(t.session.messages);
    if t.phase.Streaming? {
      StreamOwns(l, t, i, r);
      QuietGood(t, Stream(l, t, i), sessions, admitted);
    } else if t.phase.Running? {
      ExecuteOwns(t, i, r);
      QuietGood(t, Execute(t, i), sessions, admitted);
    } else if i.Go? && Silent(t.phase) {
      ContinueOwns(l, t, r);
      QuietGood(t, Continue(l, t), sessions, admitted);
    } else if i.Go? {
      OperateGood(t, sessions, i.busy, admitted);
    } else {
      StutterGood(t, sessions, admitted);
    }
  }
}
