/**
 * Whole runs: any number of turns and services on one store, with crashes,
 * cancellations, closes and store failures between any two steps.
 */
module TurnRuns {
  import opened Options
  import opened Transcript
  import opened ModelContext
  import opened SessionStore
  import opened TurnProtocol
  import opened TurnSafety

  // ---------------------------------------------------------- one world step

  /** Another turn keeps its standing when `t` saves. */
  lemma OthersKeep(q: Turn, t: Turn, before: Sessions, after: Sessions, admitted: set<string>)
    requires TurnOk(q, admitted) && Agrees(q, before)
    requires SavedBy(t, before, after) && q.turnId != t.turnId
    ensures TurnOk(q, admitted + {t.turnId}) && Agrees(q, after)
  {
  }

  lemma TurnIdsUpdate(turns: seq<Turn>, p: nat, t: Turn)
    requires p < |turns| && t.turnId == turns[p].turnId
    ensures TurnIds(turns[p := t]) == TurnIds(turns)
  {
    forall q <- turns
      ensures q.turnId in TurnIds(turns[p := t])
    {
      var k :| 0 <= k < |turns| && turns[k] == q;
      assert turns[p := t][k].turnId == q.turnId && turns[p := t][k] in turns[p := t];
    }
  }

  lemma AdvanceKeeps(l: Limits, w: World, p: nat, i: Input)
    requires Inv(w) && p < |w.turns|
    ensures Inv(Do(l, w, Advance(p, i)))
  {
    var t := w.turns[p];
    var o := TurnStep(l, t, w.sessions, i);
    var w' := Do(l, w, Advance(p, i));
    StepGood(l, t, w.sessions, i, w.admitted);
    TurnIdsUpdate(w.turns, p, o.turn);
    assert t in w.turns;
    forall k | 0 <= k < |w'.turns|
      ensures TurnOk(w'.turns[k], w'.admitted) && Agrees(w'.turns[k], w'.sessions)
    {
      if k != p && o.saved {
        assert w.turns[k] in w.turns;
        OthersKeep(w.turns[k], t, w.sessions, o.sessions, w.admitted);
      }
    }
  }

  lemma ReplaceKeeps(w: World, p: nat, t: Turn)
    requires Inv(w) && p < |w.turns| && t.turnId == w.turns[p].turnId
    requires TurnOk(t, w.admitted) && Agrees(t, w.sessions)
    ensures Inv(w.(turns := w.turns[p := t]))
  {
    TurnIdsUpdate(w.turns, p, t);
  }

  lemma BeginKeeps(w: World, t: Turn)
    requires Inv(w) && t.phase.Loading? && Fresh(w, t.turnId)
    ensures Inv(w.(turns := w.turns + [t]))
  {
    assert t.turnId !in TurnIds(w.turns);
    assert TurnIds(w.turns) <= TurnIds(w.turns + [t]) by {
      assert forall q <- w.turns :: q in w.turns + [t];
    }
    forall q <- w.turns + [t]
      ensures TurnOk(q, w.admitted) && Agrees(q, w.sessions)
    {
      if q != t { assert q in w.turns; }
    }
  }

  lemma CreateKeeps(w: World, id: string)
    requires Inv(w) && id !in w.sessions
    ensures Inv(w.(sessions := w.sessions[id := Session(id, 1, [], {})]))
  {
  }

  lemma EnvironmentKeeps(l: Limits, w: World, a: Action)
    requires Inv(w) && !a.Advance?
    ensures Inv(Do(l, w, a))
  {
    match a {
      case CreateSession(id) =>
        if id !in w.sessions { CreateKeeps(w, id); }
      case Begin(id, sid, prompt, authorized) =>
        if Fresh(w, id) { BeginKeeps(w, NewTurn(id, sid, prompt, authorized)); }
      case Cancel(p) =>
        if p < |w.turns| { assert w.turns[p] in w.turns; ReplaceKeeps(w, p, w.turns[p].(cancelled := true)); }
      case Close(p) =>
        if p < |w.turns| && Suspended(w.turns[p].phase) {
          assert w.turns[p] in w.turns;
          ReplaceKeeps(w, p, w.turns[p].(cancelled := true, phase := Closing));
        }
      case Crash(p) =>
        if p < |w.turns| { assert w.turns[p] in w.turns; ReplaceKeeps(w, p, w.turns[p].(phase := Gone)); }
    }
  }

  lemma StepKeeps(l: Limits, w: World, a: Action)
    requires Inv(w)
    ensures Inv(Do(l, w, a))
  {
    if a.Advance? {
      if a.p < |w.turns| { AdvanceKeeps(l, w, a.p, a.input); }
    } else {
      EnvironmentKeeps(l, w, a);
    }
  }

  lemma {:induction false} RunKeeps(l: Limits, w: World, actions: seq<Action>)
    requires Inv(w)
    ensures Inv(Exec(l, w, actions))
  {
    if actions != [] {
      RunKeeps(l, w, actions[..|actions| - 1]);
      StepKeeps(l, Exec(l, w, actions[..|actions| - 1]), actions[|actions| - 1]);
    }
  }

  lemma EmptyInv()
    ensures Inv(EMPTY)
  {
  }

  // --------------------------------------------------- stored transcripts

  /**
   * Every transcript any run stores: turns in contiguous blocks, every tool
   * message the first answer to a call of its own turn, every unanswered call
   * in the newest turn; and appending its recovery leaves nothing unanswered.
   */
  lemma StoredTranscriptsAreWellFormed(l: Limits, actions: seq<Action>, id: string)
    requires id in Exec(l, EMPTY, actions).sessions
    ensures var ms := Exec(l, EMPTY, actions).sessions[id].messages;
            && TurnsAreBlocks(ms)
            && (forall j :: 0 <= j < |ms| && ms[j].role == Tool ==> IsAnswer(ms, j))
            && (forall i, c :: 0 <= i < |ms| && ms[i].role == Assistant && c in CallIds(ms[i].toolCalls) ==>
                                 Unanswered(ms, i, c) || exists j :: Answers(ms, i, j, c))
            && (forall i, c :: Unanswered(ms, i, c) ==> ms[i].turnId == ms[|ms| - 1].turnId)
            && (forall i, c :: !Unanswered(ms + Recovery(ms), i, c))
  {
    EmptyInv();
    RunKeeps(l, EMPTY, actions);
    var ms := Exec(l, EMPTY, actions).sessions[id].messages;
    WellFormedTurnsAreBlocks(ms);
    ToolMessagesAnswerOpenCalls(ms);
    CallsAreAnsweredOrOpen(ms);
    OpenCallsAreUnanswered(ms);
    RecoveryClosesTranscript(ms);
    OpenCallsAreUnanswered(ms + Recovery(ms));
  }

  // ------------------------------------------------------- model contexts

  /**
   * Whenever any turn of any run streams from its model, the context it built
   * is a closed suffix of its transcript that starts a turn, spans at most
   * `maxContext` turns and ends in the turn itself; the payload is paired.
   */
  lemma ModelAlwaysSeesClosedContext(l: Limits, actions: seq<Action>, p: nat, images: seq<string>)
    requires l.maxContext >= 1
    requires p < |Exec(l, EMPTY, actions).turns| && Exec(l, EMPTY, actions).turns[p].phase.Streaming?
    ensures var t := Exec(l, EMPTY, actions).turns[p];
            var ms := t.session.messages;
            var context := Context(ms, l.maxContext, Some(t.turnId), images);
            && (exists cut :: ContextBegins(ms, l.maxContext, Some(t.turnId), images, cut))
            && |Retained(ms, l.maxContext)| <= l.maxContext
            && WellFormed(ms) && Parse(ms).turn == Some(t.turnId) && Parse(ms).open == {}
            && Payloads(context).Some? && Unpaired(Payloads(context).value) == Some({})
  {
    EmptyInv();
    RunKeeps(l, EMPTY, actions);
    var t := Exec(l, EMPTY, actions).turns[p];
    assert t in Exec(l, EMPTY, actions).turns;
    SeenAreTurns(t.session.messages);
    ContextIsTurnSuffix(t.session.messages, l.maxContext, Some(t.turnId), images);
    ContextPayloadIsPaired(t.session.messages, l.maxContext, Some(t.turnId), images);
  }

  // -------------------------------------------------------------- fencing

  /** What one step can do to the store. */
  lemma StepSaves(l: Limits, w: World, a: Action)
    requires Inv(w)
    ensures var w' := Do(l, w, a);
            || (w'.log == w.log && w.sessions.Keys <= w'.sessions.Keys &&
                forall id <- w.sessions :: w'.sessions[id] == w.sessions[id])
            || (&& a.Advance? && a.p < |w.turns| && Live(w.turns[a.p])
                && SavedBy(w.turns[a.p], w.sessions, w'.sessions)
                && w.turns[a.p].session.id == w.turns[a.p].sessionId
                && w'.log == w.log + [Commit(w.turns[a.p].turnId, w'.sessions[w.turns[a.p].sessionId])])
  {
    if a.Advance? && a.p < |w.turns| {
      assert w.turns[a.p] in w.turns;
      StepGood(l, w.turns[a.p], w.sessions, a.input, w.admitted);
    }
  }

  /** Sessions are only ever extended. */
  lemma {:induction false} RunExtends(l: Limits, w: World, actions: seq<Action>, id: string)
    requires Inv(w) && id in w.sessions
    ensures id in Exec(l, w, actions).sessions
    ensures Extends(w.sessions[id], Exec(l, w, actions).sessions[id])
  {
    if actions != [] {
      var before := Exec(l, w, actions[..|actions| - 1]);
      RunExtends(l, w, actions[..|actions| - 1], id);
      RunKeeps(l, w, actions[..|actions| - 1]);
      StepSaves(l, before, actions[|actions| - 1]);
    }
  }

  /** The turn's copy of the session is out of date, or the turn is over. */
  ghost predicate Fenced(w: World, p: nat) {
    p < |w.turns| &&
    (w.turns[p].phase.Gone? || w.turns[p].phase.Finished? ||
     (Live(w.turns[p]) && w.turns[p].sessionId in w.sessions &&
      w.turns[p].session.revision < w.sessions[w.turns[p].sessionId].revision))
  }

  lemma FencedStep(l: Limits, w: World, a: Action, p: nat)
    requires Inv(w) && Fenced(w, p)
    ensures Fenced(Do(l, w, a), p)
    ensures Do(l, w, a).turns[p].turnId == w.turns[p].turnId
    ensures forall k :: |w.log| <= k < |Do(l, w, a).log| ==> Do(l, w, a).log[k].writer != w.turns[p].turnId
    ensures w.log <= Do(l, w, a).log
  {
    hide Parse;
    StepSaves(l, w, a);
    assert w.turns[p] in w.turns;
    if a.Advance? && a.p == p {
      StepGood(l, w.turns[p], w.sessions, a.input, w.admitted);
    }
  }

  /**
   * Once its session has moved on, a turn never writes again: not through its
   * next save, nor its error path, nor the handler of a close.
   */
  lemma {:induction false} FencedForever(l: Limits, w: World, actions: seq<Action>, p: nat)
    requires Inv(w) && Fenced(w, p)
    ensures var w' := Exec(l, w, actions);
            && Fenced(w', p) && w'.turns[p].turnId == w.turns[p].turnId
            && w.log <= w'.log
            && forall k :: |w.log| <= k < |w'.log| ==> w'.log[k].writer != w.turns[p].turnId
  {
    if actions != [] {
      FencedForever(l, w, actions[..|actions| - 1], p);
      RunKeeps(l, w, actions[..|actions| - 1]);
      FencedStep(l, Exec(l, w, actions[..|actions| - 1]), actions[|actions| - 1], p);
    }
  }

  /** A save fences every other turn that has read the session. */
  lemma SaveFencesOthers(l: Limits, w: World, a: Action, q: nat)
    requires Inv(w) && Do(l, w, a).log != w.log
    requires a.Advance? && q < |w.turns| && q != a.p && Live(w.turns[q])
    requires a.p < |w.turns| && w.turns[q].sessionId == w.turns[a.p].sessionId
    ensures Fenced(Do(l, w, a), q)
  {
    StepSaves(l, w, a);
    assert w.turns[q] in w.turns;
    assert w.turns[a.p] in w.turns;
  }
}
