/**
 * The history of successful saves over a run: revisions count them, the saved
 * transcripts form a prefix chain, and each turn's saves to a session are
 * consecutive.
 */
module SaveLog {
  import opened TurnProtocol
  import opened TurnSafety
  import opened TurnRuns

  /** How many of the saves went to session `id`. */
  function Count(log: seq<Commit>, id: string): nat {
    if log == [] then 0
    else Count(log[..|log| - 1], id) + if log[|log| - 1].session.id == id then 1 else 0
  }

  lemma CountAppend(log: seq<Commit>, c: Commit, id: string)
    ensures Count(log + [c], id) == Count(log, id) + if c.session.id == id then 1 else 0
  {
    assert (log + [c])[..|log|] == log;
  }

  lemma {:induction false} CountNone(log: seq<Commit>, id: string)
    requires forall c <- log :: c.session.id != id
    ensures Count(log, id) == 0
  {
    if log != [] {
      CountNone(log[..|log| - 1], id);
    }
  }

  ghost predicate SameSession(log: seq<Commit>, i: int, j: int) {
    0 <= i < j < |log| && log[i].session.id == log[j].session.id
  }

  /** Revisions count saves. */
  ghost predicate Numbered(w: World) {
    && (forall id <- w.sessions :: w.sessions[id].revision == 1 + Count(w.log, id))
    && (forall i :: 0 <= i < |w.log| ==> w.log[i].session.revision == 2 + Count(w.log[..i], w.log[i].session.id))
  }

  /** Saved sessions are extended by later ones and by what is stored now. */
  ghost predicate Chained(w: World) {
    && (forall i, j :: SameSession(w.log, i, j) ==> Extends(w.log[i].session, w.log[j].session))
    && (forall i :: 0 <= i < |w.log| ==>
                      w.log[i].session.id in w.sessions &&
                      Extends(w.log[i].session, w.sessions[w.log[i].session.id]))
  }

  /** No turn's saves to a session have another turn's between them. */
  ghost predicate Consecutive(log: seq<Commit>) {
    forall i, j, k :: SameSession(log, i, j) && SameSession(log, j, k) && log[i].writer == log[k].writer ==>
                        log[j].writer == log[i].writer
  }

  /** Writers write to their own session, and are fenced once another turn has. */
  ghost predicate Attributed(w: World) {
    && (forall c <- w.log :: c.writer in w.admitted)
    && (forall c, p :: c in w.log && 0 <= p < |w.turns| && w.turns[p].turnId == c.writer ==>
                         w.turns[p].sessionId == c.session.id)
    && (forall i, j, p | SameSession(w.log, i, j) && 0 <= p < |w.turns| ::
          w.log[i].writer != w.log[j].writer && w.turns[p].turnId == w.log[i].writer ==> Fenced(w, p))
  }

  ghost predicate LogOk(w: World) {
    Numbered(w) && Chained(w) && Consecutive(w.log) && Attributed(w)
  }

  // ------------------------------------------------------- one step, saved

  lemma NumberedStep(w: World, w': World, t: Turn, c: Commit)
    requires Inv(w) && Numbered(w) && SavedBy(t, w.sessions, w'.sessions)
    requires w'.log == w.log + [c] && c.session == w'.sessions[t.session.id] && c.session.id == t.session.id
    ensures Numbered(w')
  {
    forall id <- w'.sessions
      ensures w'.sessions[id].revision == 1 + Count(w'.log, id)
    {
      CountAppend(w.log, c, id);
    }
    forall i | 0 <= i < |w'.log|
      ensures w'.log[i].session.revision == 2 + Count(w'.log[..i], w'.log[i].session.id)
    {
      if i < |w.log| { assert w'.log[..i] == w.log[..i]; } else { assert w'.log[..i] == w.log; }
    }
  }

  lemma ChainedStep(w: World, w': World, t: Turn, c: Commit)
    requires Inv(w) && Chained(w) && SavedBy(t, w.sessions, w'.sessions)
    requires w'.log == w.log + [c] && c.session == w'.sessions[t.session.id] && c.session.id == t.session.id
    ensures Chained(w')
  {
    forall i, j | SameSession(w'.log, i, j)
      ensures Extends(w'.log[i].session, w'.log[j].session)
    {
      if j < |w.log| { assert SameSession(w.log, i, j); }
    }
  }

  lemma ConsecutiveStep(w: World, c: Commit, p: nat)
    requires Inv(w) && Consecutive(w.log) && Attributed(w)
    requires p < |w.turns| && c.writer == w.turns[p].turnId && !Fenced(w, p)
    ensures Consecutive(w.log + [c])
  {
    var log' := w.log + [c];
    forall i, j, k | SameSession(log', i, j) && SameSession(log', j, k) && log'[i].writer == log'[k].writer
      ensures log'[j].writer == log'[i].writer
    {
      assert SameSession(w.log, i, j);
      if k < |w.log| { assert SameSession(w.log, j, k); }
    }
  }

  lemma TurnsKeepNames(l: Limits, w: World, a: Action)
    requires Inv(w)
    ensures |w.turns| <= |Do(l, w, a).turns|
    ensures forall q :: 0 <= q < |w.turns| ==>
                          Do(l, w, a).turns[q].turnId == w.turns[q].turnId &&
                          Do(l, w, a).turns[q].sessionId == w.turns[q].sessionId
    ensures forall q :: |w.turns| <= q < |Do(l, w, a).turns| ==> Do(l, w, a).turns[q].turnId !in w.admitted
    ensures w.admitted <= Do(l, w, a).admitted
  {
    if a.Advance? && a.p < |w.turns| {
      assert w.turns[a.p] in w.turns;
      StepGood(l, w.turns[a.p], w.sessions, a.input, w.admitted);
    }
    if a.Begin? && Fresh(w, a.turnId) {
      assert a.turnId !in TurnIds(w.turns);
    }
  }

  lemma AttributedQuiet(l: Limits, w: World, a: Action)
    requires Inv(w) && Attributed(w) && Do(l, w, a).log == w.log
    ensures Attributed(Do(l, w, a))
  {
    var w' := Do(l, w, a);
    TurnsKeepNames(l, w, a);
    forall i, j, p | SameSession(w'.log, i, j) && w'.log[i].writer != w'.log[j].writer &&
                     0 <= p < |w'.turns| && w'.turns[p].turnId == w'.log[i].writer
      ensures Fenced(w', p)
    {
      assert w.log[i] in w.log;
      FencedStep(l, w, a, p);
    }
  }

  lemma AttributedSaved(l: Limits, w: World, a: Action)
    requires Inv(w) && Attributed(w) && a.Advance? && a.p < |w.turns|
    requires Live(w.turns[a.p]) && w.turns[a.p].session.id == w.turns[a.p].sessionId
    requires var t := w.turns[a.p];
             var w' := Do(l, w, a);
             && SavedBy(t, w.sessions, w'.sessions)
             && w'.log == w.log + [Commit(t.turnId, w'.sessions[t.sessionId])]
             && t.turnId in w'.admitted
    ensures Attributed(Do(l, w, a))
  {
    var t := w.turns[a.p];
    var w' := Do(l, w, a);
    TurnsKeepNames(l, w, a);
    forall i, j, q | SameSession(w'.log, i, j) && w'.log[i].writer != w'.log[j].writer &&
                     0 <= q < |w'.turns| && w'.turns[q].turnId == w'.log[i].writer
      ensures Fenced(w', q)
    {
      assert w.log[i] in w.log;
      if j < |w.log| {
        assert SameSession(w.log, i, j);
        FencedStep(l, w, a, q);
      } else {
        assert w.turns[q] in w.turns;
        if Live(w.turns[q]) {
          SaveFencesOthers(l, w, a, q);
        } else {
          FencedStep(l, w, a, q);
        }
      }
    }
    forall c, q | c in w'.log && 0 <= q < |w'.turns| && w'.turns[q].turnId == c.writer
      ensures w'.turns[q].sessionId == c.session.id
    {
      if c in w.log { assert w.turns[q].turnId == c.writer; }
    }
  }

  lemma LogQuiet(l: Limits, w: World, a: Action)
    requires Inv(w) && LogOk(w) && Do(l, w, a).log == w.log
    requires forall id <- w.sessions :: id in Do(l, w, a).sessions && Do(l, w, a).sessions[id] == w.sessions[id]
    ensures LogOk(Do(l, w, a))
  {
    var w' := Do(l, w, a);
    AttributedQuiet(l, w, a);
    forall id <- w'.sessions
      ensures w'.sessions[id].revision == 1 + Count(w'.log, id)
    {
      if id !in w.sessions {
        assert a == CreateSession(id) by { CreatedBy(l, w, a, id); }
        CountNone(w.log, id);
      }
    }
  }

  lemma CreatedBy(l: Limits, w: World, a: Action, id: string)
    requires Inv(w) && id in Do(l, w, a).sessions && id !in w.sessions
    ensures a == CreateSession(id)
  {
    if a.Advance? && a.p < |w.turns| {
      assert w.turns[a.p] in w.turns;
      StepGood(l, w.turns[a.p], w.sessions, a.input, w.admitted);
    }
  }

  lemma LogSaved(l: Limits, w: World, a: Action)
    requires Inv(w) && LogOk(w) && Do(l, w, a).log != w.log
    ensures LogOk(Do(l, w, a))
  {
    var w' := Do(l, w, a);
    StepSaves(l, w, a);
    StepKeeps(l, w, a);
    var t := w.turns[a.p];
    var c := Commit(t.turnId, w'.sessions[t.sessionId]);
    NumberedStep(w, w', t, c);
    ChainedStep(w, w', t, c);
    ConsecutiveStep(w, c, a.p);
    SavedIsAdmitted(l, w, a);
    AttributedSaved(l, w, a);
  }

  lemma SavedIsAdmitted(l: Limits, w: World, a: Action)
    requires Inv(w) && a.Advance? && a.p < |w.turns| && Do(l, w, a).log != w.log
    ensures w.turns[a.p].turnId in Do(l, w, a).admitted
  {
    assert w.turns[a.p] in w.turns;
    StepGood(l, w.turns[a.p], w.sessions, a.input, w.admitted);
  }

  lemma LogStep(l: Limits, w: World, a: Action)
    requires Inv(w) && LogOk(w)
    ensures LogOk(Do(l, w, a))
  {
    StepSaves(l, w, a);
    if Do(l, w, a).log == w.log {
      LogQuiet(l, w, a);
    } else {
      LogSaved(l, w, a);
    }
  }

  /**
   * Over every run: the revision of a session is one more than its saves, each
   * save's transcript has every earlier one as a prefix and keeps its linked
   * investigations, and one turn's saves to a session are consecutive.
   */
  lemma {:induction false} RunLogs(l: Limits, actions: seq<Action>)
    ensures LogOk(Exec(l, EMPTY, actions))
  {
    if actions != [] {
      RunLogs(l, actions[..|actions| - 1]);
      EmptyInv();
      RunKeeps(l, EMPTY, actions[..|actions| - 1]);
      LogStep(l, Exec(l, EMPTY, actions[..|actions| - 1]), actions[|actions| - 1]);
    }
  }
}
