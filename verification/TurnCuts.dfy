/**
 * Rounds that end early: what a cut round and a closed generator leave in the
 * transcript and in the store, exactly.
 */
module TurnCuts {
  import opened Transcript
  import opened SessionStore
  import opened TurnProtocol
  import opened TurnEvents
  import opened TurnText
  import opened TurnHistory
  import opened TurnStore
  import opened TurnReports

  /** The round has added one message: the text, and no tool calls. */
  predicate SavedAlone(t: Turn, text: string) {
    t.session.messages == t.roundStart + [AssistantMessage(text, t.turnId, [])]
  }

  /** A time-out, a failed model, the call budget, or a cancellation that found text in the buffer. */
  predicate Cuts(e: Ending, t: Turn) {
    match e
    case TimedOut => true
    case ModelFailed => true
    case CallBudget => true
    case Cancelled => t.buffer != []
    case _ => false
  }

  predicate WasCut(t: Turn) {
    t.phase.YTerminal? && Cuts(t.phase.ending, t)
  }

  predicate CutFits(t: Turn, text: string) {
    WasCut(t) && text != "" ==> SavedAlone(t, text)
  }

  ghost predicate CutOk(t: Turn) {
    CutFits(t, Delivered(t))
  }

  lemma AloneIsOnce(t: Turn, text: string)
    requires SavedAlone(t, text)
    ensures SavedOnce(t, text)
  {
  }

  lemma PersistIsAlone(t: Turn, sessions: Sessions, busy: bool, text: string)
    requires t.phase.Persisting? && TextFits(t, text, false)
    ensures var t' := Persist(t, sessions, busy).turn; CutFits(t', Heard(t, t', text))
  {
    hide Concat, Attempt;
    AttemptAppends(t, sessions, [AssistantMessage(Concat(t.buffer), t.turnId, [])], busy);
    assert text + "" == text;
  }

  /** No other step ends a turn by a cut. */
  lemma ModelAndToolsNeverCut(l: Limits, t: Turn, i: Input)
    ensures t.phase.Streaming? ==> !WasCut(Stream(l, t, i))
    ensures t.phase.Running? ==> !WasCut(Execute(t, i))
  {
  }

  lemma ContinuingNeverCuts(l: Limits, t: Turn)
    requires Silent(t.phase) && (t.phase.NextTool? ==> t.buffer == [])
    ensures !WasCut(Continue(l, t))
  {
  }

  lemma SavingNeverCuts(t: Turn, sessions: Sessions, busy: bool)
    requires !t.phase.Persisting? && !Silent(t.phase)
    ensures !WasCut(Operate(t, sessions, busy).turn)
  {
    hide Recovery, Concat;
  }

  lemma StepCuts(l: Limits, t: Turn, sessions: Sessions, i: Input)
    requires TextOk(t) && CutOk(t)
    ensures CutOk(TurnStep(l, t, sessions, i).turn)
  {
    hide Deltas, Concat, Replay, WasCut, Stream, Execute, Continue, Operate, Persist, Attempt;
    ModelAndToolsNeverCut(l, t, i);
    if t.phase.Persisting? && i.Go? {
      var text, t' := Delivered(t), TurnStep(l, t, sessions, i).turn;
      PersistedStep(t, sessions, i.busy, text);
    } else if Silent(t.phase) {
      ContinuingNeverCuts(l, t);
    } else if i.Go? && !t.phase.Streaming? && !t.phase.Running? {
      SavingNeverCuts(t, sessions, i.busy);
    }
  }

  lemma PersistedStep(t: Turn, sessions: Sessions, busy: bool, text: string)
    requires t.phase.Persisting? && TextOk(t) && text == Delivered(t)
    ensures Operate(t, sessions, busy) == Persist(t, sessions, busy)
    ensures CutOk(Persist(t, sessions, busy).turn)
  {
    var t' := Persist(t, sessions, busy).turn;
    PersistIsAlone(t, sessions, busy, text);
    PersistText(t, sessions, busy, text);
    SameRoundDelivers(t, t');
  }

  lemma WorldStepCuts(l: Limits, w: World, a: Action)
    requires forall t <- w.turns :: TextOk(t) && CutOk(t)
    ensures forall t <- Do(l, w, a).turns :: CutOk(t)
  {
    match a
    case Close(p) => if p < |w.turns| && Suspended(w.turns[p].phase) { assert CutOk(w.turns[p]); }
    case Crash(p) => if p < |w.turns| { assert CutOk(w.turns[p]); }
    case Cancel(p) => if p < |w.turns| { assert CutOk(w.turns[p]); }
    case Advance(p, i) => if p < |w.turns| { StepCuts(l, w.turns[p], w.sessions, i); }
    case _ =>
  }

  lemma {:induction false} RunCuts(l: Limits, actions: seq<Action>)
    ensures forall t <- Exec(l, EMPTY, actions).turns :: CutOk(t)
  {
    if actions != [] {
      var init := actions[..|actions| - 1];
      RunCuts(l, init);
      RunReported(l, init);
      hide Do, TextOk, CutOk;
      WorldStepCuts(l, Exec(l, EMPTY, init), actions[|actions| - 1]);
    }
  }

  // ------------------------------------------------------------ main results

  /**
   * In every run a cut round adds one assistant message, its delivered text and
   * no tool calls, to the turn's transcript; and the stored transcript begins
   * with the result, from then on and for good.
   */
  lemma CutRoundIsSavedAlone(l: Limits, actions: seq<Action>, more: seq<Action>, p: nat, e: Ending)
    requires p < |Exec(l, EMPTY, actions).turns| && Rests(Exec(l, EMPTY, actions).turns[p], e)
    requires var t := Exec(l, EMPTY, actions).turns[p]; Cuts(e, t) && Delivered(t) != ""
    ensures var w := Exec(l, EMPTY, actions);
            var (t, w') := (w.turns[p], Exec(l, w, more));
            && SavedAlone(t, Delivered(t)) && SavedOnce(t, Delivered(t))
            && t.sessionId in w.sessions && SavedOnceIn(w.sessions[t.sessionId].messages, t, Delivered(t))
            && t.sessionId in w'.sessions
            && t.roundStart + [AssistantMessage(Delivered(t), t.turnId, [])] <= w'.sessions[t.sessionId].messages
  {
    hide Exec, Deltas, Continues, Concat;
    var k := RestingWas(l, actions, p, e);
    RunCuts(l, actions[..k]);
    assert Exec(l, EMPTY, actions[..k]).turns[p] in Exec(l, EMPTY, actions[..k]).turns;
    var w := Exec(l, EMPTY, actions);
    var t := w.turns[p];
    AloneIsOnce(t, Delivered(t));
    TranscriptsAreStored(l, actions, more, p);
    OnceInStore(t, w.sessions[t.sessionId].messages, Delivered(t));
  }

  /**
   * A round with text ends the turn without saving that text exactly when its
   * stream ends, uncancelled, with a tool-call ID used twice.
   */
  lemma RoundEndsUnsavedExactlyWhen(l: Limits, actions: seq<Action>, p: nat, i: Input)
    requires p < |Exec(l, EMPTY, actions).turns|
    requires var t := Exec(l, EMPTY, actions).turns[p]; t.phase.Streaming? && Delivered(t) != ""
    ensures var t := Exec(l, EMPTY, actions).turns[p];
            var t' := TurnStep(l, t, Exec(l, EMPTY, actions).sessions, i).turn;
            t'.phase.YTerminal? && !SavedOnce(t', Delivered(t))
            <==> (i.ModelStop? || i.ModelDone?) && !t.cancelled && !DistinctCalls(t.calls)
  {
    RunReported(l, actions);
    assert Exec(l, EMPTY, actions).turns[p] in Exec(l, EMPTY, actions).turns;
    StreamEndsUnsaved(l, Exec(l, EMPTY, actions).turns[p], i, Delivered(Exec(l, EMPTY, actions).turns[p]));
  }

  lemma StreamEndsUnsaved(l: Limits, t: Turn, i: Input, text: string)
    requires t.phase.Streaming? && Buffered(t, text) && text != ""
    ensures var t' := Stream(l, t, i);
            t'.phase.YTerminal? && !SavedOnce(t', text)
            <==> (i.ModelStop? || i.ModelDone?) && !t.cancelled && !DistinctCalls(t.calls)
  {
  }

  /** Suspended at a terminal event that saved the buffer, and still holding it. */
  predicate WouldRepeat(t: Turn) {
    t.phase.YTerminal? && !Drops(t.phase.ending) && Concat(t.buffer) != ""
  }

  lemma HandlerSaves(t: Turn, sessions: Sessions, text: string)
    requires Suspended(t.phase) && TextFits(t, text, t.phase.YTerminal?) && text != ""
    requires t.session.id in sessions && t.session.revision == sessions[t.session.id].revision
    ensures var t' := Shut(t.(cancelled := true, phase := Closing), sessions, false).turn;
            && (SavedOnce(t', text) <==> !WouldRepeat(t))
            && (WouldRepeat(t) ==> SavedTwice(t', text))
            && (t.phase.Streaming? || t.phase.YDelta? || (t.phase.YTerminal? && Drops(t.phase.ending)) ==> SavedAlone(t', text))
  {
    var closing := t.(cancelled := true, phase := Closing);
    if Concat(t.buffer) != "" {
      ShutSaves(closing, sessions);
      var ms := Shut(closing, sessions, false).turn.session.messages;
      assert ms[|ms| - 1].role == Assistant;
    }
  }

  /**
   * A closed turn leaves its delivered text in the transcript exactly once,
   * unless it stood at a terminal event whose text was saved from a buffer it
   * still holds; then the text is there twice. A close at the duplicate-ID
   * event saves the text that event dropped. What it leaves is what is stored.
   */
  lemma ClosedTextIsSavedExactlyWhen(l: Limits, actions: seq<Action>, p: nat)
    requires var w := Exec(l, EMPTY, actions);
             Current(w, p) && Suspended(w.turns[p].phase) && Delivered(w.turns[p]) != ""
    ensures var w := Exec(l, EMPTY, actions);
            var (t, t') := (w.turns[p], ClosedNow(l, w, p).turns[p]);
            && (SavedOnce(t', Delivered(t)) <==> !WouldRepeat(t))
            && (WouldRepeat(t) ==> SavedTwice(t', Delivered(t)))
            && (t.phase.Streaming? || t.phase.YDelta? || (t.phase.YTerminal? && Drops(t.phase.ending)) ==>
                  SavedAlone(t', Delivered(t)))
            && t.sessionId in ClosedNow(l, w, p).sessions
            && ClosedNow(l, w, p).sessions[t.sessionId].messages == t'.session.messages
  {
    hide Exec, Deltas, Attempt, SavedOnce, SavedTwice, Shut, Concat;
    ClosedCopyIsStored(l, actions, p);
    RunReported(l, actions);
    var w := Exec(l, EMPTY, actions);
    var t := w.turns[p];
    assert t in w.turns;
    OverAtTerminal(t);
    HandlerSaves(t, w.sessions, Delivered(t));
  }

  lemma OverAtTerminal(t: Turn)
    requires EventsOk(t) && TextOk(t) && Suspended(t.phase)
    ensures TextFits(t, Delivered(t), t.phase.YTerminal?)
  {
  }
}
