/**
 * Why a turn ends as it does: for every way a round can go, the terminal event
 * that it is reported with, and no other.
 */
module TurnCauses {
  import opened Transcript
  import opened TurnProtocol
  import opened TurnSafety
  import opened TurnHistory
  import opened TurnReports
  import opened TurnTools

  /** After the step and, if it has text to keep, its save, the turn stands at this ending, reported last. */
  ghost predicate EndsWith(l: Limits, w: World, p: nat, e: Ending) {
    p < |w.turns| &&
    var t := if w.turns[p].phase.Persisting? then GoesOn(l, w, p).turns[p] else w.turns[p];
    t.phase == YTerminal(e) && t.emitted != [] && t.emitted[|t.emitted| - 1].kind == Ended(e)
  }

  /** The model's stream is over. */
  predicate StreamEnds(i: Input) {
    i.ModelStop? || i.ModelDone?
  }

  /** The cause of each ending that a stream can come to. */
  predicate Causes(l: Limits, t: Turn, i: Input, e: Ending) {
    var valid := StreamEnds(i) && !t.cancelled && DistinctCalls(t.calls);
    match e
    case TimedOut => i.ModelTimeout?
    case ModelFailed => i.ModelError?
    case Cancelled => t.cancelled && (StreamEnds(i) || i.ModelText? || i.ModelCall?)
    case DuplicateCallIds => StreamEnds(i) && !t.cancelled && !DistinctCalls(t.calls)
    case CallBudget => valid && t.used + |t.calls| > l.maxCalls
    case EmptyReply => valid && t.used + |t.calls| <= l.maxCalls && t.buffer == [] && t.calls == []
    case Completed => false
    case RoundLimit => false
  }

  lemma PersistEnds(l: Limits, w: World, p: nat)
    requires Inv(w) && Current(w, p) && w.turns[p].phase.Persisting?
    ensures EndsWith(l, w, p, w.turns[p].phase.ending)
    ensures forall e :: EndsWith(l, w, p, e) ==> e == w.turns[p].phase.ending
  {
    hide StoreOk, TurnOk, Concat;
    assert w.turns[p] in w.turns;
  }

  lemma StreamCauses(l: Limits, t: Turn, i: Input)
    requires t.phase.Streaming? && t.used <= l.maxCalls
    ensures var t' := Stream(l, t, i);
            && (forall e :: Causes(l, t, i, e) <==> (t'.phase.Persisting? || t'.phase.YTerminal?) && t'.phase.ending == e)
            && (t'.phase.YTerminal? ==> t'.emitted != [] && t'.emitted[|t'.emitted| - 1].kind == Ended(t'.phase.ending))
            && (i.ModelTimeout? ==> t'.cancelled)
            && (!t'.phase.Persisting? && !t'.phase.YTerminal? ==>
                  t'.phase.Streaming? || t'.phase.YDelta? || (t'.phase.SavingReply? && StreamEnds(i)))
  {
    hide DistinctCalls;
  }

  /**
   * In every run, whatever a streaming turn meets next, and with its copy
   * current for the save, it ends exactly as the cause has it: a time-out, a
   * failed model, a cancellation noticed, a repeated call ID, a spent budget
   * or an empty reply; and without a cause it goes on.
   */
  lemma StreamEndsAsCaused(l: Limits, actions: seq<Action>, p: nat, i: Input, others: seq<Action>)
    requires p < |Exec(l, EMPTY, actions).turns| && Exec(l, EMPTY, actions).turns[p].phase.Streaming?
    requires Elsewhere(others, p) && Current(Later(l, actions, p, i, others), p)
    ensures var (t, w) := (Exec(l, EMPTY, actions).turns[p], Later(l, actions, p, i, others));
            && (forall e :: EndsWith(l, w, p, e) <==> Causes(l, t, i, e))
            && (i.ModelTimeout? ==> w.turns[p].cancelled)
            && ((forall e :: !Causes(l, t, i, e)) ==>
                  var phase := w.turns[p].phase;
                  phase.Streaming? || phase.YDelta? || (phase.SavingReply? && StreamEnds(i)))
  {
    hide Exec, Inv, Stream, Causes, EndsWith;
    LaterStands(l, actions, p, i, others);
    RunReported(l, actions);
    assert Exec(l, EMPTY, actions).turns[p] in Exec(l, EMPTY, actions).turns;
    var (t, w) := (Exec(l, EMPTY, actions).turns[p], Later(l, actions, p, i, others));
    StreamCauses(l, t, i);
    if w.turns[p].phase.Persisting? {
      PersistEnds(l, w, p);
    } else {
      EndsAlready(l, w, p);
    }
  }

  lemma EndsAlready(l: Limits, w: World, p: nat)
    requires p < |w.turns| && !w.turns[p].phase.Persisting?
    requires w.turns[p].phase.YTerminal? ==>
               w.turns[p].emitted != [] && w.turns[p].emitted[|w.turns[p].emitted| - 1].kind == Ended(w.turns[p].phase.ending)
    ensures forall e :: EndsWith(l, w, p, e) <==> w.turns[p].phase == YTerminal(e)
  {
  }

  /**
   * At the head of a round the turn ends at the round limit, then as cancelled,
   * and only otherwise asks the model, with nothing left of the last round.
   */
  lemma RoundEndsAsCaused(l: Limits, actions: seq<Action>, p: nat, others: seq<Action>)
    requires p < |Exec(l, EMPTY, actions).turns| && Exec(l, EMPTY, actions).turns[p].phase.RoundHead?
    requires Elsewhere(others, p) && Current(Later(l, actions, p, Go(false), others), p)
    ensures var (t, w) := (Exec(l, EMPTY, actions).turns[p], Later(l, actions, p, Go(false), others));
            && (EndsWith(l, w, p, RoundLimit) <==> t.round >= l.maxRounds)
            && (EndsWith(l, w, p, Ending.Cancelled) <==> t.round < l.maxRounds && t.cancelled)
            && (t.round < l.maxRounds && !t.cancelled ==>
                  && w.turns[p].phase.Streaming? && w.turns[p].buffer == [] && w.turns[p].calls == []
                  && w.turns[p].emitted == t.emitted)
  {
    hide Exec, Inv, EndsWith;
    LaterStands(l, actions, p, Go(false), others);
    var w := Later(l, actions, p, Go(false), others);
    if w.turns[p].phase.Persisting? {
      PersistEnds(l, w, p);
    } else {
      EndsAlready(l, w, p);
    }
  }

  /** A reply that was saved completes the turn if it asks for nothing, and else turns to its calls. */
  lemma ReplyEndsAsCaused(l: Limits, actions: seq<Action>, p: nat)
    requires p < |Exec(l, EMPTY, actions).turns| && Exec(l, EMPTY, actions).turns[p].phase.SavingReply?
    requires Current(Exec(l, EMPTY, actions), p)
    ensures var w := Exec(l, EMPTY, actions);
            var (t, w') := (w.turns[p], GoesOn(l, w, p));
            && (EndsWith(l, w', p, Completed) <==> t.calls == [])
            && (t.calls != [] ==> w'.turns[p].phase.NextTool? && w'.turns[p].next == 0 && w'.turns[p].calls == t.calls)
  {
    hide Exec, Inv, Concat;
  }

  /** A stream cancelled while it runs will try its save again; one that has ended, timed out or failed will not. */
  lemma CancelledStreamRetries(l: Limits, actions: seq<Action>, p: nat, i: Input, others: seq<Action>)
    requires p < |Exec(l, EMPTY, actions).turns| && Exec(l, EMPTY, actions).turns[p].phase.Streaming?
    requires Elsewhere(others, p)
    ensures p < |Later(l, actions, p, i, others).turns|
    ensures var (t, t') := (Exec(l, EMPTY, actions).turns[p], Later(l, actions, p, i, others).turns[p]);
            && (t'.phase.Persisting? ==>
                  && t'.buffer == t.buffer
                  && (t'.phase.retry <==> t.cancelled && (i.ModelText? || i.ModelCall? || i.ModelDone?)))
            && (t.cancelled && (StreamEnds(i) || i.ModelText? || i.ModelCall?) ==> t'.phase.Persisting?)
  {
    hide Exec, DistinctCalls;
    LaterStands(l, actions, p, i, others);
  }

  /**
   * When the save of a turn's partial text fails, a cancelled stream tries once
   * more and, saved then, ends as a failed model; any other turn is over.
   */
  lemma RefusedSaveEndsAsFailed(l: Limits, actions: seq<Action>, p: nat, others: seq<Action>)
    requires p < |Exec(l, EMPTY, actions).turns|
    requires var t := Exec(l, EMPTY, actions).turns[p]; t.phase.Persisting? && Concat(t.buffer) != ""
    requires Elsewhere(others, p) && Current(Later(l, actions, p, Go(true), others), p)
    ensures var (t, w) := (Exec(l, EMPTY, actions).turns[p], Later(l, actions, p, Go(true), others));
            if t.phase.retry then EndsWith(l, w, p, ModelFailed) else w.turns[p] == t.(phase := Gone)
  {
    hide Exec, Inv, EndsWith, Concat;
    LaterStands(l, actions, p, Go(true), others);
    if Exec(l, EMPTY, actions).turns[p].phase.retry {
      PersistEnds(l, Later(l, actions, p, Go(true), others), p);
    }
  }

  /** Text is delivered and kept in order, and calls are kept in order; empty text is neither. */
  lemma StreamIsHeard(l: Limits, actions: seq<Action>, p: nat, i: Input)
    requires p < |Exec(l, EMPTY, actions).turns| && Exec(l, EMPTY, actions).turns[p].phase.Streaming?
    requires !Exec(l, EMPTY, actions).turns[p].cancelled
    ensures var w := Exec(l, EMPTY, actions);
            var (t, w') := (w.turns[p], Do(l, w, Advance(p, i)));
            && p < |w'.turns| && w'.sessions == w.sessions
            && (i.ModelText? && i.text == "" ==> w'.turns[p] == t)
            && (i.ModelText? && i.text != "" ==>
                  && Tells(t, w'.turns[p], [AssistantDelta(i.text)])
                  && p < |GoesOn(l, w', p).turns|
                  && var t' := GoesOn(l, w', p).turns[p];
                     && t'.phase.Streaming? && t'.emitted == w'.turns[p].emitted
                     && t'.buffer == t.buffer + [i.text] && t'.calls == t.calls)
            && (i.ModelCall? ==> w'.turns[p] == t.(calls := t.calls + [i.call]))
  {
    hide Exec, DistinctCalls;
  }
}
