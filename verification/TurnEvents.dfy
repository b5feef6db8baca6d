/**
 * What one turn reports and keeps, whatever the store and the other turns do:
 * the order of its events, its budgets, and the text it has delivered.
 */
module TurnEvents {
  import opened Transcript
  import opened SessionStore
  import opened TurnProtocol

  // -------------------------------------------------------- order of events

  /** A reader's position in the event stream of one turn. */
  datatype Script = Bad | Before | Talking | Calling(call: ToolCall) | Announced(call: ToolCall) | Over(ending: Ending)

  function Follow(s: Script, k: Kind): Script {
    match s
    case Before => if k.TurnStarted? then Talking else Bad
    case Talking =>
      (match k
       case AssistantDelta(_) => Talking
       case ToolStarted(call) => Calling(call)
       case Ended(ending) => Over(ending)
       case _ => Bad)
    case Calling(call) =>
      (match k
       case Progress(_) => s
       case EarthCommand => Announced(call)
       case ToolCompleted(c) => if c == call then Talking else Bad
       case ToolFailed(c) => if c == call then Talking else Bad
       case _ => Bad)
    case Announced(call) => if k == ToolCompleted(call) then Talking else Bad
    case _ => Bad
  }

  function Replay(es: seq<Event>): Script {
    if es == [] then Before else Follow(Replay(es[..|es| - 1]), es[|es| - 1].kind)
  }

  lemma ReplayAppend(es: seq<Event>, e: Event)
    ensures Replay(es + [e]) == Follow(Replay(es), e.kind)
  {
    assert (es + [e])[..|es|] == es;
  }

  ghost predicate Numbered(es: seq<Event>) {
    forall i :: 0 <= i < |es| ==> es[i].sequence == i + 1
  }

  predicate IsEnd(e: Event) {
    e.kind.Ended?
  }

  predicate Settles(e: Event, call: ToolCall) {
    e.kind == ToolCompleted(call) || e.kind == ToolFailed(call)
  }

  /** Event `j` settles the call that event `i` started; only its own notices come between. */
  ghost predicate Pairs(es: seq<Event>, i: int, j: int) {
    && 0 <= i < j < |es| && es[i].kind.ToolStarted? && Settles(es[j], es[i].kind.call)
    && forall k :: i < k < j ==> es[k].kind.Progress? || es[k].kind.EarthCommand?
  }

  /** The call started at `i` is still running when the stream stops. */
  ghost predicate Unsettled(es: seq<Event>, i: int) {
    && 0 <= i < |es| && es[i].kind.ToolStarted?
    && forall k :: i < k < |es| ==> es[k].kind.Progress? || es[k].kind.EarthCommand?
  }

  lemma {:induction false} StreamShape(es: seq<Event>)
    requires !Replay(es).Bad?
    ensures es != [] ==> es[0].kind == TurnStarted
    ensures forall i :: 0 < i < |es| ==> es[i].kind != TurnStarted
    ensures forall i :: 0 <= i < |es| && IsEnd(es[i]) ==> i == |es| - 1 && Replay(es) == Over(es[i].kind.ending)
    ensures Replay(es).Over? ==> es != [] && es[|es| - 1].kind == Ended(Replay(es).ending)
    ensures Replay(es).Before? ==> es == []
  {
    if es != [] {
      StreamShape(es[..|es| - 1]);
    }
  }

  predicate Busy(s: Script) {
    s.Calling? || s.Announced?
  }

  /** A call is unfinished exactly while the reader is inside it. */
  lemma {:induction false} RunningCall(es: seq<Event>)
    requires !Replay(es).Bad?
    ensures forall i :: Unsettled(es, i) ==> Busy(Replay(es)) && Replay(es).call == es[i].kind.call
    ensures Busy(Replay(es)) ==> exists i :: Unsettled(es, i)
  {
    if es != [] {
      var init, last := es[..|es| - 1], es[|es| - 1];
      RunningCall(init);
      forall i | Unsettled(es, i)
        ensures Busy(Replay(es)) && Replay(es).call == es[i].kind.call
      {
        if i < |init| { assert Unsettled(init, i); }
      }
      if Busy(Replay(es)) {
        if last.kind.ToolStarted? {
          assert Unsettled(es, |es| - 1);
        } else {
          var i :| Unsettled(init, i);
          assert Unsettled(es, i);
        }
      }
    }
  }

  lemma UnsettledStep(es: seq<Event>, e: Event, i: int)
    requires Unsettled(es, i) && !Replay(es + [e]).Bad?
    ensures Unsettled(es + [e], i) || Pairs(es + [e], i, |es|)
  {
    ReplayAppend(es, e);
    RunningCall(es);
  }

  /** Every started call is settled, or is the last one and unfinished. */
  lemma {:induction false} StartsAreSettled(es: seq<Event>)
    requires !Replay(es).Bad?
    ensures forall i :: 0 <= i < |es| && es[i].kind.ToolStarted? ==> Unsettled(es, i) || exists j :: Pairs(es, i, j)
  {
    if es != [] {
      var init, last := es[..|es| - 1], es[|es| - 1];
      StartsAreSettled(init);
      assert init + [last] == es;
      forall i | 0 <= i < |es| && es[i].kind.ToolStarted?
        ensures Unsettled(es, i) || exists j :: Pairs(es, i, j)
      {
        if i == |init| {
          assert Unsettled(es, i);
        } else if Unsettled(init, i) {
          UnsettledStep(init, last, i);
        } else {
          var j :| Pairs(init, i, j);
          assert Pairs(es, i, j);
        }
      }
    }
  }

  ghost predicate HasStart(es: seq<Event>, j: int) {
    exists i :: Pairs(es, i, j)
  }

  /** Every settlement has its start. */
  lemma {:induction false} SettlementsHaveStarts(es: seq<Event>)
    requires !Replay(es).Bad?
    ensures forall j :: 0 <= j < |es| && (es[j].kind.ToolCompleted? || es[j].kind.ToolFailed?) ==> HasStart(es, j)
  {
    if es != [] {
      var init, last := es[..|es| - 1], es[|es| - 1];
      SettlementsHaveStarts(init);
      RunningCall(init);
      forall j | 0 <= j < |es| && (es[j].kind.ToolCompleted? || es[j].kind.ToolFailed?)
        ensures HasStart(es, j)
      {
        if j < |init| {
          assert HasStart(init, j);
          var i :| Pairs(init, i, j);
          assert Pairs(es, i, j);
        } else {
          assert Busy(Replay(init));
          var i :| Unsettled(init, i);
          assert Pairs(es, i, j);
        }
      }
    }
  }

  // ------------------------------------------------- what a turn must keep

  predicate Speaking(p: Phase) {
    p.YStarted? || p.RoundHead? || p.Streaming? || p.YDelta? || p.Persisting? || p.SavingReply? ||
    p.NextTool? || p.YToolDone?
  }

  predicate Tooling(p: Phase) {
    p.YToolStarted? || p.Running? || p.YProgress? || p.SavingResult? || p.SavingFailure?
  }

  /** The script position each phase stands at. */
  predicate Fits(t: Turn, s: Script) {
    && !s.Bad?
    && (t.phase.Loading? || t.phase.Opening? ==> s == Before)
    && (Speaking(t.phase) ==> s == Talking)
    && (Tooling(t.phase) ==> t.next < |t.calls| && s == Calling(t.calls[t.next]))
    && (t.phase.YEarth? ==> s == Announced(t.phase.call))
    && (t.phase.YTerminal? ==> s == Over(t.phase.ending))
    && (t.phase.Finished? ==> s.Over?)
  }

  /** The reported events are numbered from one and follow the script up to the turn's phase. */
  ghost predicate EventsOk(t: Turn) {
    t.sequence == |t.emitted| && Numbered(t.emitted) && Fits(t, Replay(t.emitted))
  }

  /** A step reports nothing, or one event with the next number. */
  predicate Reports(t: Turn, t': Turn, s: Script) {
    || (t'.emitted == t.emitted && t'.sequence == t.sequence && Fits(t', s))
    || (&& t'.sequence == t.sequence + 1 && |t'.emitted| == |t.emitted| + 1
        && t'.emitted[..|t.emitted|] == t.emitted && t'.emitted[|t.emitted|].sequence == t'.sequence
        && Fits(t', Follow(s, t'.emitted[|t.emitted|].kind)))
  }

  lemma ReportsKeepEvents(t: Turn, t': Turn)
    requires EventsOk(t) && Reports(t, t', Replay(t.emitted))
    ensures EventsOk(t')
  {
    if t'.emitted != t.emitted {
      assert t'.emitted == t.emitted + [t'.emitted[|t.emitted|]];
      ReplayAppend(t.emitted, t'.emitted[|t.emitted|]);
    }
  }

  lemma StreamReports(l: Limits, t: Turn, i: Input, s: Script)
    requires t.phase.Streaming? && Fits(t, s)
    ensures Reports(t, Stream(l, t, i), s)
  {
  }

  lemma ExecuteReports(t: Turn, i: Input, s: Script)
    requires t.phase.Running? && Fits(t, s)
    ensures Reports(t, Execute(t, i), s)
  {
  }

  lemma BeginRoundReports(l: Limits, t: Turn, s: Script)
    requires t.phase.RoundHead? && Fits(t, s)
    ensures Reports(t, BeginRound(l, t), s)
  {
    hide Replay;
  }

  lemma StartToolReports(t: Turn, s: Script)
    requires t.phase.NextTool? && Fits(t, s)
    ensures Reports(t, StartTool(t), s)
  {
    hide Replay;
  }

  lemma ContinueReports(l: Limits, t: Turn, s: Script)
    requires Silent(t.phase) && Fits(t, s)
    ensures Reports(t, Continue(l, t), s)
  {
    hide Replay, BeginRound, StartTool;
    match t.phase
    case RoundHead => BeginRoundReports(l, t, s);
    case NextTool => StartToolReports(t, s);
    case _ =>
  }

  lemma OperateReports(t: Turn, sessions: Sessions, busy: bool, s: Script)
    requires Fits(t, s)
    ensures Reports(t, Operate(t, sessions, busy).turn, s)
  {
    match t.phase
    case Loading =>
    case Opening => OpenReports(t, sessions, busy, s);
    case Persisting(_, _) => PersistReports(t, sessions, busy, s);
    case SavingReply => SaveReplyReports(t, sessions, busy, s);
    case SavingResult(_) => SaveResultReports(t, sessions, busy, s);
    case SavingFailure(_) => SaveFailureReports(t, sessions, busy, s);
    case Closing => ShutReports(t, sessions, busy, s);
    case _ =>
  }

  lemma OpenReports(t: Turn, sessions: Sessions, busy: bool, s: Script)
    requires t.phase.Opening? && Fits(t, s)
    ensures Reports(t, Open(t, sessions, busy).turn, s)
  {
  }

  lemma PersistReports(t: Turn, sessions: Sessions, busy: bool, s: Script)
    requires t.phase.Persisting? && Fits(t, s)
    ensures Reports(t, Persist(t, sessions, busy).turn, s)
  {
  }

  lemma SaveReplyReports(t: Turn, sessions: Sessions, busy: bool, s: Script)
    requires t.phase.SavingReply? && Fits(t, s)
    ensures Reports(t, SaveReply(t, sessions, busy).turn, s)
  {
  }

  lemma SaveResultReports(t: Turn, sessions: Sessions, busy: bool, s: Script)
    requires t.phase.SavingResult? && Fits(t, s)
    ensures Reports(t, SaveResult(t, sessions, busy).turn, s)
  {
  }

  lemma SaveFailureReports(t: Turn, sessions: Sessions, busy: bool, s: Script)
    requires t.phase.SavingFailure? && Fits(t, s)
    ensures Reports(t, SaveFailure(t, sessions, busy).turn, s)
  {
  }

  lemma ShutReports(t: Turn, sessions: Sessions, busy: bool, s: Script)
    requires t.phase.Closing? && Fits(t, s)
    ensures Reports(t, Shut(t, sessions, busy).turn, s)
  {
  }

  lemma StepEvents(l: Limits, t: Turn, sessions: Sessions, i: Input)
    requires EventsOk(t)
    ensures EventsOk(TurnStep(l, t, sessions, i).turn)
  {
    var s := Replay(t.emitted);
    if t.phase.Streaming? {
      StreamReports(l, t, i, s);
    } else if t.phase.Running? {
      ExecuteReports(t, i, s);
    } else if i.Go? && Silent(t.phase) {
      ContinueReports(l, t, s);
    } else if i.Go? {
      OperateReports(t, sessions, i.busy, s);
    }
    ReportsKeepEvents(t, TurnStep(l, t, sessions, i).turn);
  }
}
