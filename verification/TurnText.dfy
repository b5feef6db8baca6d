/** The text a turn has streamed to its user is in the transcript it leaves. */
module TurnText {
  import opened Transcript
  import opened SessionStore
  import opened TurnProtocol
  import opened TurnEvents

  function DeltaOf(k: Kind): string {
    if k.AssistantDelta? then k.text else ""
  }

  /** Concatenation of the deltas reported from event `mark` on. */
  function Deltas(es: seq<Event>, mark: nat): string {
    if |es| <= mark then "" else Deltas(es[..|es| - 1], mark) + DeltaOf(es[|es| - 1].kind)
  }

  /** What the user has been shown of the current round's reply. */
  function Delivered(t: Turn): string {
    Deltas(t.emitted, t.roundMark)
  }

  lemma DeltasAppend(es: seq<Event>, e: Event, mark: nat)
    requires mark <= |es|
    ensures Deltas(es + [e], mark) == Deltas(es, mark) + DeltaOf(e.kind)
  {
    assert (es + [e])[..|es|] == es;
  }

  lemma ConcatAppend(parts: seq<string>, part: string)
    ensures Concat(parts + [part]) == Concat(parts) + part
  {
    assert (parts + [part])[..|parts|] == parts;
  }

  /** Since the round began, exactly one assistant message, with exactly this text; then only tool results. */
  predicate SavedOnce(t: Turn, text: string) {
    var ms, n := t.session.messages, |t.roundStart|;
    && n < |ms| && ms[..n] == t.roundStart
    && ms[n].role == Assistant && ms[n].content == text && ms[n].turnId == t.turnId
    && forall k :: n < k < |ms| ==> ms[k].role == Tool
  }

  /** Nothing saved in the round, and the buffer still holds its text. */
  predicate Buffered(t: Turn, text: string) {
    Concat(t.buffer) == text && t.session.messages == t.roundStart
  }

  predicate Kept(t: Turn, text: string) {
    (text != "" ==> SavedOnce(t, text)) && (t.buffer == [] || Concat(t.buffer) == text)
  }

  predicate Drops(e: Ending) {
    e.DuplicateCallIds? || e.EmptyReply?
  }

  predicate TextFits(t: Turn, text: string, over: bool) {
    && (t.phase.Loading? || t.phase.Opening? || t.phase.YStarted? ==> text == "" && t.buffer == [])
    && (t.phase.Streaming? || t.phase.YDelta? || t.phase.SavingReply? || t.phase.Persisting? ==> Buffered(t, text))
    && (t.phase.Persisting? ==> !Drops(t.phase.ending))
    && (t.phase.RoundHead? || t.phase.NextTool? || Tooling(t.phase) || t.phase.YEarth? || t.phase.YToolDone? ==>
          Kept(t, text) && t.buffer == [])
    && (t.phase.YTerminal? ==> if Drops(t.phase.ending) then Buffered(t, text) else Kept(t, text))
    && (t.phase.Closing? ==> Buffered(t, text) || (Kept(t, text) && (t.buffer == [] || over)))
  }

  // ---------------------------------------------------------- the segments

  /** Text delivered after a step that reports at most one event and starts no round. */
  function Heard(t: Turn, t': Turn, text: string): string {
    if |t'.emitted| > |t.emitted| then text + DeltaOf(t'.emitted[|t'.emitted| - 1].kind) else text
  }

  predicate SameRound(t: Turn, t': Turn) {
    && t'.roundMark == t.roundMark && t'.roundStart == t.roundStart
    && (|| t'.emitted == t.emitted
        || (|t'.emitted| == |t.emitted| + 1 && t'.emitted[..|t.emitted|] == t.emitted))
  }

  lemma AttemptAppends(t: Turn, sessions: Sessions, ms: seq<Message>, busy: bool)
    ensures var o := Attempt(t, sessions, ms, busy);
            o.Some? ==> && o.value.turn == t.(session := o.value.turn.session)
                        && o.value.turn.session.messages == t.session.messages + ms
  {
  }

  lemma SavedOnceKept(t: Turn, t': Turn, text: string)
    requires SavedOnce(t, text) && t'.roundStart == t.roundStart && t'.turnId == t.turnId
    requires t'.session.messages == t.session.messages
             || exists m: Message :: m.role == Tool && t'.session.messages == t.session.messages + [m]
    ensures SavedOnce(t', text)
  {
  }

  lemma HearDelta(t: Turn, delta: string, text: string)
    requires t.phase.Streaming? && TextFits(t, text, false) && !t.cancelled && delta != ""
    ensures var t' := Emit(t.(buffer := t.buffer + [delta]), AssistantDelta(delta)).(phase := YDelta);
            SameRound(t, t') && TextFits(t', Heard(t, t', text), false)
  {
    ConcatAppend(t.buffer, delta);
  }

  lemma EndOfStreamText(l: Limits, t: Turn, text: string)
    requires t.phase.Streaming? && TextFits(t, text, false)
    ensures var t' := EndOfStream(l, t); SameRound(t, t') && TextFits(t', Heard(t, t', text), false)
  {
  }

  lemma StreamText(l: Limits, t: Turn, i: Input, text: string)
    requires t.phase.Streaming? && TextFits(t, text, false)
    ensures var t' := Stream(l, t, i); SameRound(t, t') && TextFits(t', Heard(t, t', text), false)
  {
    match i
    case ModelText(delta) => if !t.cancelled && delta != "" { HearDelta(t, delta, text); }
    case ModelStop => EndOfStreamText(l, t, text);
    case ModelDone => if !t.cancelled { EndOfStreamText(l, t, text); }
    case _ =>
  }

  lemma ExecuteText(t: Turn, i: Input, text: string)
    requires t.phase.Running? && TextFits(t, text, false)
    ensures var t' := Execute(t, i); SameRound(t, t') && TextFits(t', Heard(t, t', text), false)
  {
  }

  lemma StartToolText(t: Turn, text: string)
    requires t.phase.NextTool? && TextFits(t, text, false)
    ensures var t' := StartTool(t); SameRound(t, t') && TextFits(t', Heard(t, t', text), false)
  {
    hide Concat;
  }

  lemma DispatchText(t: Turn, text: string)
    requires t.phase.YToolStarted? && TextFits(t, text, false)
    ensures var t' := Dispatch(t); SameRound(t, t') && TextFits(t', Heard(t, t', text), false)
  {
    hide Concat;
  }

  lemma ContinueText(l: Limits, t: Turn, text: string)
    requires Silent(t.phase) && !t.phase.RoundHead? && TextFits(t, text, false)
    ensures var t' := Continue(l, t); SameRound(t, t') && TextFits(t', Heard(t, t', text), false)
  {
    hide Concat, StartTool, Dispatch, Drops;
    match t.phase
    case NextTool => StartToolText(t, text);
    case YToolStarted => DispatchText(t, text);
    case _ =>
  }

  lemma BeginRoundText(l: Limits, t: Turn, text: string)
    requires t.phase.RoundHead? && TextFits(t, text, false)
    ensures var t' := BeginRound(l, t);
            && t'.roundMark == |t.emitted| <= |t'.emitted| && Delivered(t') == ""
            && TextFits(t', "", false)
  {
    var t' := BeginRound(l, t);
    if t'.emitted != t.emitted { DeltasAppend(t.emitted, t'.emitted[|t.emitted|], |t.emitted|); }
  }

  lemma OpenText(t: Turn, sessions: Sessions, busy: bool, text: string)
    requires t.phase.Opening? && TextFits(t, text, false)
    ensures var t' := Open(t, sessions, busy).turn; SameRound(t, t') && TextFits(t', Heard(t, t', text), false)
  {
  }

  lemma PersistText(t: Turn, sessions: Sessions, busy: bool, text: string)
    requires t.phase.Persisting? && TextFits(t, text, false)
    ensures var t' := Persist(t, sessions, busy).turn; SameRound(t, t') && TextFits(t', Heard(t, t', text), true)
  {
    hide Concat, Attempt;
    AttemptAppends(t, sessions, [AssistantMessage(Concat(t.buffer), t.turnId, [])], busy);
  }

  lemma SaveReplyText(t: Turn, sessions: Sessions, busy: bool, text: string)
    requires t.phase.SavingReply? && TextFits(t, text, false)
    ensures var t' := SaveReply(t, sessions, busy).turn; SameRound(t, t') && TextFits(t', Heard(t, t', text), true)
  {
  }

  lemma SaveResultText(t: Turn, sessions: Sessions, busy: bool, text: string)
    requires t.phase.SavingResult? && t.next < |t.calls| && TextFits(t, text, false)
    ensures var t' := SaveResult(t, sessions, busy).turn; SameRound(t, t') && TextFits(t', Heard(t, t', text), false)
  {
    hide Concat, SavedOnce;
    assert text + "" == text;
    var t' := SaveResult(t, sessions, busy).turn;
    if SavedOnce(t, text) {
      var m := ToolMessage(t.phase.content, t.turnId, t.calls[t.next]);
      assert m.role == Tool;
      SavedOnceKept(t, t', text);
    }
  }

  lemma SaveFailureText(t: Turn, sessions: Sessions, busy: bool, text: string)
    requires t.phase.SavingFailure? && t.next < |t.calls| && TextFits(t, text, false)
    ensures var t' := SaveFailure(t, sessions, busy).turn; SameRound(t, t') && TextFits(t', Heard(t, t', text), false)
  {
  }

  ghost predicate TextOk(t: Turn) {
    t.roundMark <= |t.emitted| && TextFits(t, Delivered(t), Replay(t.emitted).Over?)
  }

  lemma SameRoundDelivers(t: Turn, t': Turn)
    requires SameRound(t, t') && t.roundMark <= |t.emitted|
    ensures t'.roundMark <= |t'.emitted| && Delivered(t') == Heard(t, t', Delivered(t))
  {
    if t'.emitted != t.emitted {
      assert t'.emitted == t.emitted + [t'.emitted[|t.emitted|]];
      DeltasAppend(t.emitted, t'.emitted[|t.emitted|], t.roundMark);
    }
  }

  lemma ShutText(t: Turn, sessions: Sessions, busy: bool)
    requires t.phase.Closing? && t.roundMark <= |t.emitted|
    ensures TextOk(Shut(t, sessions, busy).turn)
  {
  }

  lemma TextStays(t: Turn, t': Turn, over: bool)
    requires TextOk(t) && SameRound(t, t') && !t'.phase.Closing?
    requires TextFits(t', Heard(t, t', Delivered(t)), over)
    ensures TextOk(t')
  {
    SameRoundDelivers(t, t');
  }

  lemma OpenTextOk(t: Turn, sessions: Sessions, busy: bool)
    requires t.phase.Opening? && TextOk(t)
    ensures TextOk(Open(t, sessions, busy).turn)
  {
    OpenText(t, sessions, busy, Delivered(t));
    TextStays(t, Open(t, sessions, busy).turn, false);
  }

  lemma PersistTextOk(t: Turn, sessions: Sessions, busy: bool)
    requires t.phase.Persisting? && TextOk(t)
    ensures TextOk(Persist(t, sessions, busy).turn)
  {
    PersistText(t, sessions, busy, Delivered(t));
    TextStays(t, Persist(t, sessions, busy).turn, true);
  }

  lemma SaveReplyTextOk(t: Turn, sessions: Sessions, busy: bool)
    requires t.phase.SavingReply? && TextOk(t)
    ensures TextOk(SaveReply(t, sessions, busy).turn)
  {
    SaveReplyText(t, sessions, busy, Delivered(t));
    TextStays(t, SaveReply(t, sessions, busy).turn, true);
  }

  lemma SaveResultTextOk(t: Turn, sessions: Sessions, busy: bool)
    requires t.phase.SavingResult? && t.next < |t.calls| && TextOk(t)
    ensures TextOk(SaveResult(t, sessions, busy).turn)
  {
    SaveResultText(t, sessions, busy, Delivered(t));
    TextStays(t, SaveResult(t, sessions, busy).turn, false);
  }

  lemma SaveFailureTextOk(t: Turn, sessions: Sessions, busy: bool)
    requires t.phase.SavingFailure? && t.next < |t.calls| && TextOk(t)
    ensures TextOk(SaveFailure(t, sessions, busy).turn)
  {
    SaveFailureText(t, sessions, busy, Delivered(t));
    TextStays(t, SaveFailure(t, sessions, busy).turn, false);
  }

  lemma OperateText(t: Turn, sessions: Sessions, busy: bool)
    requires TextOk(t) && !Silent(t.phase) && !t.phase.Streaming? && !t.phase.Running?
    ensures TextOk(Operate(t, sessions, busy).turn)
  {
    match t.phase {
      case Opening => OpenTextOk(t, sessions, busy);
      case Persisting(_, _) => PersistTextOk(t, sessions, busy);
      case SavingReply => SaveReplyTextOk(t, sessions, busy);
      case SavingResult(_) => if t.next < |t.calls| { SaveResultTextOk(t, sessions, busy); }
      case SavingFailure(_) => if t.next < |t.calls| { SaveFailureTextOk(t, sessions, busy); }
      case Closing => ShutText(t, sessions, busy);
      case _ =>
    }
  }

  lemma StreamTextOk(l: Limits, t: Turn, i: Input)
    requires t.phase.Streaming? && TextOk(t)
    ensures TextOk(Stream(l, t, i))
  {
    StreamText(l, t, i, Delivered(t));
    StaysOpen(l, t, i);
    TextStays(t, Stream(l, t, i), false);
  }

  lemma ExecuteTextOk(l: Limits, t: Turn, i: Input)
    requires t.phase.Running? && TextOk(t)
    ensures TextOk(Execute(t, i))
  {
    ExecuteText(t, i, Delivered(t));
    StaysOpen(l, t, i);
    TextStays(t, Execute(t, i), false);
  }

  lemma ContinueTextOk(l: Limits, t: Turn)
    requires Silent(t.phase) && TextOk(t)
    ensures TextOk(Continue(l, t))
  {
    StaysOpen(l, t, Go(false));
    if t.phase.RoundHead? {
      BeginRoundText(l, t, Delivered(t));
    } else {
      ContinueText(l, t, Delivered(t));
      TextStays(t, Continue(l, t), false);
    }
  }

  lemma StepText(l: Limits, t: Turn, sessions: Sessions, i: Input)
    requires TextOk(t)
    ensures TextOk(TurnStep(l, t, sessions, i).turn)
  {
    if t.phase.Streaming? {
      StreamTextOk(l, t, i);
    } else if t.phase.Running? {
      ExecuteTextOk(l, t, i);
    } else if i.Go? && Silent(t.phase) {
      ContinueTextOk(l, t);
    } else if i.Go? {
      OperateText(t, sessions, i.busy);
    }
  }

  /** No step of the turn itself closes it. */
  lemma StaysOpen(l: Limits, t: Turn, i: Input)
    ensures t.phase.Streaming? ==> !Stream(l, t, i).phase.Closing?
    ensures t.phase.Running? ==> !Execute(t, i).phase.Closing?
    ensures Silent(t.phase) ==> !Continue(l, t).phase.Closing?
  {
  }

  // ------------------------------------------------------------ closing

  /** The close handler's save succeeds exactly when the local revision is current. */
  lemma ShutSaves(t: Turn, sessions: Sessions)
    requires t.phase.Closing? && Concat(t.buffer) != ""
    requires t.session.id in sessions && t.session.revision == sessions[t.session.id].revision
    ensures Shut(t, sessions, false).saved
    ensures Shut(t, sessions, false).turn.session.messages ==
            t.session.messages + [AssistantMessage(Concat(t.buffer), t.turnId, [])]
    ensures Shut(t, sessions, false).turn.roundStart == t.roundStart
    ensures Shut(t, sessions, false).turn.turnId == t.turnId
    ensures Delivered(Shut(t, sessions, false).turn) == Delivered(t)
  {
  }

  /** A turn closed before its terminal event leaves its text behind exactly once. */
  lemma CloseKeepsText(t: Turn, sessions: Sessions)
    requires t.phase.Closing? && TextOk(t) && !Replay(t.emitted).Over? && Delivered(t) != ""
    requires t.session.id in sessions && t.session.revision == sessions[t.session.id].revision
    ensures SavedOnce(Shut(t, sessions, false).turn, Delivered(t))
  {
    if Concat(t.buffer) != "" {
      ShutSaves(t, sessions);
    }
  }

  /** Where the partial text stands twice in a row. */
  predicate SavedTwice(t: Turn, text: string) {
    var ms, n := t.session.messages, |t.roundStart|;
    && n + 1 < |ms| && ms[..n] == t.roundStart
    && ms[n].role == Assistant && ms[n].content == text
    && ms[|ms| - 1].role == Assistant && ms[|ms| - 1].content == text
  }

  /** Closed while suspended at its terminal event, with the buffer still set, it is saved a second time. */
  lemma CloseAtTerminalRepeatsText(t: Turn, sessions: Sessions)
    requires t.phase.Closing? && TextOk(t) && Delivered(t) != ""
    requires t.buffer != [] && SavedOnce(t, Delivered(t)) && Concat(t.buffer) == Delivered(t)
    requires t.session.id in sessions && t.session.revision == sessions[t.session.id].revision
    ensures SavedTwice(Shut(t, sessions, false).turn, Delivered(t))
  {
    ShutSaves(t, sessions);
  }
}
