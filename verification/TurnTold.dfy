/** The whole text a turn has delivered, against the whole text its messages hold. */
module TurnTold {
  import opened Transcript
  import opened SessionStore
  import opened TurnProtocol
  import opened TurnEvents
  import opened TurnText
  import opened TurnHistory
  import opened TurnStore

  function SaidIn(m: Message): string {
    if m.role == Assistant then m.content else ""
  }

  /** The assistant text of a stretch of transcript. */
  function AssistantText(ms: seq<Message>): string {
    if ms == [] then "" else AssistantText(ms[..|ms| - 1]) + SaidIn(ms[|ms| - 1])
  }

  predicate Opened(t: Turn) {
    t.opening != [] && t.opening <= t.session.messages
  }

  /** What the turn's own messages say, from its opening on. */
  function Told(t: Turn): string
    requires Opened(t)
  {
    AssistantText(t.session.messages[|t.opening|..])
  }

  predicate Unopened(p: Phase) {
    p.Loading? || p.Opening?
  }

  predicate Composing(p: Phase) {
    p.Streaming? || p.YDelta? || p.Persisting? || p.SavingReply?
  }

  predicate Settled(p: Phase) {
    p.YStarted? || p.RoundHead? || p.NextTool? || Tooling(p) || p.YEarth? || p.YToolDone?
  }

  /** `all` is what was delivered, `told` what was saved; the difference is in the buffer. */
  predicate WholeFits(t: Turn, all: string, told: string) {
    && (Composing(t.phase) ==> all == told + Concat(t.buffer))
    && (Settled(t.phase) ==> all == told && t.buffer == [])
    && (t.phase.YTerminal? ==> all == if Drops(t.phase.ending) then told + Concat(t.buffer) else told)
    && (t.phase.Persisting? ==> !Drops(t.phase.ending))
  }

  predicate Going(p: Phase) {
    Composing(p) || Settled(p) || p.YTerminal?
  }

  ghost predicate WholeOk(t: Turn) {
    && (Unopened(t.phase) ==> t.emitted == [])
    && (Going(t.phase) ==> Opened(t) && WholeFits(t, Deltas(t.emitted, 0), Told(t)))
  }

  // ---------------------------------------------------------------- one step

  /** A step reports at most one event and saves at most one message. */
  predicate Grows(t: Turn, t': Turn) {
    && t'.opening == t.opening
    && (|| t'.emitted == t.emitted
        || (|t'.emitted| == |t.emitted| + 1 && t'.emitted[..|t.emitted|] == t.emitted))
    && (|| t'.session.messages == t.session.messages
        || (|t'.session.messages| == |t.session.messages| + 1 &&
            t'.session.messages[..|t.session.messages|] == t.session.messages))
  }

  function Said(t: Turn, t': Turn, told: string): string {
    var ms := t'.session.messages;
    if |ms| > |t.session.messages| then told + SaidIn(ms[|ms| - 1]) else told
  }

  /** The step keeps the balance, and is the whole account of what it adds. */
  predicate Balances(t: Turn, t': Turn, all: string, told: string) {
    Grows(t, t') && WholeFits(t', Heard(t, t', all), Said(t, t', told))
  }

  lemma {:induction false} AssistantTextAppend(ms: seq<Message>, m: Message)
    ensures AssistantText(ms + [m]) == AssistantText(ms) + SaidIn(m)
  {
    assert (ms + [m])[..|ms|] == ms;
  }

  lemma DeltasGrow(t: Turn, t': Turn)
    requires Grows(t, t')
    ensures Deltas(t'.emitted, 0) == Heard(t, t', Deltas(t.emitted, 0))
  {
    if t'.emitted != t.emitted {
      assert t'.emitted == t.emitted + [t'.emitted[|t.emitted|]];
      DeltasAppend(t.emitted, t'.emitted[|t.emitted|], 0);
    }
  }

  lemma ToldGrows(t: Turn, t': Turn)
    requires Opened(t) && Grows(t, t')
    ensures Opened(t') && Told(t') == Said(t, t', Told(t))
  {
    var n, ms, ms' := |t.opening|, t.session.messages, t'.session.messages;
    if ms' != ms {
      assert ms' == ms + [ms'[|ms|]];
      assert ms'[n..] == ms[n..] + [ms'[|ms|]];
      AssistantTextAppend(ms[n..], ms'[|ms|]);
    }
  }

  lemma BalanceIsWhole(t: Turn, t': Turn)
    requires Opened(t) && Balances(t, t', Deltas(t.emitted, 0), Told(t)) && !Unopened(t'.phase)
    ensures WholeOk(t')
  {
    hide WholeFits, Deltas, Told, Heard, Said, Grows;
    DeltasGrow(t, t');
    ToldGrows(t, t');
  }

  lemma SettledFits(t: Turn, all: string, told: string)
    requires Settled(t.phase)
    ensures WholeFits(t, all, told) <==> all == told && t.buffer == []
    ensures !Unopened(t.phase)
  {
    hide Concat;
  }

  lemma ComposedFits(t: Turn, all: string, told: string)
    requires Composing(t.phase)
    ensures WholeFits(t, all, told)
            <==> all == told + Concat(t.buffer) && (t.phase.Persisting? ==> !Drops(t.phase.ending))
    ensures !Unopened(t.phase)
  {
    hide Concat;
  }

  lemma EndedFits(t: Turn, all: string, told: string)
    requires t.phase.YTerminal?
    ensures WholeFits(t, all, told) <==> all == if Drops(t.phase.ending) then told + Concat(t.buffer) else told
  {
    hide Concat;
  }

  lemma DeltaBalances(t: Turn, delta: string, all: string, told: string)
    requires t.phase.Streaming? && WholeFits(t, all, told)
    ensures var t' := Emit(t.(buffer := t.buffer + [delta]), AssistantDelta(delta)).(phase := YDelta);
            Balances(t, t', all, told)
  {
    ConcatAppend(t.buffer, delta);
    assert told + (Concat(t.buffer) + delta) == told + Concat(t.buffer) + delta;
  }

  lemma EndOfStreamBalances(l: Limits, t: Turn, all: string, told: string)
    requires t.phase.Streaming? && WholeFits(t, all, told)
    ensures Balances(t, EndOfStream(l, t), all, told) && !Unopened(EndOfStream(l, t).phase)
  {
    hide DistinctCalls, Concat;
    assert all + "" == all;
  }

  lemma StreamBalances(l: Limits, t: Turn, i: Input, all: string, told: string)
    requires t.phase.Streaming? && WholeFits(t, all, told)
    ensures Balances(t, Stream(l, t, i), all, told) && !Unopened(Stream(l, t, i).phase)
  {
    hide EndOfStream, Concat, WholeFits;
    var t' := Stream(l, t, i);
    EndOfStreamBalances(l, t, all, told);
    if i.ModelText? {
      DeltaBalances(t, i.text, all, told);
    }
    ComposedFits(t, all, told);
    if t'.phase.Persisting? || t'.phase.Streaming? {
      ComposedFits(t', all, told);
    }
  }

  lemma ExecuteBalances(t: Turn, i: Input, all: string, told: string)
    requires t.phase.Running? && WholeFits(t, all, told)
    ensures Balances(t, Execute(t, i), all, told) && !Unopened(Execute(t, i).phase)
  {
    assert all + "" == all;
  }

  lemma BeginRoundBalances(l: Limits, t: Turn, all: string, told: string)
    requires t.phase.RoundHead? && WholeFits(t, all, told)
    ensures Balances(t, BeginRound(l, t), all, told) && !Unopened(BeginRound(l, t).phase)
  {
    assert all + "" == all;
    assert Concat([]) == "" && told + "" == told;
    hide Concat;
  }

  lemma StartToolBalances(t: Turn, all: string, told: string)
    requires t.phase.NextTool? && WholeFits(t, all, told)
    ensures Balances(t, StartTool(t), all, told) && !Unopened(StartTool(t).phase)
  {
    hide Concat;
    assert all + "" == all;
  }

  lemma ContinueBalances(l: Limits, t: Turn, all: string, told: string)
    requires Silent(t.phase) && WholeFits(t, all, told)
    ensures Balances(t, Continue(l, t), all, told) && !Unopened(Continue(l, t).phase)
  {
    hide Concat, BeginRound, StartTool;
    assert all + "" == all;
    match t.phase
    case RoundHead => BeginRoundBalances(l, t, all, told);
    case NextTool => StartToolBalances(t, all, told);
    case _ =>
  }

  lemma PersistBalances(t: Turn, sessions: Sessions, busy: bool, all: string, told: string)
    requires t.phase.Persisting? && WholeFits(t, all, told)
    ensures var t' := Persist(t, sessions, busy).turn; Balances(t, t', all, told) && !Unopened(t'.phase)
  {
    hide Concat, Attempt, WholeFits, Settled;
    var m, t' := AssistantMessage(Concat(t.buffer), t.turnId, []), Persist(t, sessions, busy).turn;
    AttemptAppends(t, sessions, [m], busy);
    assert all + "" == all && told + "" == told;
    assert SaidIn(m) == Concat(t.buffer);
    ComposedFits(t, all, told);
    if t'.phase.YTerminal? {
      EndedFits(t', Heard(t, t', all), Said(t, t', told));
    } else if t'.phase.Persisting? {
      ComposedFits(t', Heard(t, t', all), Said(t, t', told));
    } else {
      GoneFits(t', Heard(t, t', all), Said(t, t', told));
    }
  }

  lemma GoneFits(t: Turn, all: string, told: string)
    requires t.phase.Gone?
    ensures WholeFits(t, all, told)
  {
  }

  lemma SaveReplyBalances(t: Turn, sessions: Sessions, busy: bool, all: string, told: string)
    requires t.phase.SavingReply? && WholeFits(t, all, told)
    ensures var t' := SaveReply(t, sessions, busy).turn; Balances(t, t', all, told) && !Unopened(t'.phase)
  {
    hide Concat, Attempt;
    var m := AssistantMessage(Concat(t.buffer), t.turnId, t.calls);
    AttemptAppends(t, sessions, [m], busy);
    assert all + "" == all;
    assert SaidIn(m) == Concat(t.buffer);
  }

  lemma AnnounceEmits(t: Turn, call: ToolCall)
    ensures var t' := Announce(t, call);
            exists k :: DeltaOf(k) == "" && t' == Emit(t, k).(phase := t'.phase) && (t'.phase.YEarth? || t'.phase.YToolDone?)
  {
    var k := if call.toolId == EARTH then EarthCommand else ToolCompleted(call);
    assert DeltaOf(k) == "";
    assert Announce(t, call) == Emit(t, k).(phase := Announce(t, call).phase);
  }

  lemma SaveResultBalances(t: Turn, sessions: Sessions, busy: bool, all: string, told: string)
    requires t.phase.SavingResult? && t.next < |t.calls| && WholeFits(t, all, told)
    ensures var t' := SaveResult(t, sessions, busy).turn; Balances(t, t', all, told) && !Unopened(t'.phase)
  {
    hide Attempt, Announce, WholeFits;
    var m, t' := ToolMessage(t.phase.content, t.turnId, t.calls[t.next]), SaveResult(t, sessions, busy).turn;
    AttemptAppends(t, sessions, [m], busy);
    var a := Attempt(t, sessions, [m], busy);
    if a.Some? {
      AnnounceEmits(a.value.turn.(next := t.next + 1), t.calls[t.next]);
    }
    assert all + "" == all && told + SaidIn(m) == told;
    SettledFits(t, all, told);
    SettledFits(t', Heard(t, t', all), Said(t, t', told));
  }

  lemma SaveFailureBalances(t: Turn, sessions: Sessions, busy: bool, all: string, told: string)
    requires t.phase.SavingFailure? && t.next < |t.calls| && WholeFits(t, all, told)
    ensures var t' := SaveFailure(t, sessions, busy).turn; Balances(t, t', all, told) && !Unopened(t'.phase)
  {
    hide Concat, Attempt;
    var m := ToolMessage(t.phase.content, t.turnId, t.calls[t.next]);
    AttemptAppends(t, sessions, [m], busy);
    assert all + "" == all && told + SaidIn(m) == told;
  }

  lemma NothingBuffered(t: Turn)
    requires TextOk(t) && t.phase.Opening?
    ensures t.buffer == []
    ensures WholeOk(t) ==> t.emitted == []
  {
  }

  lemma OpenIsWhole(t: Turn, sessions: Sessions, busy: bool)
    requires t.phase.Opening? && t.emitted == [] && t.buffer == []
    ensures WholeOk(Open(t, sessions, busy).turn)
  {
    hide Recovery, Attempt;
    var ms := Recovery(t.session.messages) + [UserMessage(t.prompt, t.turnId)];
    AttemptAppends(t, sessions, ms, busy);
    var t' := Open(t, sessions, busy).turn;
    if t'.phase.YStarted? {
      assert t'.session.messages[|t'.opening|..] == [];
      DeltasAppend([], t'.emitted[0], 0);
      assert [] + [t'.emitted[0]] == t'.emitted;
    }
  }

  lemma SavingIsWhole(t: Turn, sessions: Sessions, busy: bool)
    requires WholeOk(t) && (t.phase.Persisting? || t.phase.SavingReply?)
    ensures WholeOk(Operate(t, sessions, busy).turn)
  {
    hide Deltas, AssistantText, Balances, WholeFits, Persist, SaveReply;
    if t.phase.Persisting? {
      PersistBalances(t, sessions, busy, Deltas(t.emitted, 0), Told(t));
    } else {
      SaveReplyBalances(t, sessions, busy, Deltas(t.emitted, 0), Told(t));
    }
    BalanceIsWhole(t, Operate(t, sessions, busy).turn);
  }

  lemma AnsweringIsWhole(t: Turn, sessions: Sessions, busy: bool)
    requires WholeOk(t) && (t.phase.SavingResult? || t.phase.SavingFailure?)
    ensures WholeOk(Operate(t, sessions, busy).turn)
  {
    hide Deltas, AssistantText, Balances, WholeFits, SaveResult, SaveFailure;
    if t.next < |t.calls| {
      if t.phase.SavingResult? {
        SaveResultBalances(t, sessions, busy, Deltas(t.emitted, 0), Told(t));
      } else {
        SaveFailureBalances(t, sessions, busy, Deltas(t.emitted, 0), Told(t));
      }
      BalanceIsWhole(t, Operate(t, sessions, busy).turn);
    }
  }

  lemma OperateIsWhole(t: Turn, sessions: Sessions, busy: bool)
    requires WholeOk(t) && TextOk(t) && !Silent(t.phase) && !t.phase.Streaming? && !t.phase.Running?
    ensures WholeOk(Operate(t, sessions, busy).turn)
  {
    hide WholeOk, TextOk, Persist, SaveReply, SaveResult, SaveFailure, Open, Load, Shut, Recovery;
    match t.phase
    case Loading => EdgesAreWhole(t, sessions, busy);
    case Closing => EdgesAreWhole(t, sessions, busy);
    case Opening =>
      NothingBuffered(t);
      OpenIsWhole(t, sessions, busy);
    case Persisting(_, _) => SavingIsWhole(t, sessions, busy);
    case SavingReply => SavingIsWhole(t, sessions, busy);
    case SavingResult(_) => AnsweringIsWhole(t, sessions, busy);
    case SavingFailure(_) => AnsweringIsWhole(t, sessions, busy);
    case _ =>
  }

  lemma EdgesAreWhole(t: Turn, sessions: Sessions, busy: bool)
    requires WholeOk(t)
    ensures t.phase.Loading? ==> WholeOk(Load(t, sessions).turn)
    ensures t.phase.Closing? ==> WholeOk(Shut(t, sessions, busy).turn)
  {
    hide Deltas, AssistantText, WholeFits, Attempt, Concat;
  }

  lemma StepIsWhole(l: Limits, t: Turn, sessions: Sessions, i: Input)
    requires WholeOk(t) && TextOk(t)
    ensures WholeOk(TurnStep(l, t, sessions, i).turn)
  {
    hide Deltas, AssistantText, Balances, WholeFits, Stream, Execute, Continue, Operate, TextOk;
    if t.phase.Streaming? {
      StreamBalances(l, t, i, Deltas(t.emitted, 0), Told(t));
      BalanceIsWhole(t, Stream(l, t, i));
    } else if t.phase.Running? {
      ExecuteBalances(t, i, Deltas(t.emitted, 0), Told(t));
      BalanceIsWhole(t, Execute(t, i));
    } else if i.Go? && Silent(t.phase) {
      ContinueBalances(l, t, Deltas(t.emitted, 0), Told(t));
      BalanceIsWhole(t, Continue(l, t));
    } else if i.Go? {
      OperateIsWhole(t, sessions, i.busy);
    }
  }

  // --------------------------------------------------------------------- runs

  lemma WorldStepIsWhole(l: Limits, w: World, a: Action)
    requires forall t <- w.turns :: TextOk(t) && WholeOk(t)
    ensures forall t <- Do(l, w, a).turns :: WholeOk(t)
  {
    hide TextOk, Deltas, AssistantText;
    match a
    case Close(p) => if p < |w.turns| && Suspended(w.turns[p].phase) { assert WholeOk(w.turns[p]); }
    case Crash(p) => if p < |w.turns| { assert WholeOk(w.turns[p]); }
    case Cancel(p) => if p < |w.turns| { assert WholeOk(w.turns[p]); }
    case Advance(p, i) => if p < |w.turns| { StepIsWhole(l, w.turns[p], w.sessions, i); }
    case _ =>
  }

  lemma {:induction false} RunIsWhole(l: Limits, actions: seq<Action>)
    ensures forall t <- Exec(l, EMPTY, actions).turns :: WholeOk(t)
  {
    if actions != [] {
      var init := actions[..|actions| - 1];
      RunIsWhole(l, init);
      RunReported(l, init);
      hide Do, TextOk, WholeOk;
      WorldStepIsWhole(l, Exec(l, EMPTY, init), actions[|actions| - 1]);
    }
  }

  // ----------------------------------------------------------- in the store

  /** Everything that `ms` has the turn say. */
  function SaidBy(ms: seq<Message>, turnId: string): string {
    if ms == [] then ""
    else
      var m := ms[|ms| - 1];
      SaidBy(ms[..|ms| - 1], turnId) + if m.turnId == turnId then SaidIn(m) else ""
  }

  lemma {:induction false} SilenceAddsNothing(ms: seq<Message>, n: nat, turnId: string)
    requires n <= |ms| && forall k :: n <= k < |ms| && ms[k].turnId == turnId ==> ms[k].role != Assistant
    ensures SaidBy(ms, turnId) == SaidBy(ms[..n], turnId)
    decreases |ms|
  {
    if n == |ms| {
      assert ms[..n] == ms;
    } else {
      SilenceAddsNothing(ms[..|ms| - 1], n, turnId);
      assert ms[..|ms| - 1][..n] == ms[..n];
    }
  }

  lemma {:induction false} OwnWordsAreSaid(ms: seq<Message>, n: nat, turnId: string)
    requires n <= |ms| && Own(turnId, ms[n..])
    ensures SaidBy(ms, turnId) == SaidBy(ms[..n], turnId) + AssistantText(ms[n..])
    decreases |ms|
  {
    if n == |ms| {
      assert ms[..n] == ms && ms[n..] == [];
    } else {
      var init, last := ms[..|ms| - 1], ms[|ms| - 1];
      assert ms[n..] == init[n..] + [last] && init[..n] == ms[..n];
      assert Own(turnId, init[n..]) && (last.turnId == turnId || last.role == Tool) by {
        assert last in ms[n..] && forall m <- init[n..] :: m in ms[n..];
      }
      OwnWordsAreSaid(init, n, turnId);
      hide Own, AssistantText;
      AssistantTextAppend(init[n..], last);
      assert SaidBy(ms, turnId) == SaidBy(init, turnId) + SaidIn(last);
    }
  }

  /** Before its first save the turn has said nothing. */
  lemma OpeningIsSilent(l: Limits, t: Turn, n: int)
    requires OpenedOn(l, t, n)
    ensures SaidBy(t.opening, t.turnId) == ""
  {
    var base := t.opening[..n];
    RecoveryIsAnswers(l, t.turnId, base);
    hide Recovery, SaidBy;
    forall k | 0 <= k < |t.opening| && t.opening[k].turnId == t.turnId
      ensures t.opening[k].role != Assistant
    {
      if n <= k < |t.opening| - 1 { assert t.opening[k] == Recovery(base)[k - n]; }
    }
    SilenceAddsNothing(t.opening, 0, t.turnId);
    NothingIsSilent(t.opening[..0], t.turnId);
  }

  lemma NothingIsSilent(ms: seq<Message>, turnId: string)
    requires ms == []
    ensures SaidBy(ms, turnId) == ""
  {
  }

  /** A continuation of the turn's transcript has it say exactly what it told. */
  lemma ToldIsSaid(l: Limits, t: Turn, ms: seq<Message>)
    requires Opened(t) && OpeningOk(l, t) && Continues(t, ms)
    ensures SaidBy(ms, t.turnId) == Told(t)
  {
    hide AssistantText, SaidBy, OpenedOn, Own;
    var own, n := t.session.messages, |t.opening|;
    SilenceAddsNothing(ms, |own|, t.turnId);
    assert ms[..|own|] == own;
    OwnWordsAreSaid(own, n, t.turnId);
    var k :| OpenedOn(l, t, k);
    OpeningIsSilent(l, t, k);
    assert own[..n] == t.opening;
    assert "" + Told(t) == Told(t);
  }

  /** The turn's last event is an ending that drops its reply. */
  predicate DroppedReply(t: Turn) {
    t.emitted != [] && t.emitted[|t.emitted| - 1].kind.Ended? && Drops(t.emitted[|t.emitted| - 1].kind.ending)
  }

  /** Delivered, and so far only in the buffer. */
  function Unsaved(t: Turn): string {
    if Composing(t.phase) || DroppedReply(t) then Concat(t.buffer) else ""
  }

  lemma DropsAtEnd(t: Turn)
    requires EventsOk(t) && Going(t.phase)
    ensures DroppedReply(t) <==> t.phase.YTerminal? && Drops(t.phase.ending)
  {
    StreamShape(t.emitted);
  }

  lemma GoingIsBalanced(l: Limits, actions: seq<Action>, p: nat)
    requires p < |Exec(l, EMPTY, actions).turns| && Going(Exec(l, EMPTY, actions).turns[p].phase)
    ensures var t := Exec(l, EMPTY, actions).turns[p];
            Opened(t) && Deltas(t.emitted, 0) == Told(t) + Unsaved(t)
  {
    hide Exec, Deltas, AssistantText, Concat, Replay;
    RunIsWhole(l, actions);
    RunReported(l, actions);
    var t := Exec(l, EMPTY, actions).turns[p];
    assert t in Exec(l, EMPTY, actions).turns;
    DropsAtEnd(t);
    assert Told(t) + "" == Told(t);
  }

  /**
   * Nothing said is lost and nothing saved was unsaid: in every run, all the
   * text a turn has delivered, over all its rounds, is what the assistant
   * messages since its opening say, and what the stored transcript has it say,
   * whoever has saved since. While it composes, and after an ending that
   * drops its reply, the buffer holds the rest.
   */
  lemma WholeTextIsConserved(l: Limits, actions: seq<Action>, p: nat)
    requires p < |Exec(l, EMPTY, actions).turns|
    requires var phase := Exec(l, EMPTY, actions).turns[p].phase; Going(phase) || phase.Finished?
    ensures var w := Exec(l, EMPTY, actions);
            var t := w.turns[p];
            && Opened(t) && t.sessionId in w.sessions
            && Deltas(t.emitted, 0) == Told(t) + Unsaved(t)
            && Deltas(t.emitted, 0) == SaidBy(w.sessions[t.sessionId].messages, t.turnId) + Unsaved(t)
  {
    hide Exec, Deltas, AssistantText, Concat, SaidBy, OpeningOk;
    var k := |actions|;
    assert actions[..k] == actions;
    if Exec(l, EMPTY, actions).turns[p].phase.Finished? {
      k := FinishedWas(l, actions, p);
    }
    GoingIsBalanced(l, actions[..k], p);
    var w := Exec(l, EMPTY, actions);
    var t := w.turns[p];
    RunKept(l, actions);
    assert t in w.turns;
    TranscriptsAreStored(l, actions, [], p);
    ToldIsSaid(l, t, w.sessions[t.sessionId].messages);
  }
}
