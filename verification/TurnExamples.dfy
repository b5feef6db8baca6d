/** Two short runs: one whose turn loses text it has delivered, one whose close saves it twice. */
module TurnExamples {
  import opened Transcript
  import opened SessionStore
  import opened TurnProtocol
  import opened TurnText
  import opened TurnReports

  const CALL: ToolCall := ToolCall("c", "t", "{}")

  const ASKED: Message := UserMessage("", "t")

  const GO: Action := Advance(0, Go(false))

  /** A session, a turn on it, and the four steps up to its model stream. */
  const PROLOGUE: seq<Action> := [CreateSession("s"), Begin("t", "s", "", false)] + [GO, GO, GO, GO]

  /** The model says "a". */
  const SPOKEN: seq<Action> := PROLOGUE + [Advance(0, ModelText("a")), GO]

  const ASKS_TWICE: seq<Action> := SPOKEN + [Advance(0, ModelCall(CALL)), Advance(0, ModelCall(CALL))]

  const REPLIED: seq<Action> := SPOKEN + [Advance(0, ModelDone), GO]

  /** The one turn of these runs, in its only round. */
  function TurnAt(phase: Phase, ms: seq<Message>, buffer: seq<string>, calls: seq<ToolCall>, es: seq<Event>): Turn {
    Turn("t", "s", "", false, phase, Session("s", |ms| + 1, ms, {}), false, 0, 0, buffer, calls, 0,
         |es|, es, [ASKED], [ASKED], 1)
  }

  const TOLD: seq<Event> := [Event(1, TurnStarted), Event(2, AssistantDelta("a"))]

  function EndedBy(e: Ending): seq<Event> {
    TOLD + [Event(3, Ended(e))]
  }

  /** The world holds this turn and the session as it last saved it. */
  ghost predicate Holds(l: Limits, actions: seq<Action>, t: Turn, ms: seq<Message>) {
    Exec(l, EMPTY, actions).turns == [t] &&
    Exec(l, EMPTY, actions).sessions == map["s" := Session("s", |ms| + 1, ms, {})]
  }

  predicate StoreHolds(w: World, ms: seq<Message>) {
    "s" in w.sessions && w.sessions["s"].messages == ms
  }

  lemma OneMore(l: Limits, actions: seq<Action>, a: Action)
    ensures Exec(l, EMPTY, actions + [a]) == Do(l, Exec(l, EMPTY, actions), a)
  {
    assert (actions + [a])[..|actions|] == actions;
  }

  /** One step of the only turn. */
  lemma Moves(l: Limits, actions: seq<Action>, t: Turn, ms: seq<Message>, i: Input, t': Turn, ms': seq<Message>)
    requires Holds(l, actions, t, ms)
    requires var o := TurnStep(l, t, map["s" := Session("s", |ms| + 1, ms, {})], i);
             o.turn == t' && o.sessions == map["s" := Session("s", |ms'| + 1, ms', {})]
    ensures Holds(l, actions + [Advance(0, i)], t', ms')
  {
    hide TurnStep, Exec;
    OneMore(l, actions, Advance(0, i));
  }

  lemma Prologue(l: Limits)
    requires l.maxRounds >= 1
    ensures Holds(l, PROLOGUE, TurnAt(Streaming, [ASKED], [], [], TOLD[..1]), [ASKED])
  {
    var begun := [CreateSession("s"), Begin("t", "s", "", false)];
    var t := NewTurn("t", "s", "", false);
    Begun(l);
    hide Exec, Holds, Recovery;
    NothingToRecover();
    var loaded := t.(phase := Opening);
    Moves(l, begun, t, [], Go(false), loaded, []);
    var ready := TurnAt(YStarted, [ASKED], [], [], TOLD[..1]).(roundStart := [], roundMark := 0);
    assert [] + ([] + [ASKED]) == [ASKED];
    Moves(l, begun + [GO], loaded, [], Go(false), ready, [ASKED]);
    Moves(l, begun + [GO] + [GO], ready, [ASKED], Go(false), ready.(phase := RoundHead), [ASKED]);
    Moves(l, begun + [GO] + [GO] + [GO], ready.(phase := RoundHead), [ASKED], Go(false),
          TurnAt(Streaming, [ASKED], [], [], TOLD[..1]), [ASKED]);
    assert begun + [GO] + [GO] + [GO] + [GO] == PROLOGUE;
  }

  lemma Begun(l: Limits)
    ensures Holds(l, [CreateSession("s"), Begin("t", "s", "", false)], NewTurn("t", "s", "", false), [])
  {
    OneMore(l, [], CreateSession("s"));
    OneMore(l, [CreateSession("s")], Begin("t", "s", "", false));
    assert [] + [CreateSession("s")] == [CreateSession("s")];
    assert [CreateSession("s")] + [Begin("t", "s", "", false)] == [CreateSession("s"), Begin("t", "s", "", false)];
  }

  lemma NothingToRecover()
    ensures Recovery([]) == []
  {
    RecoveryClosesTranscript([]);
  }

  lemma Spoken(l: Limits)
    requires l.maxRounds >= 1
    ensures Holds(l, SPOKEN, TurnAt(Streaming, [ASKED], ["a"], [], TOLD), [ASKED])
  {
    Prologue(l);
    hide Exec, Holds;
    var t := TurnAt(Streaming, [ASKED], [], [], TOLD[..1]);
    assert [] + ["a"] == ["a"] && TOLD[..1] + [TOLD[1]] == TOLD;
    Moves(l, PROLOGUE, t, [ASKED], ModelText("a"), TurnAt(YDelta, [ASKED], ["a"], [], TOLD), [ASKED]);
    Moves(l, PROLOGUE + [Advance(0, ModelText("a"))], TurnAt(YDelta, [ASKED], ["a"], [], TOLD), [ASKED], Go(false),
          TurnAt(Streaming, [ASKED], ["a"], [], TOLD), [ASKED]);
    assert PROLOGUE + [Advance(0, ModelText("a"))] + [GO] == SPOKEN;
  }

  lemma SpokenText(t: Turn)
    requires t.emitted == TOLD && t.roundMark == 1
    ensures Delivered(t) == "a"
  {
    assert TOLD == TOLD[..1] + [TOLD[1]] && TOLD[..1] == TOLD[..1];
    DeltasAppend(TOLD[..1], TOLD[1], 1);
    assert "" + "a" == "a";
  }

  lemma AskedTwice(l: Limits)
    requires l.maxRounds >= 1
    ensures Holds(l, ASKS_TWICE, TurnAt(Streaming, [ASKED], ["a"], [CALL, CALL], TOLD), [ASKED])
  {
    Spoken(l);
    hide Exec, Holds;
    var once := TurnAt(Streaming, [ASKED], ["a"], [CALL], TOLD);
    assert [] + [CALL] == [CALL] && [CALL] + [CALL] == [CALL, CALL];
    Moves(l, SPOKEN, TurnAt(Streaming, [ASKED], ["a"], [], TOLD), [ASKED], ModelCall(CALL), once, [ASKED]);
    Moves(l, SPOKEN + [Advance(0, ModelCall(CALL))], once, [ASKED], ModelCall(CALL),
          TurnAt(Streaming, [ASKED], ["a"], [CALL, CALL], TOLD), [ASKED]);
    assert SPOKEN + [Advance(0, ModelCall(CALL))] + [Advance(0, ModelCall(CALL))] == ASKS_TWICE;
  }

  lemma Rejected(l: Limits)
    requires l.maxRounds >= 1
    ensures Holds(l, ASKS_TWICE + [Advance(0, ModelStop)],
                  TurnAt(YTerminal(DuplicateCallIds), [ASKED], ["a"], [CALL, CALL], EndedBy(DuplicateCallIds)), [ASKED])
  {
    AskedTwice(l);
    hide Exec, Holds;
    var t := TurnAt(Streaming, [ASKED], ["a"], [CALL, CALL], TOLD);
    assert t.calls[0].callId == t.calls[1].callId;
    Moves(l, ASKS_TWICE, t, [ASKED], ModelStop,
          TurnAt(YTerminal(DuplicateCallIds), [ASKED], ["a"], [CALL, CALL], EndedBy(DuplicateCallIds)), [ASKED]);
  }

  lemma EndingText(t: Turn, e: Ending)
    requires t.emitted == EndedBy(e) && t.roundMark == 1
    ensures Delivered(t) == "a"
  {
    hide Deltas;
    SpokenText(t.(emitted := TOLD));
    DeltasAppend(TOLD, Event(3, Ended(e)), 1);
    assert "a" + "" == "a";
  }

  /**
   * The model says "a", asks for one call twice and stops: the turn ends, and
   * the store has the question and nothing else.
   */
  lemma TextIsDropped(l: Limits)
    requires l.maxRounds >= 1
    ensures var w := Exec(l, EMPTY, ASKS_TWICE);
            && |w.turns| == 1 && w.turns[0].phase.Streaming? && !w.turns[0].cancelled
            && !DistinctCalls(w.turns[0].calls) && Delivered(w.turns[0]) == "a"
    ensures var w := Exec(l, EMPTY, ASKS_TWICE + [Advance(0, ModelStop)]);
            && |w.turns| == 1 && w.turns[0].phase == YTerminal(DuplicateCallIds) && Delivered(w.turns[0]) == "a"
            && StoreHolds(w, [ASKED])
  {
    AskedTwice(l);
    Rejected(l);
    hide Exec, Deltas;
    var t := TurnAt(Streaming, [ASKED], ["a"], [CALL, CALL], TOLD);
    SpokenText(t);
    assert t.calls[0].callId == t.calls[1].callId;
    EndingText(TurnAt(YTerminal(DuplicateCallIds), [ASKED], ["a"], [CALL, CALL], EndedBy(DuplicateCallIds)), DuplicateCallIds);
  }

  lemma Replied(l: Limits)
    requires l.maxRounds >= 1
    ensures var said := [ASKED, AssistantMessage("a", "t", [])];
            Holds(l, REPLIED, TurnAt(YTerminal(Completed), said, ["a"], [], EndedBy(Completed)), said)
  {
    Spoken(l);
    hide Exec, Holds;
    var said := [ASKED, AssistantMessage("a", "t", [])];
    var saving := TurnAt(SavingReply, [ASKED], ["a"], [], TOLD);
    assert Concat(["a"]) == "a" by { assert ["a"][..0] == [] && "" + "a" == "a"; }
    assert [ASKED] + [AssistantMessage("a", "t", [])] == said;
    Moves(l, SPOKEN, TurnAt(Streaming, [ASKED], ["a"], [], TOLD), [ASKED], ModelDone, saving, [ASKED]);
    Moves(l, SPOKEN + [Advance(0, ModelDone)], saving, [ASKED], Go(false),
          TurnAt(YTerminal(Completed), said, ["a"], [], EndedBy(Completed)), said);
    assert SPOKEN + [Advance(0, ModelDone)] + [GO] == REPLIED;
  }

  lemma SavedAgain(l: Limits, w: World, t: Turn, said: seq<Message>)
    requires w.turns == [t] && w.sessions == map["s" := Session("s", |said| + 1, said, {})]
    requires t == TurnAt(YTerminal(Completed), said, ["a"], [], EndedBy(Completed))
    ensures StoreHolds(ClosedNow(l, w, 0), said + [AssistantMessage("a", "t", [])])
  {
    var closing := t.(cancelled := true, phase := Closing);
    assert Concat(["a"]) == "a" by { assert ["a"][..0] == [] && "" + "a" == "a"; }
    hide Concat;
    assert Do(l, w, Close(0)).turns == [closing];
  }

  /**
   * The model says "a" and is done, the reply is saved, and the turn is closed
   * at its terminal event: the store has the reply twice.
   */
  lemma TextIsRepeated(l: Limits)
    requires l.maxRounds >= 1
    ensures var w := Exec(l, EMPTY, REPLIED);
            && Current(w, 0) && w.turns[0].phase == YTerminal(Completed) && Delivered(w.turns[0]) == "a"
            && StoreHolds(w, [ASKED, AssistantMessage("a", "t", [])])
            && StoreHolds(ClosedNow(l, w, 0), [ASKED, AssistantMessage("a", "t", []), AssistantMessage("a", "t", [])])
  {
    Replied(l);
    hide Exec, Deltas, ClosedNow;
    var said := [ASKED, AssistantMessage("a", "t", [])];
    var t := TurnAt(YTerminal(Completed), said, ["a"], [], EndedBy(Completed));
    EndingText(t, Completed);
    SavedAgain(l, Exec(l, EMPTY, REPLIED), t, said);
    assert said + [AssistantMessage("a", "t", [])] == [ASKED, AssistantMessage("a", "t", []), AssistantMessage("a", "t", [])];
  }
}
