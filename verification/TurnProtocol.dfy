/**
 * One conversational turn as a state machine.
 *
 * A step is what `stream_turn` does between two points where something else may
 * happen: a suspension of the generator, or one operation of the session store,
 * which other services share. The environment chooses every input.
 */
module TurnProtocol {
  import opened Options
  import opened Transcript
  import opened SessionStore

  const EXECUTE: string := "investigation.execute"
  const EARTH: string := "earth.command"

  /** Error results whose wording is not modelled. */
  const UNAUTHORIZED: string := "unauthorized"
  const STORE_ERROR: string := "conflict"

  datatype Limits = Limits(maxRounds: nat, maxCalls: nat, maxContext: nat)

  /** The kinds of terminal event; `agent.error` is split by its code. */
  datatype Ending =
    | Completed | Cancelled | TimedOut | ModelFailed
    | DuplicateCallIds | CallBudget | EmptyReply | RoundLimit

  datatype Kind =
    | TurnStarted
    | AssistantDelta(text: string)
    | ToolStarted(call: ToolCall)
    | Progress(item: string)
    | EarthCommand
    | ToolCompleted(call: ToolCall)
    | ToolFailed(call: ToolCall)
    | Ended(ending: Ending)

  datatype Event = Event(sequence: nat, kind: Kind)

  /** `Y…` phases are suspended at a yield; `Saving…` ones are about to call the store. */
  datatype Phase =
    | Loading
    | Opening
    | YStarted
    | RoundHead
    | Streaming
    | YDelta
    | Persisting(ending: Ending, retry: bool)
    | SavingReply
    | YTerminal(ending: Ending)
    | NextTool
    | YToolStarted
    | Running
    | YProgress
    | SavingResult(content: string)
    | SavingFailure(content: string)
    | YEarth(call: ToolCall)
    | YToolDone
    | Closing
    | Finished
    | Gone

  /** Local variables of the generator, then history that only the proofs read. */
  datatype Turn = Turn(
    turnId: string,
    sessionId: string,
    prompt: string,
    authorized: bool,
    phase: Phase,
    session: Session,
    cancelled: bool,
    round: nat,
    used: nat,
    buffer: seq<string>,
    calls: seq<ToolCall>,
    next: nat,
    sequence: nat,
    emitted: seq<Event>,
    opening: seq<Message>,
    roundStart: seq<Message>,
    roundMark: nat)

  function NewTurn(turnId: string, sessionId: string, prompt: string, authorized: bool): Turn {
    Turn(turnId, sessionId, prompt, authorized, Loading, Session(sessionId, 1, [], {}), false,
         0, 0, [], [], 0, 0, [], [], [], 0)
  }

  /** `busy` is a store that raises for reasons of its own (a locked database). */
  datatype Input =
    | Go(busy: bool)
    | ModelText(text: string)
    | ModelCall(call: ToolCall)
    | ModelDone
    | ModelStop
    | ModelTimeout
    | ModelError
    | ToolProgress(item: string)
    | ToolReturned(content: string, ids: set<string>)
    | ToolRaised(content: string, ids: set<string>)

  datatype Outcome = Outcome(turn: Turn, sessions: Sessions, saved: bool)

  function Concat(parts: seq<string>): string {
    if parts == [] then "" else Concat(parts[..|parts| - 1]) + parts[|parts| - 1]
  }

  function Emit(t: Turn, kind: Kind): Turn {
    t.(sequence := t.sequence + 1, emitted := t.emitted + [Event(t.sequence + 1, kind)])
  }

  function Terminate(t: Turn, ending: Ending): Turn {
    Emit(t, Ended(ending)).(phase := YTerminal(ending))
  }

  /** Save the local session with `ms` appended; `None` is any exception of the store. */
  function Attempt(t: Turn, sessions: Sessions, ms: seq<Message>, busy: bool): Option<Outcome> {
    if busy then None
    else
      var (after, r) := Swap(sessions, t.session.(messages := t.session.messages + ms), t.session.revision);
      match r
      case Saved(session) => Some(Outcome(t.(session := session), after, true))
      case _ => None
  }

  function Quiet(t: Turn, sessions: Sessions): Outcome {
    Outcome(t, sessions, false)
  }

  function Fail(t: Turn, sessions: Sessions): Outcome {
    Quiet(t.(phase := Gone), sessions)
  }

  // ------------------------------------------------------------ the segments

  function Load(t: Turn, sessions: Sessions): Outcome {
    if t.sessionId in sessions then Quiet(t.(session := sessions[t.sessionId], phase := Opening), sessions)
    else Fail(t, sessions)
  }

  ghost function Open(t: Turn, sessions: Sessions, busy: bool): Outcome {
    var ms := Recovery(t.session.messages) + [UserMessage(t.prompt, t.turnId)];
    match Attempt(t, sessions, ms, busy)
    case None => Fail(t, sessions)
    case Some(o) =>
      o.(turn := Emit(o.turn, TurnStarted).(phase := YStarted, opening := o.turn.session.messages))
  }

  function BeginRound(l: Limits, turn: Turn): Turn {
    var t := turn.(roundStart := turn.session.messages, roundMark := |turn.emitted|);
    if t.round >= l.maxRounds then Terminate(t, RoundLimit)
    else if t.cancelled then t.(phase := Persisting(Cancelled, false))
    else t.(phase := Streaming, buffer := [], calls := [], next := 0)
  }

  /** After the model stream has ended: cancellation, then the reply's validity. */
  function EndOfStream(l: Limits, t: Turn): Turn {
    if t.cancelled then t.(phase := Persisting(Cancelled, false))
    else if !DistinctCalls(t.calls) then Terminate(t, DuplicateCallIds)
    else if |t.calls| > l.maxCalls - t.used then t.(phase := Persisting(CallBudget, false))
    else if t.buffer == [] && t.calls == [] then Terminate(t, EmptyReply)
    else t.(phase := SavingReply)
  }

  function Stream(l: Limits, t: Turn, i: Input): Turn {
    match i
    case ModelTimeout => t.(cancelled := true, phase := Persisting(TimedOut, false))
    case ModelError => t.(phase := Persisting(ModelFailed, false))
    case ModelStop => EndOfStream(l, t)
    case ModelText(text) =>
      if t.cancelled then t.(phase := Persisting(Cancelled, true))
      else if text == "" then t
      else Emit(t.(buffer := t.buffer + [text]), AssistantDelta(text)).(phase := YDelta)
    case ModelCall(call) =>
      if t.cancelled then t.(phase := Persisting(Cancelled, true)) else t.(calls := t.calls + [call])
    case ModelDone =>
      if t.cancelled then t.(phase := Persisting(Cancelled, true)) else EndOfStream(l, t)
    case _ => t
  }

  /** `persist_partial_assistant`, then the terminal event. */
  function Persist(t: Turn, sessions: Sessions, busy: bool): Outcome
    requires t.phase.Persisting?
  {
    if Concat(t.buffer) == "" then Quiet(Terminate(t, t.phase.ending), sessions)
    else
      match Attempt(t, sessions, [AssistantMessage(Concat(t.buffer), t.turnId, [])], busy)
      case Some(o) => o.(turn := Terminate(o.turn, t.phase.ending))
      case None =>
        if t.phase.retry then Quiet(t.(phase := Persisting(ModelFailed, false)), sessions) else Fail(t, sessions)
  }

  /** The turn after its reply was saved: complete, or with calls to run. */
  function AfterReply(t: Turn): Turn {
    if t.calls == [] then Terminate(t, Completed) else t.(buffer := [], next := 0, phase := NextTool)
  }

  function SaveReply(t: Turn, sessions: Sessions, busy: bool): Outcome {
    match Attempt(t, sessions, [AssistantMessage(Concat(t.buffer), t.turnId, t.calls)], busy)
    case None => Fail(t, sessions)
    case Some(o) => o.(turn := AfterReply(o.turn))
  }

  function StartTool(t: Turn): Turn {
    if t.next >= |t.calls| then t.(round := t.round + 1, phase := RoundHead)
    else if t.cancelled then Terminate(t, Cancelled)
    else Emit(t.(used := t.used + 1), ToolStarted(t.calls[t.next])).(phase := YToolStarted)
  }

  function Dispatch(t: Turn): Turn {
    if t.next < |t.calls| && t.calls[t.next].toolId == EXECUTE && !t.authorized
    then t.(phase := SavingFailure(UNAUTHORIZED))
    else t.(phase := Running)
  }

  /** Investigations named in a result join the session, except for presentation commands. */
  function Link(t: Turn, ids: set<string>): Turn {
    if t.next < |t.calls| && t.calls[t.next].toolId == EARTH then t
    else t.(session := t.session.(investigationIds := t.session.investigationIds + ids))
  }

  function Execute(t: Turn, i: Input): Turn {
    match i
    case ToolProgress(item) =>
      if t.next < |t.calls| && t.calls[t.next].toolId == EXECUTE then Emit(t, Progress(item)).(phase := YProgress) else t
    case ToolReturned(content, ids) => Link(t, ids).(phase := SavingResult(content))
    case ToolRaised(content, ids) => Link(t, ids).(phase := SavingFailure(content))
    case _ => t
  }

  /** The presentation command, if any, is announced before the completion. */
  function Announce(t: Turn, call: ToolCall): Turn {
    if call.toolId == EARTH then Emit(t, EarthCommand).(phase := YEarth(call))
    else Emit(t, ToolCompleted(call)).(phase := YToolDone)
  }

  function SaveResult(t: Turn, sessions: Sessions, busy: bool): Outcome
    requires t.phase.SavingResult? && t.next < |t.calls|
  {
    var call := t.calls[t.next];
    match Attempt(t, sessions, [ToolMessage(t.phase.content, t.turnId, call)], busy)
    case None => Quiet(t.(phase := SavingFailure(STORE_ERROR)), sessions)
    case Some(o) => o.(turn := Announce(o.turn.(next := t.next + 1), call))
  }

  function SaveFailure(t: Turn, sessions: Sessions, busy: bool): Outcome
    requires t.phase.SavingFailure? && t.next < |t.calls|
  {
    var call := t.calls[t.next];
    match Attempt(t, sessions, [ToolMessage(t.phase.content, t.turnId, call)], busy)
    case None => Fail(t, sessions)
    case Some(o) => o.(turn := Emit(o.turn.(next := t.next + 1), ToolFailed(call)).(phase := YToolDone))
  }

  /** The handler for a closed or cancelled generator. */
  function Shut(t: Turn, sessions: Sessions, busy: bool): Outcome {
    if Concat(t.buffer) == "" then Fail(t, sessions)
    else
      match Attempt(t, sessions, [AssistantMessage(Concat(t.buffer), t.turnId, [])], busy)
      case None => Fail(t, sessions)
      case Some(o) => o.(turn := o.turn.(phase := Gone))
  }

  /** Phases whose next step touches neither the store nor the model nor a tool. */
  predicate Silent(p: Phase) {
    p.YStarted? || p.RoundHead? || p.YDelta? || p.YTerminal? || p.NextTool? || p.YToolStarted? ||
    p.YProgress? || p.YEarth? || p.YToolDone?
  }

  function Continue(l: Limits, t: Turn): Turn
    requires Silent(t.phase)
  {
    match t.phase
    case YStarted => t.(phase := RoundHead)
    case RoundHead => BeginRound(l, t)
    case YDelta => t.(phase := Streaming)
    case YTerminal(_) => t.(phase := Finished)
    case NextTool => StartTool(t)
    case YToolStarted => Dispatch(t)
    case YProgress => t.(phase := Running)
    case YEarth(call) => Emit(t, ToolCompleted(call)).(phase := YToolDone)
    case YToolDone => t.(phase := NextTool)
  }

  /** Steps that call the store. */
  ghost function Operate(t: Turn, sessions: Sessions, busy: bool): Outcome {
    match t.phase
    case Loading => Load(t, sessions)
    case Opening => Open(t, sessions, busy)
    case Persisting(_, _) => Persist(t, sessions, busy)
    case SavingReply => SaveReply(t, sessions, busy)
    case SavingResult(_) => if t.next < |t.calls| then SaveResult(t, sessions, busy) else Quiet(t, sessions)
    case SavingFailure(_) => if t.next < |t.calls| then SaveFailure(t, sessions, busy) else Quiet(t, sessions)
    case Closing => Shut(t, sessions, busy)
    case _ => Quiet(t, sessions)
  }

  /** Inputs that do not belong to the phase leave the turn alone. */
  ghost function TurnStep(l: Limits, t: Turn, sessions: Sessions, i: Input): Outcome {
    if t.phase.Streaming? then Quiet(Stream(l, t, i), sessions)
    else if t.phase.Running? then Quiet(Execute(t, i), sessions)
    else if !i.Go? then Quiet(t, sessions)
    else if Silent(t.phase) then Quiet(Continue(l, t), sessions)
    else Operate(t, sessions, i.busy)
  }

  /** Where the consumer can close the generator, or its task be cancelled. */
  predicate Suspended(p: Phase) {
    p.YStarted? || p.Streaming? || p.YDelta? || p.YTerminal? || p.YToolStarted? || p.Running? ||
    p.YProgress? || p.YEarth? || p.YToolDone?
  }

  // ------------------------------------------------- many turns, one store

  /** One successful save, in order. */
  datatype Commit = Commit(writer: string, session: Session)

  /**
   * `admitted` are the turns that have saved their opening; `log` lists every
   * successful save. Both are history.
   */
  datatype World = World(sessions: Sessions, turns: seq<Turn>, admitted: set<string>, log: seq<Commit>)

  const EMPTY: World := World(map[], [], {}, [])

  /**
   * `turnId` is drawn by `uuid4` in the source; a `Begin` with an ID already
   * in use is not an action. Any number of turns may run on a session.
   */
  datatype Action =
    | CreateSession(id: string)
    | Begin(turnId: string, sessionId: string, prompt: string, authorized: bool)
    | Cancel(p: nat)
    | Close(p: nat)
    | Crash(p: nat)
    | Advance(p: nat, input: Input)

  predicate Fresh(w: World, turnId: string) {
    forall t <- w.turns :: t.turnId != turnId
  }

  ghost function Do(l: Limits, w: World, a: Action): World {
    match a
    case CreateSession(id) =>
      if id in w.sessions then w else w.(sessions := w.sessions[id := Session(id, 1, [], {})])
    case Begin(turnId, sessionId, prompt, authorized) =>
      if Fresh(w, turnId) then w.(turns := w.turns + [NewTurn(turnId, sessionId, prompt, authorized)]) else w
    case Cancel(p) =>
      if p < |w.turns| then w.(turns := w.turns[p := w.turns[p].(cancelled := true)]) else w
    case Close(p) =>
      if p < |w.turns| && Suspended(w.turns[p].phase)
      then w.(turns := w.turns[p := w.turns[p].(cancelled := true, phase := Closing)])
      else w
    case Crash(p) =>
      if p < |w.turns| then w.(turns := w.turns[p := w.turns[p].(phase := Gone)]) else w
    case Advance(p, input) =>
      if p < |w.turns| then
        var o := TurnStep(l, w.turns[p], w.sessions, input);
        w.(sessions := o.sessions, turns := w.turns[p := o.turn],
           admitted := if o.saved then w.admitted + {o.turn.turnId} else w.admitted,
           log := if o.saved then w.log + [Commit(o.turn.turnId, o.turn.session)] else w.log)
      else w
  }

  ghost function Exec(l: Limits, w: World, actions: seq<Action>): World {
    if actions == [] then w
    else Do(l, Exec(l, w, actions[..|actions| - 1]), actions[|actions| - 1])
  }
}
