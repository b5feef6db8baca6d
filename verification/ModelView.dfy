/**
 * What the reasoning model is given, read back from the provider payload: the
 * transcript itself, message by message, with the turn's images in place.
 */
module ModelView {
  import opened Options
  import opened Transcript
  import opened ModelContext
  import opened TurnProtocol
  import opened TurnRuns
  import opened TurnStore

  /** A message as the provider reads it. */
  datatype Shown = Shown(role: Role, text: string, calls: seq<ToolCall>, answers: Option<string>,
                         tool: Option<string>, images: seq<string>)

  function ReadBack(p: Payload): Shown {
    match p
    case ToolPayload(callId, result, name) => Shown(Role.Tool, result, [], Some(callId), name, [])
    case CallsPayload(remark, calls) => Shown(Role.Assistant, remark.GetOr(""), calls, None, None, [])
    case ImagesPayload(text, images) => Shown(Role.User, text, [], None, None, images)
    case TextPayload(role, text) => Shown(role, text, [], None, None, [])
  }

  /** An empty tool name is as good as none. */
  function Named(tool: Option<string>): Option<string> {
    if tool == Some("") then None else tool
  }

  /** `r` has the text of `m`, and everything that a message of its role can show. */
  predicate ReadsAs(r: Shown, m: Message) {
    && r.role == m.role && r.text == m.content
    && (m.role == Role.Assistant ==> r.calls == m.toolCalls)
    && (m.role == Role.Tool ==> r.answers == m.toolCallId && r.tool == Named(m.toolName))
    && (m.role == Role.User ==> r.images == m.images)
    && (m.role != Role.Assistant ==> r.calls == [])
    && (m.role != Role.Tool ==> r.answers.None? && r.tool.None?)
    && (m.role != Role.User ==> r.images == [])
  }

  lemma PayloadReadsAs(m: Message)
    requires m.role == Role.Tool ==> m.toolCallId.Some?
    ensures MessagePayload(m).Some? && ReadsAs(ReadBack(MessagePayload(m).value), m)
  {
  }

  /** Translation is refused exactly when a tool message has no call ID, and else loses nothing and keeps the order. */
  lemma {:induction false} PayloadsReadBack(ms: seq<Message>)
    ensures Payloads(ms).Some? <==> forall m <- ms :: m.role == Role.Tool ==> m.toolCallId.Some?
    ensures Payloads(ms).Some? ==>
              && |Payloads(ms).value| == |ms|
              && forall k :: 0 <= k < |ms| ==> ReadsAs(ReadBack(Payloads(ms).value[k]), ms[k])
  {
    if ms != [] {
      var init, last := ms[..|ms| - 1], ms[|ms| - 1];
      PayloadsReadBack(init);
      assert ms == init + [last];
      if last.role == Role.Tool ==> last.toolCallId.Some? {
        PayloadReadsAs(last);
      }
      hide MessagePayload, ReadsAs;
    }
  }

  /** Of a message of its role, the reading is every field. */
  predicate ReadsWhole(r: Shown, m: Message, images: seq<string>) {
    r == Shown(m.role, m.content, m.toolCalls, m.toolCallId, Named(m.toolName), images)
  }

  lemma ReadsOfItsRole(r: Shown, m: Message, shown: Message)
    requires OfItsRole(m) && shown == m.(images := shown.images) && (m.role != Role.User ==> shown.images == [])
    requires ReadsAs(r, shown)
    ensures ReadsWhole(r, m, shown.images)
  {
  }

  lemma OwnTranscriptIsPlain(l: Limits, actions: seq<Action>, p: nat)
    requires p < |Exec(l, EMPTY, actions).turns|
    ensures forall m <- Exec(l, EMPTY, actions).turns[p].session.messages :: OfItsRole(m)
  {
    RunKept(l, actions);
    var w := Exec(l, EMPTY, actions);
    assert w.turns[p] in w.turns;
    OpeningIsBounded(l, w.turns[p], w.sessions);
  }

  /**
   * Whenever any turn of any run streams, what its model is given reads back,
   * message by message, as the transcript from the start of a turn on: role,
   * text, calls, answered call and tool, with the turn's images on its own
   * user message and nowhere else.
   */
  lemma ModelSeesTranscript(l: Limits, actions: seq<Action>, p: nat, images: seq<string>)
    requires l.maxContext >= 1
    requires p < |Exec(l, EMPTY, actions).turns| && Exec(l, EMPTY, actions).turns[p].phase.Streaming?
    ensures var t := Exec(l, EMPTY, actions).turns[p];
            var ms, context := t.session.messages, Context(t.session.messages, l.maxContext, Some(t.turnId), images);
            && Payloads(context).Some?
            && exists cut :: ContextBegins(ms, l.maxContext, Some(t.turnId), images, cut)
                             && GivesSuffix(Payloads(context).value, ms, cut, t.turnId, images)
  {
    hide Exec, Parse, Payloads, ContextBegins, GivesSuffix;
    ModelAlwaysSeesClosedContext(l, actions, p, images);
    OwnTranscriptIsPlain(l, actions, p);
    var t := Exec(l, EMPTY, actions).turns[p];
    var ms := t.session.messages;
    var cut :| ContextBegins(ms, l.maxContext, Some(t.turnId), images, cut);
    ContextGivesSuffix(ms, l.maxContext, t.turnId, images, cut);
  }

  lemma ContextGivesSuffix(ms: seq<Message>, maxTurns: nat, turnId: string, images: seq<string>, cut: int)
    requires ContextBegins(ms, maxTurns, Some(turnId), images, cut) && forall m <- ms :: OfItsRole(m)
    requires Payloads(Context(ms, maxTurns, Some(turnId), images)).Some?
    ensures GivesSuffix(Payloads(Context(ms, maxTurns, Some(turnId), images)).value, ms, cut, turnId, images)
  {
    hide Parse, ReadsAs, OfItsRole, Payloads, Presented, Context, GivesMessage;
    var context := Context(ms, maxTurns, Some(turnId), images);
    PayloadsReadBack(context);
    forall k | 0 <= k < |context|
      ensures GivesMessage(Payloads(context).value, ms, cut, turnId, images, k)
    {
      assert ms[cut..][k] == ms[cut + k] && ms[cut + k] in ms;
      OneMessageGiven(Payloads(context).value, ms, cut, turnId, images, k, context[k]);
    }
  }

  lemma OneMessageGiven(ps: seq<Payload>, ms: seq<Message>, cut: int, turnId: string, images: seq<string>, k: nat,
                        shown: Message)
    requires 0 <= cut && k < |ps| && cut + k < |ms| && OfItsRole(ms[cut + k])
    requires shown == Presented(ms[cut + k], Some(turnId), images) && ReadsAs(ReadBack(ps[k]), shown)
    ensures GivesMessage(ps, ms, cut, turnId, images, k)
  {
    hide OfItsRole, ReadsAs, ReadBack;
    PresentedAsShown(ms[cut + k], turnId, images);
    ReadsOfItsRole(ReadBack(ps[k]), ms[cut + k], shown);
  }

  lemma PresentedAsShown(m: Message, turnId: string, images: seq<string>)
    requires OfItsRole(m)
    ensures var shown := Presented(m, Some(turnId), images);
            && shown == m.(images := shown.images) && (m.role != Role.User ==> shown.images == [])
            && shown.images == if m.role == Role.User && m.turnId == turnId then images else []
  {
  }

  /** Payload `k` is message `cut + k`, with the images if that is the current turn's question. */
  predicate GivesMessage(ps: seq<Payload>, ms: seq<Message>, cut: int, turnId: string, images: seq<string>, k: nat) {
    && 0 <= cut && k < |ps| && cut + k < |ms|
    && var m := ms[cut + k];
       ReadsWhole(ReadBack(ps[k]), m, if m.role == Role.User && m.turnId == turnId then images else [])
  }

  ghost predicate GivesSuffix(ps: seq<Payload>, ms: seq<Message>, cut: int, turnId: string, images: seq<string>) {
    |ps| == |ms| - cut && forall k :: 0 <= k < |ps| ==> GivesMessage(ps, ms, cut, turnId, images, k)
  }
}
