/**
 * Persisted agent transcripts: what a well-formed one is, how a new turn
 * recovers the calls an interrupted turn left open, and which suffix of a
 * transcript a reasoning model is shown.
 */
module Transcript {
  import opened Options
  import opened CallOrder

  datatype Role = User | Assistant | Tool

  /** `arguments` stands for the call's JSON object, which nothing here inspects. */
  datatype ToolCall = ToolCall(callId: string, toolId: string, arguments: string)

  datatype Message = Message(
    role: Role,
    content: string,
    turnId: string,
    toolCalls: seq<ToolCall>,
    toolCallId: Option<string>,
    toolName: Option<string>,
    images: seq<string>)

  function UserMessage(text: string, turnId: string): Message {
    Message(User, text, turnId, [], None, None, [])
  }

  function AssistantMessage(text: string, turnId: string, calls: seq<ToolCall>): Message {
    Message(Assistant, text, turnId, calls, None, None, [])
  }

  function ToolMessage(content: string, turnId: string, call: ToolCall): Message {
    Message(Tool, content, turnId, [], Some(call.callId), Some(call.toolId), [])
  }

  // ---------------------------------------------------------------- calls

  function CallIds(calls: seq<ToolCall>): set<string> {
    set c | c in calls :: c.callId
  }

  predicate DistinctCalls(calls: seq<ToolCall>) {
    forall i, j :: 0 <= i < j < |calls| ==> calls[i].callId != calls[j].callId
  }

  // ------------------------------------------------- the transcript grammar

  /**
   * Where a left-to-right reading of a transcript stands: the turn being read,
   * every turn met so far, and the calls of the last assistant message that no
   * tool message has answered yet.
   */
  datatype Reading = Broken | Reading(turn: Option<string>, seen: set<string>, open: set<string>)

  const START: Reading := Reading(None, {}, {})

  function Read(r: Reading, m: Message): Reading {
    if r.Broken? then Broken
    else
      match m.role
      case User =>
        if m.turnId in r.seen || r.open != {} || m.toolCalls != [] then Broken
        else Reading(Some(m.turnId), r.seen + {m.turnId}, {})
      case Assistant =>
        if r.turn != Some(m.turnId) || r.open != {} || !DistinctCalls(m.toolCalls) then Broken
        else r.(open := CallIds(m.toolCalls))
      case Tool =>
        if r.turn != Some(m.turnId) || m.toolCallId.None? || m.toolCallId.value !in r.open || m.toolCalls != []
        then Broken
        else r.(open := r.open - {m.toolCallId.value})
  }

  function Parse(ms: seq<Message>): Reading {
    if ms == [] then START else Read(Parse(ms[..|ms| - 1]), ms[|ms| - 1])
  }

  predicate WellFormed(ms: seq<Message>) {
    Parse(ms).Reading?
  }

  lemma ParseAppend(ms: seq<Message>, m: Message)
    ensures Parse(ms + [m]) == Read(Parse(ms), m)
  {
    assert (ms + [m])[..|ms|] == ms;
  }

  lemma {:induction false} SeenAreTurns(ms: seq<Message>)
    requires WellFormed(ms)
    ensures forall m <- ms :: m.turnId in Parse(ms).seen
    ensures Parse(ms).turn.Some? ==> Parse(ms).turn.value in Parse(ms).seen
    ensures ms != [] ==> Parse(ms).turn == Some(ms[|ms| - 1].turnId)
    ensures ms == [] ==> Parse(ms) == START
  {
    if ms != [] {
      SeenAreTurns(ms[..|ms| - 1]);
      forall m <- ms
        ensures m.turnId in Parse(ms).seen
      {
        if m != ms[|ms| - 1] { assert m in ms[..|ms| - 1]; }
      }
    }
  }

  // ---------------------------------------- what the grammar says, by index

  /** Every turn occupies one contiguous block. */
  ghost predicate TurnsAreBlocks(ms: seq<Message>) {
    forall i, j, k :: 0 <= i < j < k < |ms| && ms[i].turnId == ms[k].turnId ==> ms[j].turnId == ms[i].turnId
  }

  /** Message `j` answers call `c` of message `i`, and is the first to do so. */
  ghost predicate Answers(ms: seq<Message>, i: int, j: int, c: string) {
    && 0 <= i < j < |ms|
    && ms[i].role == Assistant && c in CallIds(ms[i].toolCalls)
    && ms[j].toolCallId == Some(c)
    && (forall k :: i < k <= j ==> ms[k].role == Tool && ms[k].turnId == ms[i].turnId)
    && (forall k :: i < k < j ==> ms[k].toolCallId != Some(c))
  }

  /** The call is still open: nothing but answers to its siblings follows it. */
  ghost predicate Unanswered(ms: seq<Message>, i: int, c: string) {
    && 0 <= i < |ms| && ms[i].role == Assistant && c in CallIds(ms[i].toolCalls)
    && (forall k :: i < k < |ms| ==>
                      ms[k].role == Tool && ms[k].turnId == ms[i].turnId && ms[k].toolCallId != Some(c))
  }

  lemma {:induction false} WellFormedTurnsAreBlocks(ms: seq<Message>)
    requires WellFormed(ms)
    ensures TurnsAreBlocks(ms)
  {
    if ms != [] {
      var init, last := ms[..|ms| - 1], ms[|ms| - 1];
      WellFormedTurnsAreBlocks(init);
      SeenAreTurns(init);
      forall i, j, k | 0 <= i < j < k < |ms| && ms[i].turnId == ms[k].turnId
        ensures ms[j].turnId == ms[i].turnId
      {
        assert ms[i] == init[i] && ms[i] in init;
        if k < |init| {
          assert init[i].turnId == init[k].turnId && ms[j] == init[j];
        } else {
          assert last.role != User;
          assert init[|init| - 1].turnId == last.turnId;
          if j < |init| - 1 {
            assert init[i].turnId == init[|init| - 1].turnId;
            assert ms[j] == init[j];
          }
        }
      }
    }
  }

  /** A message after an unanswered call leaves it unanswered exactly when it answers another call of that turn. */
  lemma StillUnanswered(ms: seq<Message>, m: Message, i: nat, c: string)
    requires i < |ms|
    ensures Unanswered(ms + [m], i, c)
            <==> Unanswered(ms, i, c) && m.role == Tool && m.turnId == ms[i].turnId && m.toolCallId != Some(c)
  {
    var all := ms + [m];
    assert all[i] == ms[i] && all[|ms|] == m;
    if Unanswered(all, i, c) {
      forall k | i < k < |ms|
        ensures ms[k].role == Tool && ms[k].turnId == ms[i].turnId && ms[k].toolCallId != Some(c)
      {
        assert all[k] == ms[k];
      }
    }
  }

  /** Open calls are exactly the unanswered calls, and all belong to one message. */
  lemma {:induction false} OpenCallsAreUnanswered(ms: seq<Message>)
    requires WellFormed(ms)
    ensures forall c <- Parse(ms).open :: exists i :: Unanswered(ms, i, c)
    ensures forall i, c :: Unanswered(ms, i, c) ==> c in Parse(ms).open
    ensures forall i, c :: Unanswered(ms, i, c) ==> ms[i].turnId == ms[|ms| - 1].turnId
  {
    if ms != [] {
      var init, last := ms[..|ms| - 1], ms[|ms| - 1];
      assert init + [last] == ms;
      OpenCallsAreUnanswered(init);
      SeenAreTurns(init);
      forall c <- Parse(ms).open
        ensures exists i :: Unanswered(ms, i, c)
      {
        if last.role == Assistant {
          assert Unanswered(ms, |ms| - 1, c);
        } else {
          var i :| Unanswered(init, i, c);
          StillUnanswered(init, last, i, c);
        }
      }
      forall i, c | Unanswered(ms, i, c)
        ensures c in Parse(ms).open && ms[i].turnId == last.turnId
      {
        if i < |init| {
          StillUnanswered(init, last, i, c);
        }
      }
    }
  }

  ghost predicate IsAnswer(ms: seq<Message>, j: int) {
    0 <= j < |ms| && ms[j].toolCallId.Some? && exists i :: Answers(ms, i, j, ms[j].toolCallId.value)
  }

  lemma AnswerKept(ms: seq<Message>, m: Message, j: int)
    requires IsAnswer(ms, j)
    ensures IsAnswer(ms + [m], j)
  {
    var i :| Answers(ms, i, j, ms[j].toolCallId.value);
    assert Answers(ms + [m], i, j, ms[j].toolCallId.value);
  }

  /** A tool message that may follow answers a call that was still open. */
  lemma AnswersNext(ms: seq<Message>, m: Message)
    requires WellFormed(ms + [m]) && m.role == Tool
    ensures IsAnswer(ms + [m], |ms|)
  {
    ParseAppend(ms, m);
    OpenCallsAreUnanswered(ms);
    SeenAreTurns(ms);
    hide Parse;
    var i :| Unanswered(ms, i, m.toolCallId.value);
    assert Answers(ms + [m], i, |ms|, m.toolCallId.value);
  }

  /** Each tool message answers a call of its own turn that was still open. */
  lemma {:induction false} ToolMessagesAnswerOpenCalls(ms: seq<Message>)
    requires WellFormed(ms)
    ensures forall j :: 0 <= j < |ms| && ms[j].role == Tool ==> IsAnswer(ms, j)
  {
    if ms != [] {
      var init, last := ms[..|ms| - 1], ms[|ms| - 1];
      ToolMessagesAnswerOpenCalls(init);
      assert init + [last] == ms;
      forall j | 0 <= j < |init| && ms[j].role == Tool
        ensures IsAnswer(ms, j)
      {
        AnswerKept(init, last, j);
      }
      if last.role == Tool {
        AnswersNext(init, last);
      }
    }
  }

  lemma AnswersKept(ms: seq<Message>, m: Message, i: int, j: int, c: string)
    requires Answers(ms, i, j, c)
    ensures Answers(ms + [m], i, j, c)
  {
  }

  /** A call that is still open stays open, or the next message answers it. */
  lemma OpenCallNext(init: seq<Message>, last: Message, i: int, c: string)
    requires Unanswered(init, i, c) && last.role == Tool && last.turnId == init[i].turnId
    ensures if last.toolCallId == Some(c) then Answers(init + [last], i, |init|, c) else Unanswered(init + [last], i, c)
  {
  }

  /** Every call is answered, or still open in the newest turn. */
  lemma {:induction false} CallsAreAnsweredOrOpen(ms: seq<Message>)
    requires WellFormed(ms)
    ensures forall i, c :: 0 <= i < |ms| && ms[i].role == Assistant && c in CallIds(ms[i].toolCalls) ==>
                             Unanswered(ms, i, c) || exists j :: Answers(ms, i, j, c)
  {
    if ms != [] {
      var init, last := ms[..|ms| - 1], ms[|ms| - 1];
      CallsAreAnsweredOrOpen(init);
      OpenCallsAreUnanswered(init);
      SeenAreTurns(init);
      assert init + [last] == ms;
      hide Unanswered, Answers;
      forall i, c | 0 <= i < |ms| && ms[i].role == Assistant && c in CallIds(ms[i].toolCalls)
        ensures Unanswered(ms, i, c) || exists j :: Answers(ms, i, j, c)
      {
        if i < |init| {
          assert init[i] == ms[i];
          if Unanswered(init, i, c) {
            assert c in Parse(init).open;
            OpenCallNext(init, last, i, c);
          } else {
            var j :| Answers(init, i, j, c);
            AnswersKept(init, last, i, j, c);
          }
        }
      }
    }
  }

  // ------------------------------------------------------------- recovery

  /** The error code of a recovered result; its wording is not modelled. */
  const INTERRUPTED: string := "interrupted"

  function AddCalls(pending: map<Key, ToolCall>, turnId: string, calls: seq<ToolCall>): map<Key, ToolCall> {
    if calls == [] then pending
    else
      var last := calls[|calls| - 1];
      AddCalls(pending, turnId, calls[..|calls| - 1])[(turnId, last.callId) := last]
  }

  /** The calls that nothing later in the messages answered. */
  function Pending(ms: seq<Message>): map<Key, ToolCall> {
    if ms == [] then map[]
    else
      var m, before := ms[|ms| - 1], Pending(ms[..|ms| - 1]);
      match m.role
      case Assistant => AddCalls(before, m.turnId, m.toolCalls)
      case Tool => if m.toolCallId.Some? then before - {(m.turnId, m.toolCallId.value)} else before
      case User => before
  }

  function Recoveries(keys: seq<Key>, pending: map<Key, ToolCall>): seq<Message>
    requires forall k <- keys :: k in pending
  {
    if keys == [] then []
    else
      var k := keys[|keys| - 1];
      Recoveries(keys[..|keys| - 1], pending) + [ToolMessage(INTERRUPTED, k.0, pending[k])]
  }

  ghost function Recovery(ms: seq<Message>): seq<Message> {
    var pending := Pending(ms);
    SortedIsOrderedEnumeration(pending.Keys);
    Recoveries(Sorted(pending.Keys), pending)
  }

  lemma {:induction false} AddCallsKeys(pending: map<Key, ToolCall>, turnId: string, calls: seq<ToolCall>)
    ensures AddCalls(pending, turnId, calls).Keys == pending.Keys + (set c | c in CallIds(calls) :: (turnId, c))
    ensures (forall k <- pending :: pending[k].callId == k.1) ==>
              forall k <- AddCalls(pending, turnId, calls) :: AddCalls(pending, turnId, calls)[k].callId == k.1
  {
    if calls != [] {
      var init, last := calls[..|calls| - 1], calls[|calls| - 1];
      AddCallsKeys(pending, turnId, init);
      assert CallIds(calls) == CallIds(init) + {last.callId} by {
        forall c | c in calls ensures c in init || c == last {}
        assert forall c <- init :: c in calls;
        assert last in calls;
      }
    }
  }

  /** A call of message `i` that no later tool message of that turn names. */
  ghost predicate NeverAnswered(ms: seq<Message>, i: int, k: Key) {
    && 0 <= i < |ms| && ms[i].role == Assistant && ms[i].turnId == k.0 && k.1 in CallIds(ms[i].toolCalls)
    && forall j :: i < j < |ms| ==> !(ms[j].role == Tool && ms[j].turnId == k.0 && ms[j].toolCallId == Some(k.1))
  }

  /** On any messages at all, the pending calls are exactly the never-answered ones. */
  lemma {:induction false} PendingAreNeverAnswered(ms: seq<Message>, k: Key)
    ensures k in Pending(ms) <==> exists i :: NeverAnswered(ms, i, k)
  {
    if ms != [] {
      var init, last := ms[..|ms| - 1], ms[|ms| - 1];
      PendingAreNeverAnswered(init, k);
      if last.role == Assistant {
        AddCallsKeys(Pending(init), last.turnId, last.toolCalls);
      }
      if k in Pending(ms) {
        if last.role == Assistant && last.turnId == k.0 && k.1 in CallIds(last.toolCalls) {
          assert NeverAnswered(ms, |ms| - 1, k);
        } else {
          var i :| NeverAnswered(init, i, k);
          assert NeverAnswered(ms, i, k);
        }
      }
      if i :| NeverAnswered(ms, i, k) {
        if i < |init| {
          assert NeverAnswered(init, i, k);
        }
      }
    }
  }

  lemma {:induction false} PendingIsOpen(ms: seq<Message>)
    requires WellFormed(ms)
    ensures Pending(ms).Keys == set c | c in Parse(ms).open :: (Parse(ms).turn.GetOr(""), c)
    ensures forall k <- Pending(ms) :: Pending(ms)[k].callId == k.1
  {
    if ms != [] {
      var init, last := ms[..|ms| - 1], ms[|ms| - 1];
      PendingIsOpen(init);
      if last.role == Assistant {
        AddCallsKeys(Pending(init), last.turnId, last.toolCalls);
      }
    }
  }

  lemma {:induction false} RecoveriesClose(ms: seq<Message>, keys: seq<Key>)
    requires WellFormed(ms) && Parse(ms).turn.Some?
    requires forall k <- keys :: k in Pending(ms)
    requires forall i, j :: 0 <= i < j < |keys| ==> keys[i] != keys[j]
    ensures Parse(ms + Recoveries(keys, Pending(ms))) ==
            Parse(ms).(open := Parse(ms).open - set k | k in keys :: k.1)
  {
    PendingIsOpen(ms);
    if keys == [] {
      assert ms + Recoveries(keys, Pending(ms)) == ms;
      assert (set k | k in keys :: k.1) == {};
    } else {
      var init, k := keys[..|keys| - 1], keys[|keys| - 1];
      RecoveriesClose(ms, init);
      var m := ToolMessage(INTERRUPTED, k.0, Pending(ms)[k]);
      assert ms + Recoveries(keys, Pending(ms)) == (ms + Recoveries(init, Pending(ms))) + [m];
      ParseAppend(ms + Recoveries(init, Pending(ms)), m);
      forall other <- init
        ensures other.1 != k.1
      {
        assert other in Pending(ms) && k in Pending(ms);
      }
      assert (set x | x in keys :: x.1) == (set x | x in init :: x.1) + {k.1};
      hide Parse, Pending, Recoveries;
    }
  }

  lemma SortedPendingIsOpen(ms: seq<Message>)
    requires WellFormed(ms)
    ensures (set k | k in Sorted(Pending(ms).Keys) :: k.1) == Parse(ms).open
    ensures |Sorted(Pending(ms).Keys)| == |Parse(ms).open|
  {
    SortedIsOrderedEnumeration(Pending(ms).Keys);
    PendingIsOpen(ms);
    var t := Parse(ms).turn.GetOr("");
    forall c <- Parse(ms).open
      ensures c in set k | k in Sorted(Pending(ms).Keys) :: k.1
    {
      assert (t, c) in Sorted(Pending(ms).Keys);
    }
    PairsCount(t, Parse(ms).open);
  }

  /** Appending the recovery closes every open call and changes nothing else. */
  lemma RecoveryClosesTranscript(ms: seq<Message>)
    requires WellFormed(ms)
    ensures Parse(ms + Recovery(ms)) == Parse(ms).(open := {})
    ensures |Recovery(ms)| == |Parse(ms).open|
  {
    var keys := Sorted(Pending(ms).Keys);
    SortedIsOrderedEnumeration(Pending(ms).Keys);
    SortedPendingIsOpen(ms);
    RecoveriesLength(keys, Pending(ms));
    if ms == [] {
      assert Recovery(ms) == [];
      assert ms + Recovery(ms) == [];
    } else {
      SeenAreTurns(ms);
      RecoveriesClose(ms, keys);
    }
  }

  lemma {:induction false} RecoveriesLength(keys: seq<Key>, pending: map<Key, ToolCall>)
    requires forall k <- keys :: k in pending
    ensures |Recoveries(keys, pending)| == |keys|
  {
    if keys != [] {
      RecoveriesLength(keys[..|keys| - 1], pending);
    }
  }

  lemma {:induction false} PairsCount(t: string, ids: set<string>)
    ensures |set c | c in ids :: (t, c)| == |ids|
  {
    if ids != {} {
      var x :| x in ids;
      PairsCount(t, ids - {x});
      assert (set c | c in ids :: (t, c)) == (set c | c in ids - {x} :: (t, c)) + {(t, x)};
    }
  }

  /** `call` is one that message `i` made under this key, and that nothing later answered. */
  ghost predicate LeftOpen(ms: seq<Message>, i: int, key: Key, call: ToolCall) {
    NeverAnswered(ms, i, key) && call in ms[i].toolCalls && call.callId == key.1
  }

  lemma {:induction false} AddedCallsAreCalls(pending: map<Key, ToolCall>, turnId: string, calls: seq<ToolCall>, key: Key)
    requires key in AddCalls(pending, turnId, calls)
    ensures var call := AddCalls(pending, turnId, calls)[key];
            || (key.0 == turnId && call in calls && call.callId == key.1)
            || (key in pending && call == pending[key] && !(key.0 == turnId && key.1 in CallIds(calls)))
  {
    if calls != [] {
      var init, last := calls[..|calls| - 1], calls[|calls| - 1];
      assert calls == init + [last];
      if key != (turnId, last.callId) {
        AddedCallsAreCalls(pending, turnId, init, key);
      }
    }
  }

  /** On any messages at all, what is pending under a key is a call left open under it. */
  lemma {:induction false} PendingCallIsLeftOpen(ms: seq<Message>, key: Key)
    requires key in Pending(ms)
    ensures exists i :: LeftOpen(ms, i, key, Pending(ms)[key])
  {
    var init, last := ms[..|ms| - 1], ms[|ms| - 1];
    var call := Pending(ms)[key];
    if last.role == Assistant {
      AddedCallsAreCalls(Pending(init), last.turnId, last.toolCalls, key);
    }
    if last.role == Assistant && key.0 == last.turnId && call in last.toolCalls && call.callId == key.1 {
      assert LeftOpen(ms, |ms| - 1, key, call);
    } else {
      PendingCallIsLeftOpen(init, key);
      var i :| LeftOpen(init, i, key, call);
      assert LeftOpen(ms, i, key, call);
    }
  }

  /** `m` tells the model that this call was interrupted. */
  predicate SaysInterrupted(m: Message, key: Key, call: ToolCall) {
    && m.role == Tool && m.content == "interrupted" && m.turnId == key.0
    && m.toolCallId == Some(call.callId) && m.toolName == Some(call.toolId) && m.toolCalls == [] && m.images == []
  }

  lemma {:induction false} RecoveryAt(keys: seq<Key>, pending: map<Key, ToolCall>, k: nat)
    requires k < |keys| && forall key <- keys :: key in pending
    ensures |Recoveries(keys, pending)| == |keys|
    ensures SaysInterrupted(Recoveries(keys, pending)[k], keys[k], pending[keys[k]])
    decreases |keys|
  {
    RecoveriesLength(keys, pending);
    if k < |keys| - 1 {
      RecoveryAt(keys[..|keys| - 1], pending, k);
    } else {
      RecoveriesLength(keys[..|keys| - 1], pending);
    }
  }

  /** `m` is the interrupted answer to a call left open under this key. */
  ghost predicate Recovers(ms: seq<Message>, key: Key, m: Message) {
    exists i, call :: LeftOpen(ms, i, key, call) && SaysInterrupted(m, key, call)
  }

  lemma KeyIsRecovered(ms: seq<Message>, keys: seq<Key>, k: nat)
    requires k < |keys| && forall key <- keys :: key in Pending(ms)
    ensures |Recoveries(keys, Pending(ms))| == |keys|
    ensures Recovers(ms, keys[k], Recoveries(keys, Pending(ms))[k])
  {
    hide Pending, Recoveries, LeftOpen, SaysInterrupted;
    assert keys[k] in keys;
    RecoveryAt(keys, Pending(ms), k);
    PendingCallIsLeftOpen(ms, keys[k]);
  }

  /**
   * On any messages at all, the recovery answers each call left open once, in
   * the order of turn and call ID, as interrupted and by its own ID and tool.
   */
  lemma RecoveryAnswersLeftOpen(ms: seq<Message>)
    ensures var keys := Sorted(Pending(ms).Keys);
            |Recovery(ms)| == |keys| && forall k :: 0 <= k < |keys| ==> Recovers(ms, keys[k], Recovery(ms)[k])
  {
    hide Recoveries, Sorted, Pending, Recovers;
    SortedIsOrderedEnumeration(Pending(ms).Keys);
    var keys := Sorted(Pending(ms).Keys);
    RecoveriesLength(keys, Pending(ms));
    forall k | 0 <= k < |keys|
      ensures Recovers(ms, keys[k], Recovery(ms)[k])
    {
      KeyIsRecovered(ms, keys, k);
    }
  }

  /** The loop over messages and calls that fills and empties the `pending` dict. */
  method RecoverInterruptedToolCalls(messages: seq<Message>) returns (recovered: seq<Message>)
    ensures recovered == Recovery(messages)
  {
    hide Recoveries;
    var pending: map<Key, ToolCall> := map[];
    for i := 0 to |messages|
      invariant pending == Pending(messages[..i])
    {
      var message := messages[i];
      assert messages[..i + 1][..i] == messages[..i];
      if message.role == Assistant {
        for j := 0 to |message.toolCalls|
          invariant pending == AddCalls(Pending(messages[..i]), message.turnId, message.toolCalls[..j])
        {
          var call := message.toolCalls[j];
          assert message.toolCalls[..j + 1][..j] == message.toolCalls[..j];
          pending := pending[(message.turnId, call.callId) := call];
        }
        assert message.toolCalls[..|message.toolCalls|] == message.toolCalls;
      } else if message.role == Tool && message.toolCallId.Some? {
        pending := pending - {(message.turnId, message.toolCallId.value)};
      }
    }
    assert messages[..|messages|] == messages;
    recovered := RecoverPending(pending);
  }

  method RecoverPending(pending: map<Key, ToolCall>) returns (recovered: seq<Message>)
    ensures forall k <- Sorted(pending.Keys) :: k in pending
    ensures recovered == Recoveries(Sorted(pending.Keys), pending)
  {
    hide Sorted;
    var keys := Sort(pending.Keys);
    SortedIsOrderedEnumeration(pending.Keys);
    recovered := [];
    for i := 0 to |keys|
      invariant recovered == Recoveries(keys[..i], pending)
    {
      assert keys[i] in keys;
      assert keys[..i + 1][..i] == keys[..i];
      recovered := recovered + [ToolMessage(INTERRUPTED, keys[i].0, pending[keys[i]])];
    }
    assert keys[..|keys|] == keys;
  }
}
