/**
 * The part of a transcript a reasoning model is given, and the provider
 * payload built from it.
 */
module ModelContext {
  import opened Options
  import opened Transcript

  /** Distinct turns of `ms[i..]`, most recently ended first. */
  function RecentTurns(ms: seq<Message>, i: nat): seq<string>
    requires i <= |ms|
    decreases |ms| - i
  {
    if i == |ms| then []
    else
      var later := RecentTurns(ms, i + 1);
      if ms[i].turnId in later then later else later + [ms[i].turnId]
  }

  function Retained(ms: seq<Message>, maxTurns: nat): set<string> {
    var recent := RecentTurns(ms, 0);
    var kept := if |recent| <= maxTurns then recent else recent[..maxTurns];
    set t | t in kept
  }

  function Presented(m: Message, current: Option<string>, images: seq<string>): Message {
    if current == Some(m.turnId) && m.role == User then m.(images := images) else m
  }

  function Keep(ms: seq<Message>, retained: set<string>, current: Option<string>, images: seq<string>): seq<Message> {
    if ms == [] then []
    else
      var init, last := ms[..|ms| - 1], ms[|ms| - 1];
      Keep(init, retained, current, images) +
      if last.turnId in retained then [Presented(last, current, images)] else []
  }

  function Context(ms: seq<Message>, maxTurns: nat, current: Option<string>, images: seq<string>): seq<Message> {
    Keep(ms, Retained(ms, maxTurns), current, images)
  }

  lemma {:induction false} RecentTurnsExtend(ms: seq<Message>, i: nat, j: nat)
    requires i <= j <= |ms|
    ensures RecentTurns(ms, j) <= RecentTurns(ms, i)
    decreases j - i
  {
    if i < j {
      RecentTurnsExtend(ms, i + 1, j);
    }
  }

  lemma {:induction false} RecentTurnsAreTurns(ms: seq<Message>, i: nat)
    requires i <= |ms|
    ensures forall t :: t in RecentTurns(ms, i) <==> exists k :: i <= k < |ms| && ms[k].turnId == t
    ensures forall a, b :: 0 <= a < b < |RecentTurns(ms, i)| ==> RecentTurns(ms, i)[a] != RecentTurns(ms, i)[b]
    decreases |ms| - i
  {
    if i < |ms| {
      RecentTurnsAreTurns(ms, i + 1);
      var later := RecentTurns(ms, i + 1);
      forall t
        ensures t in RecentTurns(ms, i) <==> exists k :: i <= k < |ms| && ms[k].turnId == t
      {
        if t in RecentTurns(ms, i) {
          if t in later {
            var k :| i + 1 <= k < |ms| && ms[k].turnId == t;
          } else {
            assert ms[i].turnId == t;
          }
        }
        if k :| i <= k < |ms| && ms[k].turnId == t {
          if k > i { assert t in later; }
        }
      }
    }
  }

  /** Reversed loop with its early exit, then the filtering comprehension. */
  method BuildModelContext(
      messages: seq<Message>, maxContextTurns: nat, currentTurnId: Option<string>, currentImages: seq<string>)
    returns (context: seq<Message>)
    requires maxContextTurns >= 1
    ensures context == Context(messages, maxContextTurns, currentTurnId, currentImages)
  {
    var turnIds: seq<string> := [];
    var i := |messages|;
    while i > 0
      invariant 0 <= i <= |messages|
      invariant turnIds == RecentTurns(messages, i)
      invariant |turnIds| < maxContextTurns
    {
      i := i - 1;
      if turnIds == [] || turnIds[|turnIds| - 1] != messages[i].turnId {
        if messages[i].turnId !in turnIds {
          turnIds := turnIds + [messages[i].turnId];
        }
      }
      if |turnIds| >= maxContextTurns {
        break;
      }
    }
    RecentTurnsExtend(messages, 0, i);
    var retained := set t | t in turnIds;
    assert retained == Retained(messages, maxContextTurns);
    context := KeepRetained(messages, retained, currentTurnId, currentImages);
  }

  method KeepRetained(
      messages: seq<Message>, retained: set<string>, currentTurnId: Option<string>, currentImages: seq<string>)
    returns (context: seq<Message>)
    ensures context == Keep(messages, retained, currentTurnId, currentImages)
  {
    context := [];
    for k := 0 to |messages|
      invariant context == Keep(messages[..k], retained, currentTurnId, currentImages)
    {
      var item := messages[k];
      assert messages[..k + 1][..k] == messages[..k];
      if item.turnId in retained {
        context := context + [
          if currentTurnId == Some(item.turnId) && item.role == User then item.(images := currentImages) else item
        ];
      }
    }
    assert messages[..|messages|] == messages;
  }

  // -------------------------------------------- the context is a closed suffix

  /** Once a turn is retained, so is everything after it. */
  lemma RetainedUpward(ms: seq<Message>, maxTurns: nat, i: nat, j: nat)
    requires WellFormed(ms) && i < j < |ms|
    requires ms[i].turnId in Retained(ms, maxTurns)
    ensures ms[j].turnId in Retained(ms, maxTurns)
  {
    WellFormedTurnsAreBlocks(ms);
    var recent := RecentTurns(ms, 0);
    var upTo := RecentTurns(ms, j);
    RecentTurnsExtend(ms, 0, j);
    RecentTurnsAreTurns(ms, j);
    RecentTurnsAreTurns(ms, 0);
    if ms[i].turnId in upTo {
      var k :| j <= k < |ms| && ms[k].turnId == ms[i].turnId;
    } else {
      var b :| 0 <= b < |upTo| && upTo[b] == ms[j].turnId;
      var a :| 0 <= a < |recent| && recent[a] == ms[i].turnId && (|recent| <= maxTurns || a < maxTurns);
      assert recent[..|upTo|] == upTo;
      assert a >= |upTo|;
      assert recent[b] == upTo[b];
      if |recent| > maxTurns { assert recent[..maxTurns][b] == ms[j].turnId; }
    }
  }

  /** Without the current turn's images. */
  function Stripped(ms: seq<Message>): seq<Message> {
    seq(|ms|, i requires 0 <= i < |ms| => ms[i].(images := []))
  }

  predicate NoImages(ms: seq<Message>) {
    forall m <- ms :: m.images == []
  }

  /** `shown` is `ms` with the current images put on the current turn's user messages. */
  ghost predicate Shows(shown: seq<Message>, ms: seq<Message>, current: Option<string>, images: seq<string>) {
    |shown| == |ms| && forall k :: 0 <= k < |ms| ==> shown[k] == Presented(ms[k], current, images)
  }

  lemma {:induction false} KeepIsSuffix(
      ms: seq<Message>, cut: nat, retained: set<string>, current: Option<string>, images: seq<string>)
    requires cut <= |ms|
    requires forall k :: 0 <= k < |ms| ==> (ms[k].turnId in retained <==> cut <= k)
    ensures Shows(Keep(ms, retained, current, images), ms[cut..], current, images)
    decreases |ms|
  {
    if |ms| > 0 {
      var init, last := ms[..|ms| - 1], ms[|ms| - 1];
      if cut == |ms| {
        KeepIsSuffix(init, cut - 1, retained, current, images);
      } else {
        KeepIsSuffix(init, cut, retained, current, images);
        assert ms[cut..] == init[cut..] + [last];
      }
    }
  }

  lemma ShowsStripped(shown: seq<Message>, ms: seq<Message>, current: Option<string>, images: seq<string>)
    requires Shows(shown, ms, current, images) && NoImages(ms)
    ensures Stripped(shown) == ms
  {
    forall k | 0 <= k < |ms|
      ensures shown[k].(images := []) == ms[k]
    {
      assert ms[k] in ms;
    }
  }

  /** Reading from the start of a turn's block keeps the turn and its open calls. */
  lemma {:induction false} SuffixParses(ms: seq<Message>, cut: nat)
    requires WellFormed(ms) && cut < |ms|
    requires cut > 0 ==> ms[cut - 1].turnId != ms[cut].turnId
    ensures WellFormed(ms[cut..])
    ensures Parse(ms[cut..]).turn == Parse(ms).turn && Parse(ms[cut..]).open == Parse(ms).open
    ensures Parse(ms[cut..]).seen <= Parse(ms).seen
    ensures ms[cut].role == User
    decreases |ms|
  {
    var init, last := ms[..|ms| - 1], ms[|ms| - 1];
    SeenAreTurns(init);
    if cut == |ms| - 1 {
      assert ms[cut..] == [last];
      ParseAppend([], last);
      assert [] + [last] == [last];
    } else {
      SuffixParses(init, cut);
      assert ms[cut..] == init[cut..] + [last];
      ParseAppend(init[cut..], last);
    }
  }

  /** First retained position. */
  lemma CutExists(ms: seq<Message>, maxTurns: nat) returns (cut: nat)
    requires WellFormed(ms) && ms != [] && maxTurns >= 1
    ensures cut < |ms|
    ensures forall k :: 0 <= k < |ms| ==> (ms[k].turnId in Retained(ms, maxTurns) <==> cut <= k)
  {
    var newest := ms[|ms| - 1].turnId;
    assert RecentTurns(ms, |ms| - 1) == [newest];
    RecentTurnsExtend(ms, 0, |ms| - 1);
    assert RecentTurns(ms, 0)[0] == newest;
    assert newest in Retained(ms, maxTurns) by {
      if |RecentTurns(ms, 0)| > maxTurns { assert RecentTurns(ms, 0)[..maxTurns][0] == newest; }
    }
    cut := |ms| - 1;
    while cut > 0 && ms[cut - 1].turnId in Retained(ms, maxTurns)
      invariant cut < |ms|
      invariant forall k :: cut <= k < |ms| ==> ms[k].turnId in Retained(ms, maxTurns)
    {
      cut := cut - 1;
    }
    forall k | 0 <= k < cut
      ensures ms[k].turnId !in Retained(ms, maxTurns)
    {
      if ms[k].turnId in Retained(ms, maxTurns) && k < cut - 1 { RetainedUpward(ms, maxTurns, k, cut - 1); }
    }
  }

  lemma {:induction false} RetainedCount(recent: seq<string>)
    requires forall a, b :: 0 <= a < b < |recent| ==> recent[a] != recent[b]
    ensures |set t | t in recent| == |recent|
  {
    if recent != [] {
      var init, last := recent[..|recent| - 1], recent[|recent| - 1];
      RetainedCount(init);
      assert (set t | t in recent) == (set t | t in init) + {last};
    }
  }

  /** Which turns are kept: all of them, or exactly the newest `maxTurns`. */
  lemma RetainedSize(ms: seq<Message>, maxTurns: nat)
    ensures |Retained(ms, maxTurns)| <= maxTurns
    ensures |Retained(ms, maxTurns)| < maxTurns ==> forall m <- ms :: m.turnId in Retained(ms, maxTurns)
  {
    var recent := RecentTurns(ms, 0);
    RecentTurnsAreTurns(ms, 0);
    var kept := if |recent| <= maxTurns then recent else recent[..maxTurns];
    RetainedCount(kept);
    forall m | m in ms
      ensures |Retained(ms, maxTurns)| < maxTurns ==> m.turnId in Retained(ms, maxTurns)
    {
      var k :| 0 <= k < |ms| && ms[k] == m;
      assert m.turnId in recent;
    }
  }

  ghost predicate IsTurnStart(ms: seq<Message>, cut: nat) {
    cut < |ms| && ms[cut].role == User && (cut > 0 ==> ms[cut - 1].turnId != ms[cut].turnId)
  }

  /** `cut` is where the context of `ms` begins. */
  ghost predicate ContextBegins(
      ms: seq<Message>, maxTurns: nat, current: Option<string>, images: seq<string>, cut: int)
  {
    var context := Context(ms, maxTurns, current, images);
    && 0 <= cut < |ms| && IsTurnStart(ms, cut)
    && Shows(context, ms[cut..], current, images)
    && WellFormed(ms)
    && Stripped(context) == ms[cut..]
    && WellFormed(ms[cut..])
    && Parse(ms[cut..]).open == Parse(ms).open
    && Parse(ms[cut..]).turn == Parse(ms).turn
    && (cut > 0 ==> |Retained(ms, maxTurns)| == maxTurns)
    && (forall k :: 0 <= k < |ms| ==> (cut <= k <==> ms[k].turnId in Retained(ms, maxTurns)))
  }

  /**
   * The context of a well-formed transcript is its suffix from the start of a
   * turn (plus the images on the current turn's user messages), spans at most
   * `maxTurns` turns, includes the newest turn, reads from its own first
   * message as well formed, and has open exactly the calls the transcript has.
   */
  lemma ContextIsTurnSuffix(ms: seq<Message>, maxTurns: nat, current: Option<string>, images: seq<string>)
    requires WellFormed(ms) && ms != [] && NoImages(ms) && maxTurns >= 1
    ensures exists cut :: ContextBegins(ms, maxTurns, current, images, cut)
    ensures |Retained(ms, maxTurns)| <= maxTurns
  {
    var cut := CutExists(ms, maxTurns);
    var context := Context(ms, maxTurns, current, images);
    KeepIsSuffix(ms, cut, Retained(ms, maxTurns), current, images);
    assert NoImages(ms[cut..]);
    ShowsStripped(context, ms[cut..], current, images);
    SuffixParses(ms, cut);
    assert cut > 0 ==> |Retained(ms, maxTurns)| == maxTurns by {
      RetainedSize(ms, maxTurns);
      if cut > 0 { assert ms[cut - 1] in ms; }
    }
    RetainedSize(ms, maxTurns);
    assert ContextBegins(ms, maxTurns, current, images, cut);
  }

  // ------------------------------------------------------- provider payload

  datatype Payload =
    | ToolPayload(callId: string, result: string, name: Option<string>)
    | CallsPayload(remark: Option<string>, calls: seq<ToolCall>)
    | ImagesPayload(text: string, images: seq<string>)
    | TextPayload(role: Role, text: string)

  /** `None` stands for the ValueError on a tool message without a call ID. */
  function MessagePayload(m: Message): Option<Payload> {
    if m.role == Tool then
      if m.toolCallId.None? then None
      else Some(ToolPayload(m.toolCallId.value, m.content, if m.toolName.GetOr("") == "" then None else m.toolName))
    else if m.role == Assistant && m.toolCalls != [] then
      Some(CallsPayload(if m.content == "" then None else Some(m.content), m.toolCalls))
    else if m.role == User && m.images != [] then Some(ImagesPayload(m.content, m.images))
    else Some(TextPayload(m.role, m.content))
  }

  function Payloads(ms: seq<Message>): Option<seq<Payload>> {
    if ms == [] then Some([])
    else
      match (Payloads(ms[..|ms| - 1]), MessagePayload(ms[|ms| - 1]))
      case (Some(init), Some(last)) => Some(init + [last])
      case _ => None
  }

  /** The calls unanswered after one more payload. */
  function Paired(open: set<string>, p: Payload): Option<set<string>> {
    match p
    case ToolPayload(c, _, _) => if c in open then Some(open - {c}) else None
    case CallsPayload(_, calls) => if open == {} then Some(CallIds(calls)) else None
    case _ => if open == {} then Some({}) else None
  }

  /**
   * The chat provider's own rule, on payloads alone: `None` when some message
   * comes while calls are unanswered or a tool payload answers no open call,
   * otherwise the calls still unanswered at the end.
   */
  function Unpaired(ps: seq<Payload>): Option<set<string>> {
    if ps == [] then Some({})
    else
      match Unpaired(ps[..|ps| - 1])
      case None => None
      case Some(open) => Paired(open, ps[|ps| - 1])
  }

  lemma {:induction false} PayloadKeepsPairing(
      ms: seq<Message>, shown: seq<Message>, current: Option<string>, images: seq<string>)
    requires WellFormed(ms) && Shows(shown, ms, current, images)
    ensures Payloads(shown).Some?
    ensures Unpaired(Payloads(shown).value) == Some(Parse(ms).open)
  {
    if ms != [] {
      hide Payloads, Unpaired, Parse;
      var init, m := ms[..|ms| - 1], ms[|ms| - 1];
      var before, s := shown[..|shown| - 1], shown[|shown| - 1];
      assert init + [m] == ms && before + [s] == shown;
      ParseAppend(init, m);
      PayloadKeepsPairing(init, before, current, images);
      OnePayloadMore(init, m, before, s);
    }
  }

  /** A message shown, with images or without, pairs as the message it shows. */
  lemma OnePayloadMore(ms: seq<Message>, m: Message, shown: seq<Message>, s: Message)
    requires WellFormed(ms + [m]) && s == m.(images := s.images)
    requires Payloads(shown).Some? && Unpaired(Payloads(shown).value) == Some(Parse(ms).open)
    requires Parse(ms).Reading?
    ensures Payloads(shown + [s]).Some?
    ensures Unpaired(Payloads(shown + [s]).value) == Some(Parse(ms + [m]).open)
  {
    hide Parse, Read, Paired, MessagePayload;
    ParseAppend(ms, m);
    PairsAsRead(Parse(ms), m, s);
    assert (shown + [s])[..|shown|] == shown;
    var ps, p := Payloads(shown).value, MessagePayload(s).value;
    assert (ps + [p])[..|ps|] == ps;
  }

  lemma PairsAsRead(r: Reading, m: Message, s: Message)
    requires r.Reading? && Read(r, m).Reading? && s == m.(images := s.images)
    ensures MessagePayload(s).Some? && Paired(r.open, MessagePayload(s).value) == Some(Read(r, m).open)
  {
    if m.role == Assistant && m.toolCalls == [] {
      assert CallIds(m.toolCalls) == {};
    }
  }

  /** What the provider is sent for a closed transcript leaves no call unpaired. */
  lemma ContextPayloadIsPaired(ms: seq<Message>, maxTurns: nat, current: Option<string>, images: seq<string>)
    requires WellFormed(ms) && ms != [] && maxTurns >= 1
    requires Parse(ms).open == {}
    ensures Payloads(Context(ms, maxTurns, current, images)).Some?
    ensures Unpaired(Payloads(Context(ms, maxTurns, current, images)).value) == Some({})
  {
    var cut := CutExists(ms, maxTurns);
    var shown := Context(ms, maxTurns, current, images);
    KeepIsSuffix(ms, cut, Retained(ms, maxTurns), current, images);
    SuffixParses(ms, cut);
    PayloadKeepsPairing(ms[cut..], shown, current, images);
  }
}
