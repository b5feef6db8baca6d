/**
 * Assembly of a streamed provider reply: text deltas passed on as they come,
 * tool-call fragments accumulated per index and emitted in index order.
 */
module DeltaAssembly {
  import opened Options
  import opened Transcript

  /** The provider's position of a tool call in its reply. */
  datatype Index = Index(n: int)

  /** Absent and empty strings are the same to the adapter. */
  datatype ToolDelta = ToolDelta(index: Option<Index>, id: string, name: string, arguments: string)

  datatype Choice = Choice(content: string, toolCalls: seq<ToolDelta>)

  /** `Noise` is any line that is skipped, `Garbage` one whose data is not JSON. */
  datatype Line = Noise | Done | Garbage | Chunk(choices: seq<Choice>)

  datatype Slot = Slot(id: string, name: string, arguments: string)

  type Slots = map<Index, Slot>

  const EMPTY_SLOT: Slot := Slot("", "", "")

  datatype ModelEvent = TextDelta(text: string) | Call(call: ToolCall) | Completed

  // -------------------------------------------------------- reply as fragments

  datatype Fragment = TextPart(text: string) | ToolPart(delta: ToolDelta) | Fault

  function ToolFragments(deltas: seq<ToolDelta>): seq<Fragment> {
    if deltas == [] then [] else ToolFragments(deltas[..|deltas| - 1]) + [ToolPart(deltas[|deltas| - 1])]
  }

  function ChoiceFragments(choices: seq<Choice>): seq<Fragment> {
    if choices == [] then []
    else
      var c := choices[|choices| - 1];
      ChoiceFragments(choices[..|choices| - 1]) + [TextPart(c.content)] + ToolFragments(c.toolCalls)
  }

  function LineFragments(line: Line): seq<Fragment> {
    match line
    case Chunk(choices) => ChoiceFragments(choices)
    case Garbage => [Fault]
    case _ => []
  }

  /** The lines the adapter reads: those before `[DONE]`. */
  function BeforeDone(lines: seq<Line>): seq<Line> {
    if lines == [] || lines[0].Done? then [] else [lines[0]] + BeforeDone(lines[1..])
  }

  /** Everything the lines carry, in order. */
  function Fragments(lines: seq<Line>): seq<Fragment> {
    if lines == [] then [] else Fragments(lines[..|lines| - 1]) + LineFragments(lines[|lines| - 1])
  }

  // ------------------------------------------ what the fragments amount to

  predicate IsFault(f: Fragment) {
    f.Fault? || (f.ToolPart? && f.delta.index.None?)
  }

  function TextOf(fs: seq<Fragment>): string {
    if fs == [] then ""
    else TextOf(fs[..|fs| - 1]) + if fs[|fs| - 1].TextPart? then fs[|fs| - 1].text else ""
  }

  /** A later part of the same call, appended field by field. */
  function Glue(s: Slot, part: Slot): Slot {
    Slot(s.id + part.id, s.name + part.name, s.arguments + part.arguments)
  }

  function PartOf(d: ToolDelta): Slot {
    Slot(d.id, d.name, d.arguments)
  }

  function Add(slots: Slots, d: ToolDelta): Slots
    requires d.index.Some?
  {
    slots[d.index.value := Glue(SlotAt(slots, d.index.value), PartOf(d))]
  }

  /** The concatenation for any index, empty where nothing was sent. */
  function SlotAt(slots: Slots, i: Index): Slot {
    if i in slots then slots[i] else EMPTY_SLOT
  }

  /** Per index, the concatenation of what its fragments carry. */
  function SlotsOf(fs: seq<Fragment>): Slots {
    if fs == [] then map[]
    else
      var f, before := fs[|fs| - 1], SlotsOf(fs[..|fs| - 1]);
      Extended(before, f)
  }

  lemma GlueAssociates(a: Slot, b: Slot, c: Slot)
    ensures Glue(Glue(a, b), c) == Glue(a, Glue(b, c))
    ensures Glue(a, EMPTY_SLOT) == a
  {
  }

  function Extended(slots: Slots, f: Fragment): Slots {
    if f.ToolPart? && f.delta.index.Some? then Add(slots, f.delta) else slots
  }

  /** What a fragment brings to an index. */
  function Brings(f: Fragment, i: Index): Slot {
    if f.ToolPart? && f.delta.index == Some(i) then PartOf(f.delta) else EMPTY_SLOT
  }

  lemma ExtendedAt(slots: Slots, f: Fragment, i: Index)
    ensures SlotAt(Extended(slots, f), i) == Glue(SlotAt(slots, i), Brings(f, i))
  {
    GlueAssociates(SlotAt(slots, i), EMPTY_SLOT, EMPTY_SLOT);
  }

  lemma {:induction false} SlotsAppend(a: seq<Fragment>, b: seq<Fragment>)
    ensures TextOf(a + b) == TextOf(a) + TextOf(b)
    ensures SlotsOf(a + b).Keys == SlotsOf(a).Keys + SlotsOf(b).Keys
    ensures forall i :: SlotAt(SlotsOf(a + b), i) == Glue(SlotAt(SlotsOf(a), i), SlotAt(SlotsOf(b), i))
  {
    if b == [] {
      assert a + b == a;
      forall i
        ensures Glue(SlotAt(SlotsOf(a), i), EMPTY_SLOT) == SlotAt(SlotsOf(a), i)
      {
        GlueAssociates(SlotAt(SlotsOf(a), i), EMPTY_SLOT, EMPTY_SLOT);
      }
    } else {
      hide Glue, SlotAt, Brings;
      var init, last := b[..|b| - 1], b[|b| - 1];
      assert (a + b)[..|a + b| - 1] == a + init;
      SlotsAppend(a, init);
      forall i
        ensures SlotAt(SlotsOf(a + b), i) == Glue(SlotAt(SlotsOf(a), i), SlotAt(SlotsOf(b), i))
      {
        ExtendedAt(SlotsOf(a + init), last, i);
        ExtendedAt(SlotsOf(init), last, i);
        GlueAssociates(SlotAt(SlotsOf(a), i), SlotAt(SlotsOf(init), i), Brings(last, i));
      }
    }
  }

  // ----------------------------------------------------------- emission

  ghost predicate IsMin(i: Index, s: set<Index>) {
    i in s && forall k :: k in s ==> i.n <= k.n
  }

  lemma {:induction false} MinExists(s: set<Index>)
    requires s != {}
    ensures exists i :: IsMin(i, s)
  {
    var i :| i in s;
    var rest := s - {i};
    if rest == {} {
      assert s == {i};
      assert IsMin(i, s);
    } else {
      MinExists(rest);
      var k :| IsMin(k, rest);
      assert forall x :: x in s ==> x == i || x in rest;
      if i.n < k.n { assert IsMin(i, s); } else { assert IsMin(k, s); }
    }
  }

  ghost function Min(s: set<Index>): (i: Index)
    requires s != {}
    ensures IsMin(i, s)
  {
    MinExists(s);
    var i :| IsMin(i, s);
    i
  }

  function ArgumentsText(s: Slot): string {
    if s.arguments == "" then "{}" else s.arguments
  }

  /** A slot the adapter can turn into a call; `parse` yields JSON objects only. */
  predicate Complete(s: Slot, parse: string -> Option<string>) {
    s.id != "" && s.name != "" && parse(ArgumentsText(s)).Some?
  }

  function CallOf(s: Slot, parse: string -> Option<string>): ToolCall {
    ToolCall(s.id, s.name, parse(ArgumentsText(s)).GetOr(""))
  }

  /** The calls of the slots whose index is in `keys`, in index order. */
  ghost function CallsOf(slots: Slots, keys: set<Index>, parse: string -> Option<string>): seq<ToolCall>
    requires keys <= slots.Keys
    decreases keys
  {
    if keys == {} then []
    else
      var i := Min(keys);
      [CallOf(slots[i], parse)] + CallsOf(slots, keys - {i}, parse)
  }

  /** How a whole uncancelled stream ends for the turn that reads it. */
  datatype Reply = Reply(text: string, calls: seq<ToolCall>) | Failed

  ghost function ReplyOf(fs: seq<Fragment>, parse: string -> Option<string>): Reply {
    var slots := SlotsOf(fs);
    if Faulty(fs) || (exists i :: i in slots && !Complete(slots[i], parse)) then Failed
    else Reply(TextOf(fs), CallsOf(slots, slots.Keys, parse))
  }

  /** What the turn collects from the adapter's events. */
  function CollectText(es: seq<ModelEvent>): string {
    if es == [] then ""
    else CollectText(es[..|es| - 1]) + if es[|es| - 1].TextDelta? then es[|es| - 1].text else ""
  }

  function CollectCalls(es: seq<ModelEvent>): seq<ToolCall> {
    if es == [] then []
    else CollectCalls(es[..|es| - 1]) + if es[|es| - 1].Call? then [es[|es| - 1].call] else []
  }

  lemma CollectAppend(es: seq<ModelEvent>, e: ModelEvent)
    ensures CollectText(es + [e]) == CollectText(es) + if e.TextDelta? then e.text else ""
    ensures CollectCalls(es + [e]) == CollectCalls(es) + if e.Call? then [e.call] else []
  {
    assert (es + [e])[..|es|] == es;
  }

  /** Events of a reply still under way: text that is not empty, and calls. */
  predicate UnderWay(es: seq<ModelEvent>) {
    forall e <- es :: !e.Completed? && (e.TextDelta? ==> e.text != "")
  }

  ghost predicate Faulty(fs: seq<Fragment>) {
    exists f :: f in fs && IsFault(f)
  }

  /** What comes before the first fault. */
  ghost function UntilFault(fs: seq<Fragment>): seq<Fragment> {
    if !Faulty(fs) then fs else UntilFault(fs[..|fs| - 1])
  }

  lemma {:induction false} FirstFaultCounts(fs: seq<Fragment>, more: seq<Fragment>)
    requires Faulty(fs) && fs <= more
    ensures Faulty(more) && UntilFault(more) == UntilFault(fs)
    decreases |more|
  {
    var f :| f in fs && IsFault(f);
    assert f in more;
    if |fs| == |more| {
      assert fs == more;
    } else {
      FirstFaultCounts(fs, more[..|more| - 1]);
    }
  }

  /** The adapter gave up at the first fault, after passing on the text before it. */
  ghost predicate StoppedAtFault(fs: seq<Fragment>, events: seq<ModelEvent>) {
    Faulty(fs) && UnderWay(events) && CollectText(events) == TextOf(UntilFault(fs))
  }

  lemma StoppedStays(fs: seq<Fragment>, events: seq<ModelEvent>, more: seq<Fragment>)
    requires StoppedAtFault(fs, events) && fs <= more
    ensures StoppedAtFault(more, events)
  {
    FirstFaultCounts(fs, more);
  }

  /** A fault right after what has been read. */
  lemma StopsHere(fs: seq<Fragment>, events: seq<ModelEvent>, slots: Slots, f: Fragment)
    requires Reads(fs, events, slots) && IsFault(f)
    ensures StoppedAtFault(fs + [f], events)
  {
    assert (fs + [f])[..|fs|] == fs && f in fs + [f];
    assert !Faulty(fs);
  }

  /** Fragments read so far, as the adapter's two stores. */
  ghost predicate Reads(fs: seq<Fragment>, events: seq<ModelEvent>, slots: Slots) {
    && (forall f <- fs :: !IsFault(f)) && UnderWay(events)
    && CollectText(events) == TextOf(fs) && CollectCalls(events) == []
    && slots == SlotsOf(fs)
  }

  lemma ReadsAppend(fs: seq<Fragment>, f: Fragment)
    ensures TextOf(fs + [f]) == TextOf(fs) + if f.TextPart? then f.text else ""
    ensures SlotsOf(fs + [f]) == Extended(SlotsOf(fs), f)
  {
    assert (fs + [f])[..|fs|] == fs;
  }

  /** The tool fragments of one choice; false when one has no index. */
  method ReadToolDeltas(deltas: seq<ToolDelta>, slots: Slots, ghost fs: seq<Fragment>, ghost events: seq<ModelEvent>)
    returns (slots': Slots, ok: bool)
    requires Reads(fs, events, slots)
    ensures ok ==> Reads(fs + ToolFragments(deltas), events, slots')
    ensures !ok ==> StoppedAtFault(fs + ToolFragments(deltas), events)
  {
    slots', ok := slots, true;
    assert fs + ToolFragments(deltas[..0]) == fs;
    for k := 0 to |deltas|
      invariant Reads(fs + ToolFragments(deltas[..k]), events, slots')
    {
      var item := deltas[k];
      assert deltas[..k + 1][..k] == deltas[..k];
      assert fs + ToolFragments(deltas[..k + 1]) == (fs + ToolFragments(deltas[..k])) + [ToolPart(item)];
      if item.index.None? {
        StopsHere(fs + ToolFragments(deltas[..k]), events, slots', ToolPart(item));
        ToolFragmentsGrow(deltas, k + 1);
        StoppedStays(fs + ToolFragments(deltas[..k + 1]), events, fs + ToolFragments(deltas));
        return slots', false;
      }
      ReadsAppend(fs + ToolFragments(deltas[..k]), ToolPart(item));
      var target := if item.index.value in slots' then slots'[item.index.value] else EMPTY_SLOT;
      slots' := slots'[item.index.value :=
                       Slot(target.id + item.id, target.name + item.name, target.arguments + item.arguments)];
    }
    assert deltas[..|deltas|] == deltas;
  }

  lemma {:induction false} ToolFragmentsGrow(deltas: seq<ToolDelta>, k: nat)
    requires k <= |deltas|
    ensures ToolFragments(deltas[..k]) <= ToolFragments(deltas)
    decreases |deltas|
  {
    if k == |deltas| {
      assert deltas[..k] == deltas;
    } else {
      ToolFragmentsGrow(deltas[..|deltas| - 1], k);
      assert deltas[..|deltas| - 1][..k] == deltas[..k];
    }
  }

  method ReadChoices(choices: seq<Choice>, events: seq<ModelEvent>, slots: Slots, ghost fs: seq<Fragment>)
    returns (events': seq<ModelEvent>, slots': Slots, ok: bool)
    requires Reads(fs, events, slots)
    ensures ok ==> Reads(fs + ChoiceFragments(choices), events', slots')
    ensures !ok ==> StoppedAtFault(fs + ChoiceFragments(choices), events')
  {
    events', slots', ok := events, slots, true;
    assert fs + ChoiceFragments(choices[..0]) == fs;
    for k := 0 to |choices|
      invariant Reads(fs + ChoiceFragments(choices[..k]), events', slots')
    {
      var choice := choices[k];
      ghost var before := fs + ChoiceFragments(choices[..k]);
      assert choices[..k + 1][..k] == choices[..k];
      assert fs + ChoiceFragments(choices[..k + 1]) ==
             (before + [TextPart(choice.content)]) + ToolFragments(choice.toolCalls);
      ReadsAppend(before, TextPart(choice.content));
      if choice.content != "" {
        CollectAppend(events', TextDelta(choice.content));
        events' := events' + [TextDelta(choice.content)];
      }
      slots', ok := ReadToolDeltas(choice.toolCalls, slots', before + [TextPart(choice.content)], events');
      if !ok {
        ChoiceFragmentsGrow(choices, k + 1);
        StoppedStays(fs + ChoiceFragments(choices[..k + 1]), events', fs + ChoiceFragments(choices));
        return;
      }
    }
    assert choices[..|choices|] == choices;
  }

  lemma {:induction false} ChoiceFragmentsGrow(choices: seq<Choice>, k: nat)
    requires k <= |choices|
    ensures ChoiceFragments(choices[..k]) <= ChoiceFragments(choices)
    decreases |choices|
  {
    if k == |choices| {
      assert choices[..k] == choices;
    } else {
      ChoiceFragmentsGrow(choices[..|choices| - 1], k);
      assert choices[..|choices| - 1][..k] == choices[..k];
    }
  }

  lemma CallOfComplete(s: Slot, parse: string -> Option<string>)
    requires parse(ArgumentsText(s)).Some?
    ensures CallOf(s, parse) == ToolCall(s.id, s.name, parse(ArgumentsText(s)).value)
  {
  }

  lemma CallsOfLeast(slots: Slots, keys: set<Index>, parse: string -> Option<string>)
    requires keys <= slots.Keys && keys != {}
    ensures CallsOf(slots, keys, parse) == [CallOf(slots[Min(keys)], parse)] + CallsOf(slots, keys - {Min(keys)}, parse)
  {
  }

  /** One more complete slot is one more call. */
  lemma EmitOne(slots: Slots, left: set<Index>, parse: string -> Option<string>, events: seq<ModelEvent>, i: Index)
    requires left <= slots.Keys && left != {} && i == Min(left) && UnderWay(events)
    requires parse(ArgumentsText(slots[i])).Some?
    ensures var call := ToolCall(slots[i].id, slots[i].name, parse(ArgumentsText(slots[i])).value);
            && UnderWay(events + [Call(call)]) && CollectText(events + [Call(call)]) == CollectText(events)
            && CollectCalls(events + [Call(call)]) + CallsOf(slots, left - {i}, parse)
               == CollectCalls(events) + CallsOf(slots, left, parse)
  {
    hide Min, CallsOf, CallOf, CollectText, CollectCalls, Complete;
    var call := ToolCall(slots[i].id, slots[i].name, parse(ArgumentsText(slots[i])).value);
    CollectAppend(events, Call(call));
    CallsOfLeast(slots, left, parse);
    CallOfComplete(slots[i], parse);
    var rest := CallsOf(slots, left - {i}, parse);
    assert CollectText(events) + "" == CollectText(events);
    assert CollectCalls(events) + [call] + rest == CollectCalls(events) + ([call] + rest);
  }

  /** The slots are emitted by index; the first incomplete one raises. */
  method EmitCalls(slots: Slots, parse: string -> Option<string>, events: seq<ModelEvent>)
    returns (events': seq<ModelEvent>, ok: bool)
    requires UnderWay(events)
    ensures UnderWay(events') && CollectText(events') == CollectText(events)
    ensures ok <==> forall i :: i in slots ==> Complete(slots[i], parse)
    ensures ok ==> CollectCalls(events') == CollectCalls(events) + CallsOf(slots, slots.Keys, parse)
  {
    hide CallOf, CollectText, CollectCalls, UnderWay, CallsOf;
    events', ok := events, true;
    var left := slots.Keys;
    while left != {}
      invariant left <= slots.Keys
      invariant UnderWay(events') && CollectText(events') == CollectText(events)
      invariant forall i :: i in slots && i !in left ==> Complete(slots[i], parse)
      invariant CollectCalls(events') + CallsOf(slots, left, parse) ==
                CollectCalls(events) + CallsOf(slots, slots.Keys, parse)
      decreases left
    {
      var index := LeastIndex(left);
      var item := slots[index];
      if item.id == "" || item.name == "" {
        return events', false;
      }
      var arguments := parse(ArgumentsText(item));
      if arguments.None? {
        return events', false;
      }
      var call := ToolCall(item.id, item.name, arguments.value);
      EmitOne(slots, left, parse, events', index);
      events' := events' + [Call(call)];
      left := left - {index};
    }
    NoneLeft(slots, parse);
  }

  lemma NoneLeft(slots: Slots, parse: string -> Option<string>)
    ensures CallsOf(slots, {}, parse) == []
  {
  }

  method LeastIndex(s: set<Index>) returns (least: Index)
    requires s != {}
    ensures least == Min(s)
  {
    least :| least in s;
    var unseen := s - {least};
    while unseen != {}
      invariant unseen <= s && least in s
      invariant forall k :: k in s && k !in unseen ==> least.n <= k.n
      decreases unseen
    {
      var k :| k in unseen;
      if k.n < least.n { least := k; }
      unseen := unseen - {k};
    }
  }

  method ReadLine(line: Line, events: seq<ModelEvent>, slots: Slots, ghost fs: seq<Fragment>)
    returns (events': seq<ModelEvent>, slots': Slots, ok: bool)
    requires Reads(fs, events, slots)
    ensures ok ==> Reads(fs + LineFragments(line), events', slots')
    ensures !ok ==> StoppedAtFault(fs + LineFragments(line), events')
  {
    match line {
      case Garbage =>
        StopsHere(fs, events, slots, Fault);
        return events, slots, false;
      case Chunk(choices) =>
        events', slots', ok := ReadChoices(choices, events, slots, fs);
      case _ =>
        assert fs + LineFragments(line) == fs;
        return events, slots, true;
    }
  }

  predicate NoDone(lines: seq<Line>, k: int) {
    k <= |lines| && forall i :: 0 <= i < k ==> !lines[i].Done?
  }

  lemma {:induction false} DoneEnds(lines: seq<Line>, k: nat)
    requires NoDone(lines, k)
    ensures lines[..k] <= BeforeDone(lines)
    ensures k == |lines| || lines[k].Done? ==> lines[..k] == BeforeDone(lines)
  {
    if k > 0 {
      DoneEnds(lines[1..], k - 1);
      assert lines[..k] == [lines[0]] + lines[1..][..k - 1];
    }
  }

  lemma {:induction false} FragmentsGrow(lines: seq<Line>, k: nat)
    requires k <= |lines|
    ensures Fragments(lines[..k]) <= Fragments(lines)
    decreases |lines|
  {
    if k == |lines| {
      assert lines[..k] == lines;
    } else {
      FragmentsGrow(lines[..|lines| - 1], k);
      assert lines[..|lines| - 1][..k] == lines[..k];
    }
  }

  lemma FragmentsStep(lines: seq<Line>, k: nat)
    requires k < |lines|
    ensures Fragments(lines[..k + 1]) == Fragments(lines[..k]) + LineFragments(lines[k])
  {
    assert lines[..k + 1][..k] == lines[..k];
  }

  lemma FaultStops(lines: seq<Line>, k: nat, events: seq<ModelEvent>)
    requires k < |lines| && NoDone(lines, k + 1) && StoppedAtFault(Fragments(lines[..k + 1]), events)
    ensures StoppedAtFault(Fragments(BeforeDone(lines)), events)
  {
    DoneEnds(lines, k + 1);
    var read := BeforeDone(lines);
    assert read[..k + 1] == lines[..k + 1];
    FragmentsGrow(read, k + 1);
    StoppedStays(Fragments(lines[..k + 1]), events, Fragments(read));
  }

  lemma NothingRead()
    ensures Reads([], [], map[])
  {
  }

  /** The loop over the response lines, up to `[DONE]`. */
  method ReadLines(lines: seq<Line>) returns (events: seq<ModelEvent>, slots: Slots, ok: bool)
    ensures ok ==> Reads(Fragments(BeforeDone(lines)), events, slots)
    ensures !ok ==> StoppedAtFault(Fragments(BeforeDone(lines)), events)
  {
    hide Reads, StoppedAtFault, LineFragments, BeforeDone;
    NothingRead();
    events, slots, ok := [], map[], true;
    ghost var fs: seq<Fragment> := [];
    var k := 0;
    while k < |lines| && !lines[k].Done?
      invariant 0 <= k <= |lines| && NoDone(lines, k)
      invariant fs == Fragments(lines[..k])
      invariant Reads(fs, events, slots)
    {
      FragmentsStep(lines, k);
      events, slots, ok := ReadLine(lines[k], events, slots, fs);
      if !ok {
        FaultStops(lines, k, events);
        return;
      }
      fs := fs + LineFragments(lines[k]);
      k := k + 1;
    }
    DoneEnds(lines, k);
  }

  /**
   * What an uncancelled stream with these fragments gives: its text up to the
   * first fault, then every call and the end, or a failure.
   */
  ghost predicate Gives(fs: seq<Fragment>, parse: string -> Option<string>, events: seq<ModelEvent>, ok: bool) {
    && CollectText(events) == TextOf(UntilFault(fs))
    && (ok <==> !ReplyOf(fs, parse).Failed?)
    && (ok ==> events != [] && events[|events| - 1] == Completed && UnderWay(events[..|events| - 1])
               && ReplyOf(fs, parse) == Reply(CollectText(events), CollectCalls(events)))
    && (!ok ==> UnderWay(events))
  }

  lemma CompletedGives(fs: seq<Fragment>, parse: string -> Option<string>, events: seq<ModelEvent>)
    requires UnderWay(events) && ReplyOf(fs, parse) == Reply(CollectText(events), CollectCalls(events))
    ensures Gives(fs, parse, events + [Completed], true)
  {
    CollectAppend(events, Completed);
    assert (events + [Completed])[..|events|] == events;
    assert CollectText(events) + "" == CollectText(events) && CollectCalls(events) + [] == CollectCalls(events);
    assert !Faulty(fs);
  }

  /** The whole adapter on an uncancelled stream. */
  method StreamReply(lines: seq<Line>, parse: string -> Option<string>) returns (events: seq<ModelEvent>, ok: bool)
    ensures Gives(Fragments(BeforeDone(lines)), parse, events, ok)
    ensures ok ==> ReplyOf(Fragments(BeforeDone(lines)), parse) == Reply(CollectText(events), CollectCalls(events))
    ensures !ok ==> ReplyOf(Fragments(BeforeDone(lines)), parse) == Failed
    ensures ok ==> events != [] && events[|events| - 1] == Completed
  {
    hide CallsOf, BeforeDone, Fragments, TextOf, SlotsOf, CollectText, CollectCalls;
    var slots;
    events, slots, ok := ReadLines(lines);
    if !ok {
      return;
    }
    events, ok := EmitCalls(slots, parse, events);
    if ok {
      assert [] + CallsOf(slots, slots.Keys, parse) == CallsOf(slots, slots.Keys, parse);
      CompletedGives(Fragments(BeforeDone(lines)), parse, events);
      events := events + [Completed];
    }
  }

  // --------------------------------------------- fragmentation independence

  /** Same text, and for every index the same three concatenations. */
  ghost predicate SameContent(a: seq<Fragment>, b: seq<Fragment>) {
    && TextOf(a) == TextOf(b)
    && forall i :: SlotAt(SlotsOf(a), i) == SlotAt(SlotsOf(b), i)
  }

  predicate NoFault(fs: seq<Fragment>) {
    forall f <- fs :: !IsFault(f)
  }

  /** Some index was mentioned, but nothing at all was ever sent for it. */
  ghost predicate HasBlankIndex(fs: seq<Fragment>) {
    exists i :: i in SlotsOf(fs) && SlotsOf(fs)[i] == EMPTY_SLOT
  }

  /** Some index was sent something, and still is not a call. */
  ghost predicate HasBrokenCall(fs: seq<Fragment>, parse: string -> Option<string>) {
    exists i :: SlotAt(SlotsOf(fs), i) != EMPTY_SLOT && !Complete(SlotAt(SlotsOf(fs), i), parse)
  }

  lemma FailsExactlyWhen(fs: seq<Fragment>, parse: string -> Option<string>)
    requires NoFault(fs)
    ensures ReplyOf(fs, parse).Failed? <==> HasBlankIndex(fs) || HasBrokenCall(fs, parse)
  {
    var slots := SlotsOf(fs);
    if i :| i in slots && !Complete(slots[i], parse) {
      assert SlotAt(slots, i) == slots[i];
    }
    if HasBrokenCall(fs, parse) {
      var i :| SlotAt(slots, i) != EMPTY_SLOT && !Complete(SlotAt(slots, i), parse);
      assert i in slots;
    }
    if HasBlankIndex(fs) {
      var i :| i in slots && slots[i] == EMPTY_SLOT;
      assert !Complete(slots[i], parse);
    }
  }

  /**
   * Two streams with equal text and equal per-index concatenations, however
   * chunked or interleaved, end the same way — unless exactly one of them
   * mentions an index it never sends anything for and no call is broken.
   */
  lemma AssemblyIgnoresFragmentation(a: seq<Fragment>, b: seq<Fragment>, parse: string -> Option<string>)
    requires NoFault(a) && NoFault(b) && SameContent(a, b)
    ensures ReplyOf(a, parse) == ReplyOf(b, parse) <==>
            (HasBrokenCall(a, parse) || (HasBlankIndex(a) <==> HasBlankIndex(b)))
  {
    FailsExactlyWhen(a, parse);
    FailsExactlyWhen(b, parse);
    BrokenIsContent(a, b, parse);
    if !HasBlankIndex(a) && !HasBlankIndex(b) {
      forall i
        ensures i in SlotsOf(a) <==> i in SlotsOf(b)
      {
        assert SlotAt(SlotsOf(a), i) == SlotAt(SlotsOf(b), i);
      }
      forall i | i in SlotsOf(a)
        ensures SlotsOf(a)[i] == SlotsOf(b)[i]
      {
        assert SlotAt(SlotsOf(a), i) == SlotAt(SlotsOf(b), i);
      }
      assert SlotsOf(a) == SlotsOf(b);
    }
  }

  lemma BrokenIsContent(a: seq<Fragment>, b: seq<Fragment>, parse: string -> Option<string>)
    requires SameContent(a, b)
    ensures HasBrokenCall(a, parse) <==> HasBrokenCall(b, parse)
  {
    forall i
      ensures SlotAt(SlotsOf(a), i) == SlotAt(SlotsOf(b), i)
    {
    }
  }

  /** A stream that merely opens an index is read differently from one that does not. */
  lemma BlankIndexChangesReply(parse: string -> Option<string>)
    ensures var a := [TextPart("hi")];
            var b := [TextPart("hi"), ToolPart(ToolDelta(Some(Index(0)), "", "", ""))];
            && NoFault(a) && NoFault(b) && SameContent(a, b)
            && ReplyOf(a, parse) == Reply("hi", []) && ReplyOf(b, parse) == Failed
  {
    var a, d := [TextPart("hi")], ToolDelta(Some(Index(0)), "", "", "");
    var b := [TextPart("hi"), ToolPart(d)];
    assert b == a + [ToolPart(d)];
    ReadsAppend([], TextPart("hi"));
    ReadsAppend(a, ToolPart(d));
    assert a == [] + [TextPart("hi")];
    assert SlotsOf([]) == map[] && SlotsOf(a) == map[];
    assert Slot("" + "", "" + "", "" + "") == EMPTY_SLOT;
    assert SlotsOf(b) == map[Index(0) := EMPTY_SLOT];
    assert Index(0) in SlotsOf(b) && !Complete(SlotsOf(b)[Index(0)], parse);
  }
}
