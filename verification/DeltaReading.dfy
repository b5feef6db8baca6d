/**
 * What an assembled reply says, read off the response lines themselves: the
 * text of every choice, and for each index the ids, names and arguments that
 * its deltas carry, joined in the order they came.
 */
module DeltaReading {
  import opened Options
  import opened Transcript
  import opened DeltaAssembly

  // ------------------------------------------------------------ the lines, read

  function TextIn(choices: seq<Choice>): string {
    if choices == [] then "" else TextIn(choices[..|choices| - 1]) + choices[|choices| - 1].content
  }

  function DeltasIn(choices: seq<Choice>): seq<ToolDelta> {
    if choices == [] then [] else DeltasIn(choices[..|choices| - 1]) + choices[|choices| - 1].toolCalls
  }

  function ChoicesOf(line: Line): seq<Choice> {
    if line.Chunk? then line.choices else []
  }

  function TextRead(lines: seq<Line>): string {
    if lines == [] then "" else TextRead(lines[..|lines| - 1]) + TextIn(ChoicesOf(lines[|lines| - 1]))
  }

  function DeltasRead(lines: seq<Line>): seq<ToolDelta> {
    if lines == [] then [] else DeltasRead(lines[..|lines| - 1]) + DeltasIn(ChoicesOf(lines[|lines| - 1]))
  }

  predicate Mentions(deltas: seq<ToolDelta>, i: Index) {
    exists d <- deltas :: d.index == Some(i)
  }

  predicate Unindexed(deltas: seq<ToolDelta>) {
    exists d <- deltas :: d.index.None?
  }

  /** One field of the deltas of an index, joined in order. */
  function Joined(deltas: seq<ToolDelta>, i: Index, field: ToolDelta -> string): string {
    if deltas == [] then ""
    else
      var last := deltas[|deltas| - 1];
      Joined(deltas[..|deltas| - 1], i, field) + (if last.index == Some(i) then field(last) else "")
  }

  function IdOf(d: ToolDelta): string { d.id }

  function NameOf(d: ToolDelta): string { d.name }

  function ArgumentsOf(d: ToolDelta): string { d.arguments }

  /** What the arguments of an index say; a call sent without any has an empty object. */
  function Parsed(deltas: seq<ToolDelta>, i: Index, parse: string -> Option<string>): Option<string> {
    parse(if Joined(deltas, i, ArgumentsOf) == "" then "{}" else Joined(deltas, i, ArgumentsOf))
  }

  predicate SaysCall(deltas: seq<ToolDelta>, i: Index, parse: string -> Option<string>) {
    Joined(deltas, i, IdOf) != "" && Joined(deltas, i, NameOf) != "" && Parsed(deltas, i, parse).Some?
  }

  // ------------------------------------------------- fragments, index by index

  lemma {:induction false} JoinedAppend(a: seq<ToolDelta>, b: seq<ToolDelta>, i: Index, field: ToolDelta -> string)
    ensures Joined(a + b, i, field) == Joined(a, i, field) + Joined(b, i, field)
  {
    if b == [] {
      assert a + b == a;
    } else {
      assert (a + b)[..|a + b| - 1] == a + b[..|b| - 1];
      JoinedAppend(a, b[..|b| - 1], i, field);
    }
  }

  function SlotFrom(deltas: seq<ToolDelta>, i: Index): Slot {
    Slot(Joined(deltas, i, IdOf), Joined(deltas, i, NameOf), Joined(deltas, i, ArgumentsOf))
  }

  lemma SlotFromAppend(a: seq<ToolDelta>, b: seq<ToolDelta>, i: Index)
    ensures SlotFrom(a + b, i) == Glue(SlotFrom(a, i), SlotFrom(b, i))
  {
    JoinedAppend(a, b, i, IdOf);
    JoinedAppend(a, b, i, NameOf);
    JoinedAppend(a, b, i, ArgumentsOf);
  }

  /** These fragments carry this text and these deltas, and break the reply if garbled or unindexed. */
  ghost predicate Carries(fs: seq<Fragment>, text: string, deltas: seq<ToolDelta>, garbled: bool) {
    && TextOf(fs) == text
    && (forall i :: SlotAt(SlotsOf(fs), i) == SlotFrom(deltas, i))
    && (forall i :: i in SlotsOf(fs) <==> Mentions(deltas, i))
    && (Faulty(fs) <==> garbled || Unindexed(deltas))
  }

  lemma CarriesBoth(a: seq<Fragment>, b: seq<Fragment>, s: string, t: string, d: seq<ToolDelta>, e: seq<ToolDelta>,
                    g: bool, h: bool)
    requires Carries(a, s, d, g) && Carries(b, t, e, h)
    ensures Carries(a + b, s + t, d + e, g || h)
  {
    SlotsAppend(a, b);
    forall i
      ensures SlotFrom(d + e, i) == Glue(SlotFrom(d, i), SlotFrom(e, i))
    {
      SlotFromAppend(d, e, i);
    }
    hide SlotFrom, Glue, SlotAt, SlotsOf, TextOf, IsFault;
  }

  lemma CarriesNothing()
    ensures Carries([], "", [], false)
  {
  }

  /** A fragment that is no delta leaves the slots alone. */
  lemma OtherCarries(f: Fragment, text: string)
    requires !f.ToolPart? && text == if f.TextPart? then f.text else ""
    ensures Carries([f], text, [], f.Fault?)
  {
    assert [f] == [] + [f];
    ReadsAppend([], f);
    CarriesNothing();
    assert f in [f] && TextOf([f]) == TextOf([]) + text && SlotsOf([f]) == SlotsOf([]);
    hide SlotsOf, SlotAt, SlotFrom, Mentions, TextOf;
  }

  lemma DeltaCarries(d: ToolDelta)
    ensures Carries([ToolPart(d)], "", [d], false)
  {
    var f := ToolPart(d);
    assert [f] == [] + [f] && f in [f] && d in [d];
    ReadsAppend([], f);
    forall i
      ensures SlotAt(Extended(map[], f), i) == SlotFrom([d], i)
    {
      ExtendedAt(map[], f, i);
      JoinedOne(d, i, IdOf);
      JoinedOne(d, i, NameOf);
      JoinedOne(d, i, ArgumentsOf);
    }
  }

  lemma JoinedOne(d: ToolDelta, i: Index, field: ToolDelta -> string)
    ensures Joined([d], i, field) == if d.index == Some(i) then field(d) else ""
  {
    assert [d][..0] == [];
    assert Joined([], i, field) == "";
  }

  lemma {:induction false} ToolsCarry(deltas: seq<ToolDelta>)
    ensures Carries(ToolFragments(deltas), "", deltas, false)
  {
    hide Carries;
    if deltas == [] {
      CarriesNothing();
    } else {
      var init, last := deltas[..|deltas| - 1], deltas[|deltas| - 1];
      ToolsCarry(init);
      DeltaCarries(last);
      CarriesBoth(ToolFragments(init), [ToolPart(last)], "", "", init, [last], false, false);
      assert deltas == init + [last] && "" + "" == "";
    }
  }

  lemma {:induction false} ChoicesCarry(choices: seq<Choice>)
    ensures Carries(ChoiceFragments(choices), TextIn(choices), DeltasIn(choices), false)
  {
    hide Carries;
    if choices == [] {
      CarriesNothing();
    } else {
      var init, last := choices[..|choices| - 1], choices[|choices| - 1];
      ChoicesCarry(init);
      OtherCarries(TextPart(last.content), last.content);
      ToolsCarry(last.toolCalls);
      var before := ChoiceFragments(init);
      CarriesBoth(before, [TextPart(last.content)], TextIn(init), last.content, DeltasIn(init), [], false, false);
      CarriesBoth(before + [TextPart(last.content)], ToolFragments(last.toolCalls), TextIn(init) + last.content, "",
                  DeltasIn(init) + [], last.toolCalls, false, false);
      assert DeltasIn(init) + [] == DeltasIn(init);
      assert TextIn(init) + last.content + "" == TextIn(choices);
    }
  }

  lemma LineCarries(line: Line)
    ensures Carries(LineFragments(line), TextIn(ChoicesOf(line)), DeltasIn(ChoicesOf(line)), line.Garbage?)
  {
    hide Carries;
    ChoicesCarry(ChoicesOf(line));
    OtherCarries(Fault, "");
    CarriesNothing();
  }

  lemma {:induction false} LinesCarry(lines: seq<Line>)
    ensures Carries(Fragments(lines), TextRead(lines), DeltasRead(lines), Garbage in lines)
  {
    hide Carries;
    if lines == [] {
      CarriesNothing();
    } else {
      var init, last := lines[..|lines| - 1], lines[|lines| - 1];
      LinesCarry(init);
      LineCarries(last);
      CarriesBoth(Fragments(init), LineFragments(last), TextRead(init), TextIn(ChoicesOf(last)), DeltasRead(init),
                  DeltasIn(ChoicesOf(last)), Garbage in init, last.Garbage?);
      assert lines == init + [last];
    }
  }

  // ------------------------------------------------------------------ the reply

  predicate Ascending(order: seq<Index>) {
    forall i, j | 0 <= i < j < |order| :: order[i].n < order[j].n
  }

  /** The calls of these indices, in this order. */
  ghost predicate SayCalls(calls: seq<ToolCall>, deltas: seq<ToolDelta>, order: seq<Index>,
                           parse: string -> Option<string>) {
    && Ascending(order) && (forall i :: i in order <==> Mentions(deltas, i))
    && |calls| == |order|
    && forall k | 0 <= k < |calls| ::
         calls[k] == ToolCall(Joined(deltas, order[k], IdOf), Joined(deltas, order[k], NameOf),
                              Parsed(deltas, order[k], parse).GetOr(""))
  }

  /** The calls of a set of slots, by index. */
  ghost predicate CallsBy(slots: Slots, keys: set<Index>, order: seq<Index>, parse: string -> Option<string>)
    requires keys <= slots.Keys
  {
    && Ascending(order) && (forall i :: i in order <==> i in keys)
    && |CallsOf(slots, keys, parse)| == |order|
    && forall k | 0 <= k < |order| ::
         order[k] in slots && CallsOf(slots, keys, parse)[k] == CallOf(slots[order[k]], parse)
  }

  lemma {:induction false} CallsComeInOrder(slots: Slots, keys: set<Index>, parse: string -> Option<string>)
    returns (order: seq<Index>)
    requires keys <= slots.Keys
    ensures CallsBy(slots, keys, order, parse)
    decreases keys
  {
    if keys == {} {
      order := [];
    } else {
      var least := Min(keys);
      var rest := CallsComeInOrder(slots, keys - {least}, parse);
      order := [least] + rest;
      CallsOfLeast(slots, keys, parse);
      hide CallsOf, CallOf;
      forall j | 0 < j < |order|
        ensures least.n < order[j].n
      {
        assert order[j] == rest[j - 1] && rest[j - 1] in rest;
        assert order[j] != least ==> least.n != order[j].n;
      }
    }
  }

  /**
   * An uncancelled response whose lines before the end marker are `lines[..n]`
   * fails exactly when one of them is not JSON, a delta has no index, or an
   * index lacks an id, a name or arguments that parse. Otherwise the reply is
   * the text of all choices and one call per index, in ascending order, whose
   * fields are what the deltas of that index say joined together.
   */
  lemma ReplyIsWhatLinesSay(lines: seq<Line>, n: nat, parse: string -> Option<string>)
    requires NoDone(lines, n) && (n == |lines| || lines[n].Done?)
    ensures var (reply, deltas) := (ReplyOf(Fragments(BeforeDone(lines)), parse), DeltasRead(lines[..n]));
            && (reply.Failed? <==> Garbage in lines[..n] || Unindexed(deltas)
                                   || exists i :: Mentions(deltas, i) && !SaysCall(deltas, i, parse))
            && (reply.Reply? ==> reply.text == TextRead(lines[..n])
                                 && exists order :: SayCalls(reply.calls, deltas, order, parse))
  {
    DoneEnds(lines, n);
    LinesCarry(lines[..n]);
    hide BeforeDone, NoDone, Fragments, TextRead, DeltasRead, ReplyOf, SayCalls, Carries, Mentions, Unindexed, SaysCall;
    ReplySays(Fragments(lines[..n]), TextRead(lines[..n]), DeltasRead(lines[..n]), Garbage in lines[..n], parse);
  }

  lemma ReplySays(fs: seq<Fragment>, text: string, deltas: seq<ToolDelta>, garbled: bool,
                  parse: string -> Option<string>)
    requires Carries(fs, text, deltas, garbled)
    ensures var reply := ReplyOf(fs, parse);
            && (reply.Failed? <==> garbled || Unindexed(deltas)
                                   || exists i :: Mentions(deltas, i) && !SaysCall(deltas, i, parse))
            && (reply.Reply? ==> reply.text == text && exists order :: SayCalls(reply.calls, deltas, order, parse))
  {
    var slots := SlotsOf(fs);
    hide SlotsOf, Mentions, Unindexed, Faulty, TextOf;
    forall i | i in slots
      ensures slots[i] == SlotFrom(deltas, i) && (Complete(slots[i], parse) <==> SaysCall(deltas, i, parse))
    {
      SlotSays(slots, deltas, i, parse);
    }
    var order := CallsComeInOrder(slots, slots.Keys, parse);
    OrderSays(slots, deltas, order, parse);
    hide SlotAt, SaysCall, Complete, SayCalls, CallsBy, CallsOf, SlotFrom;
  }

  lemma SlotSays(slots: Slots, deltas: seq<ToolDelta>, i: Index, parse: string -> Option<string>)
    requires i in slots && SlotAt(slots, i) == SlotFrom(deltas, i)
    ensures slots[i] == SlotFrom(deltas, i) && (Complete(slots[i], parse) <==> SaysCall(deltas, i, parse))
    ensures CallOf(slots[i], parse) == ToolCall(Joined(deltas, i, IdOf), Joined(deltas, i, NameOf),
                                                Parsed(deltas, i, parse).GetOr(""))
  {
    hide Joined;
  }

  lemma OrderSays(slots: Slots, deltas: seq<ToolDelta>, order: seq<Index>, parse: string -> Option<string>)
    requires CallsBy(slots, slots.Keys, order, parse)
    requires forall i :: i in slots <==> Mentions(deltas, i)
    requires forall i | i in slots :: slots[i] == SlotFrom(deltas, i)
    ensures SayCalls(CallsOf(slots, slots.Keys, parse), deltas, order, parse)
  {
    hide CallsOf, Mentions, SlotFrom, Joined, CallOf, Parsed, Ascending;
    forall k | 0 <= k < |order|
      ensures CallsOf(slots, slots.Keys, parse)[k]
              == ToolCall(Joined(deltas, order[k], IdOf), Joined(deltas, order[k], NameOf),
                          Parsed(deltas, order[k], parse).GetOr(""))
    {
      SlotOf(slots, deltas, order[k]);
      SlotSays(slots, deltas, order[k], parse);
    }
  }

  lemma SlotOf(slots: Slots, deltas: seq<ToolDelta>, i: Index)
    requires i in slots && slots[i] == SlotFrom(deltas, i)
    ensures SlotAt(slots, i) == SlotFrom(deltas, i)
  {
  }
}
