/**
 * Readers of the append-only execution journal: the progress forwarded during a
 * turn, the paged history, and the server-sent event stream with resumption by
 * Last-Event-ID (section 9.2 of the WHATWG HTML Living Standard).
 */
module Journal {
  import opened Options

  datatype Record = Record(sequence: nat, eventType: string, payload: string)

  const FINISHED: string := "execution.finished"

  /** The contract assumed of the journal: sequences start at one and increase. */
  ghost predicate Increasing(j: seq<Record>) {
    && (forall i :: 0 <= i < |j| ==> j[i].sequence >= 1)
    && (forall i, k :: 0 <= i < k < |j| ==> j[i].sequence < j[k].sequence)
  }

  /** Successive readings of one journal: nothing is changed or removed. */
  ghost predicate Growing(js: seq<seq<Record>>) {
    && (forall j <- js :: Increasing(j))
    && (forall i, k :: 0 <= i <= k < |js| ==> js[i] <= js[k])
  }

  /** `events(after_sequence)`. */
  function After(j: seq<Record>, cursor: nat): seq<Record> {
    if j == [] then []
    else
      var init := After(j[..|j| - 1], cursor);
      if j[|j| - 1].sequence > cursor then init + [j[|j| - 1]] else init
  }

  function Latest(j: seq<Record>): nat {
    if j == [] then 0 else j[|j| - 1].sequence
  }

  /** Where a reader stands that has read `got` from `cursor` on. */
  function Cursor(cursor: nat, got: seq<Record>): nat {
    if got == [] then cursor else got[|got| - 1].sequence
  }

  /** `n` records of `j` are at or before the cursor. */
  ghost predicate Splits(j: seq<Record>, cursor: nat, n: nat) {
    n <= |j| && forall i :: 0 <= i < |j| ==> (n <= i <==> j[i].sequence > cursor)
  }

  lemma {:induction false} AfterFromSplit(j: seq<Record>, cursor: nat, n: nat)
    requires Splits(j, cursor, n)
    ensures After(j, cursor) == j[n..]
  {
    if j != [] {
      var init, last := j[..|j| - 1], j[|j| - 1];
      if last.sequence > cursor {
        AfterFromSplit(init, cursor, n);
        assert j[n..] == init[n..] + [last];
      } else {
        AfterFromSplit(init, cursor, |init|);
      }
    }
  }

  lemma AfterIsSuffix(j: seq<Record>, cursor: nat) returns (n: nat)
    requires Increasing(j)
    ensures Splits(j, cursor, n) && After(j, cursor) == j[n..]
  {
    n := |j|;
    while n > 0 && j[n - 1].sequence > cursor
      invariant n <= |j|
      invariant forall i :: n <= i < |j| ==> j[i].sequence > cursor
    {
      n := n - 1;
    }
    AfterFromSplit(j, cursor, n);
  }

  /** Reading on from the last record read continues exactly where the reader stopped. */
  lemma ReadOn(j: seq<Record>, cursor: nat, got: seq<Record>)
    requires Increasing(j) && got <= After(j, cursor)
    ensures After(j, Cursor(cursor, got)) == After(j, cursor)[|got|..]
  {
    var n := AfterIsSuffix(j, cursor);
    var m := AfterIsSuffix(j, Cursor(cursor, got));
    if got != [] {
      assert got[|got| - 1] == j[n + |got| - 1];
      assert j[n + |got| - 1].sequence == Cursor(cursor, got);
      if n + |got| < |j| { assert j[n + |got|].sequence > j[n + |got| - 1].sequence; }
      assert m == n + |got|;
    }
  }

  /** A longer journal answers with a longer reading of which the earlier is a prefix. */
  lemma GrowthOnlyAppends(j: seq<Record>, later: seq<Record>, cursor: nat)
    requires Increasing(j) && Increasing(later) && j <= later
    ensures After(j, cursor) <= After(later, cursor)
  {
    var n := AfterIsSuffix(j, cursor);
    var m := AfterIsSuffix(later, cursor);
    if n < |j| {
      assert later[n] == j[n];
      if n > 0 { assert later[n - 1] == j[n - 1]; }
      assert m == n;
      assert later[n..][..|j| - n] == j[n..];
    }
  }

  /**
   * The two together: what is read from a later journal, after the last record
   * got from an earlier one, extends it without a gap or a repeat.
   */
  lemma ResumeIsSeamless(j: seq<Record>, later: seq<Record>, cursor: nat, got: seq<Record>, more: seq<Record>)
    requires Increasing(j) && Increasing(later) && j <= later
    requires got <= After(j, cursor) && more <= After(later, Cursor(cursor, got))
    ensures got + more <= After(later, cursor)
    ensures more == After(later, Cursor(cursor, got)) ==> got + more == After(later, cursor)
    ensures Cursor(cursor, got + more) == Cursor(Cursor(cursor, got), more)
  {
    GrowthOnlyAppends(j, later, cursor);
    ReadOn(later, cursor, got);
    assert After(later, cursor) == got + After(later, cursor)[|got|..];
  }

  // ------------------------------------------------ progress within a turn

  function MaxSequence(items: seq<Record>, start: nat): nat {
    if items == [] then start
    else
      var m := MaxSequence(items[..|items| - 1], start);
      if items[|items| - 1].sequence > m then items[|items| - 1].sequence else m
  }

  /** `after_sequence = max(after_sequence, …)`, item by item. */
  method Advance(items: seq<Record>, start: nat) returns (next: nat)
    ensures next == MaxSequence(items, start)
  {
    next := start;
    for k := 0 to |items|
      invariant next == MaxSequence(items[..k], start)
    {
      assert items[..k + 1][..k] == items[..k];
      next := if items[k].sequence > next then items[k].sequence else next;
    }
    assert items[..|items|] == items;
  }

  /** In an increasing journal the maximum is the last record read. */
  lemma {:induction false} MaxIsCursor(items: seq<Record>, start: nat)
    requires Increasing(items) && forall e <- items :: e.sequence > start
    ensures MaxSequence(items, start) == Cursor(start, items)
  {
    if items != [] {
      var init := items[..|items| - 1];
      MaxIsCursor(init, start);
      assert items[|items| - 1] in items;
      if init != [] { assert items[|items| - 2].sequence < items[|items| - 1].sequence; }
    }
  }

  lemma AfterIncreases(j: seq<Record>, cursor: nat)
    requires Increasing(j)
    ensures Increasing(After(j, cursor)) && forall e <- After(j, cursor) :: e.sequence > cursor
  {
    var n := AfterIsSuffix(j, cursor);
    forall e <- After(j, cursor) ensures e.sequence > cursor {
      var k :| 0 <= k < |j[n..]| && j[n..][k] == e;
      assert j[n + k] == e;
    }
  }

  lemma PollContinues(j: seq<Record>, later: seq<Record>, start: nat, got: seq<Record>, items: seq<Record>)
    requires Increasing(j) && Increasing(later) && j <= later && got == After(j, start)
    requires items == After(later, Cursor(start, got))
    ensures got + items == After(later, start)
    ensures MaxSequence(items, Cursor(start, got)) == Cursor(start, got + items)
  {
    ResumeIsSeamless(j, later, start, got, items);
    AfterIncreases(later, Cursor(start, got));
    MaxIsCursor(items, Cursor(start, got));
  }

  /** The consumer takes up to `n` items off the front of the queue. */
  method TakeSome(yielded: seq<Record>, queue: seq<Record>, n: nat) returns (yielded': seq<Record>, queue': seq<Record>)
    ensures yielded' + queue' == yielded + queue
    ensures |queue'| == if n <= |queue| then |queue| - n else 0
  {
    var taken := if n <= |queue| then n else |queue|;
    assert queue == queue[..taken] + queue[taken..];
    return yielded + queue[..taken], queue[taken..];
  }

  /**
   * `_execute_with_progress` polling, with the consumer taking items off the
   * queue at its own pace (`takes`) and draining it at the end.
   */
  method ForwardProgress(previous: seq<Record>, polls: seq<seq<Record>>, takes: seq<nat>)
    returns (yielded: seq<Record>)
    requires Growing(polls) && |polls| >= 1 && |takes| == |polls|
    requires Increasing(previous) && previous <= polls[0]
    ensures yielded == After(polls[|polls| - 1], Latest(previous))
    ensures previous + yielded == polls[|polls| - 1]
  {
    hide After, MaxSequence, Cursor;
    var afterSequence := Advance(previous, 0);
    MaxIsCursor(previous, 0);
    ghost var start, seen, got := afterSequence, previous, [];
    StartsAtEnd(previous, previous);
    CursorOfHistory(previous);
    yielded := [];
    var queue: seq<Record> := [];
    for p := 0 to |polls|
      invariant seen == if p == 0 then previous else polls[p - 1]
      invariant yielded + queue == got == After(seen, start)
      invariant afterSequence == Cursor(start, got)
    {
      var items := After(polls[p], afterSequence);
      assert Increasing(seen) && seen <= polls[p];
      PollContinues(seen, polls[p], start, got, items);
      afterSequence := Advance(items, afterSequence);
      got := got + items;
      assert got == yielded + (queue + items);
      yielded, queue := TakeSome(yielded, queue + items, takes[p]);
      seen := polls[p];
    }
    assert previous <= seen;
    yielded, queue := TakeSome(yielded, queue, |queue|);
    StartsAtEnd(previous, seen);
  }

  lemma CursorOfHistory(previous: seq<Record>)
    ensures Cursor(0, previous) == Latest(previous) == Cursor(Latest(previous), [])
  {
  }

  lemma StartsAtEnd(previous: seq<Record>, later: seq<Record>)
    requires Increasing(previous) && Increasing(later) && previous <= later
    ensures previous + After(later, Latest(previous)) == later
    ensures After(previous, Latest(previous)) == []
  {
    var n := AfterIsSuffix(later, Latest(previous));
    if previous != [] {
      assert later[|previous| - 1] == previous[|previous| - 1];
    }
    if |previous| < |later| {
      assert later[|previous|].sequence > Latest(previous);
    }
    assert n == |previous|;
    var m := AfterIsSuffix(previous, Latest(previous));
  }

  // ------------------------------------------------------- paged history

  datatype Page = Page(events: seq<Record>, nextSequence: nat, hasMore: bool)

  datatype PageResult = Served(page: Page) | BadCursor | BadLimit | NotLinked

  function PageOf(j: seq<Record>, after: nat, limit: nat): Page {
    var records := After(j, after);
    var page := if |records| > limit then records[..limit] else records;
    Page(page, Cursor(after, page), |records| > limit)
  }

  /** `hasTasks` false: the investigation has no plan, hence no journal. */
  method InvestigationEvents(j: seq<Record>, linked: bool, hasTasks: bool, afterSequence: int, limit: int)
    returns (r: PageResult)
    requires Increasing(j)
    ensures r.Served? <==> afterSequence >= 0 && 1 <= limit <= 200 && linked
    ensures afterSequence < 0 ==> r == BadCursor
    ensures afterSequence >= 0 && !(1 <= limit <= 200) ==> r == BadLimit
    ensures afterSequence >= 0 && 1 <= limit <= 200 && !linked ==> r == NotLinked
    ensures r.Served? && hasTasks ==> r.page == PageOf(j, afterSequence, limit)
    ensures r.Served? && !hasTasks ==> r.page == Page([], afterSequence, false)
  {
    if afterSequence < 0 {
      return BadCursor;
    }
    if !(1 <= limit <= 200) {
      return BadLimit;
    }
    if !linked {
      return NotLinked;
    }
    if !hasTasks {
      return Served(Page([], afterSequence, false));
    }
    var records := After(j, afterSequence);
    if |records| > limit + 1 {
      records := records[..limit + 1];
    }
    var hasMore := |records| > limit;
    var page := if hasMore then records[..limit] else records;
    return Served(Page(page, if page != [] then page[|page| - 1].sequence else afterSequence, hasMore));
  }

  /** One more page extends what was collected; it is full exactly when more is to come. */
  lemma PageContinues(j: seq<Record>, later: seq<Record>, start: nat, collected: seq<Record>, limit: nat)
    requires Increasing(j) && Increasing(later) && j <= later && limit >= 1
    requires collected <= After(j, start)
    ensures var page := PageOf(later, Cursor(start, collected), limit);
            && collected + page.events <= After(later, start)
            && page.nextSequence == Cursor(start, collected + page.events)
            && (!page.hasMore ==> collected + page.events == After(later, start))
            && (page.hasMore ==> |page.events| == limit && |collected + page.events| < |After(later, start)|)
  {
    var page := PageOf(later, Cursor(start, collected), limit);
    ResumeIsSeamless(j, later, start, collected, page.events);
    GrowthOnlyAppends(j, later, start);
    ReadOn(later, start, collected);
  }

  /**
   * A client that follows `next_sequence` while `has_more`, each page served
   * from the journal as it then is: it collects the journal in order, and is
   * done within one page more than there are records to read.
   */
  method FollowPages(js: seq<seq<Record>>, start: nat, limit: nat) returns (collected: seq<Record>, done: bool)
    requires Growing(js) && js != [] && 1 <= limit <= 200
    ensures collected <= After(js[|js| - 1], start)
    ensures done ==> exists k :: 0 <= k < |js| && collected == After(js[k], start)
    ensures |After(js[|js| - 1], start)| < |js| ==> done
  {
    collected, done := [], false;
    var next := start;
    for k := 0 to |js|
      invariant !done && next == Cursor(start, collected)
      invariant k == 0 ==> collected == []
      invariant k > 0 ==> collected <= After(js[k - 1], start)
      invariant k <= |collected|
    {
      var page := PageOf(js[k], next, limit);
      var from := if k == 0 then js[0] else js[k - 1];
      assert from <= js[k];
      PageContinues(from, js[k], start, collected, limit);
      collected, next := collected + page.events, page.nextSequence;
      if !page.hasMore {
        GrowthOnlyAppends(js[k], js[|js| - 1], start);
        done := true;
        return;
      }
    }
  }

  // ------------------------------------------------------ event stream

  datatype CursorResult = From(cursor: nat) | Malformed | BeyondJournal

  /** `lastEventId` is absent, not an integer (`Some(None)`), or the integer sent. */
  function StreamCursor(afterSequence: int, lastEventId: Option<Option<int>>, latest: nat): CursorResult {
    if afterSequence < 0 then Malformed
    else
      match lastEventId
      case None => if afterSequence > latest then BeyondJournal else From(afterSequence)
      case Some(None) => Malformed
      case Some(Some(id)) =>
        if id < 0 then Malformed
        else
          var cursor := if id > afterSequence then id else afterSequence;
          if cursor > latest then BeyondJournal else From(cursor)
  }

  /**
   * The stream starts after the later of the two places asked for, and nowhere
   * when one of them is not a place in a journal or lies past the end of this one.
   */
  lemma CursorIsLater(afterSequence: int, lastEventId: Option<Option<int>>, latest: nat)
    ensures var r := StreamCursor(afterSequence, lastEventId, latest);
            var garbled := lastEventId == Some(None) || (lastEventId.Some? && lastEventId.value.GetOr(0) < 0);
            && (r.Malformed? <==> afterSequence < 0 || garbled)
            && (r.From? ==>
                  && afterSequence <= r.cursor <= latest
                  && (r.cursor == afterSequence || lastEventId == Some(Some(r.cursor)))
                  && (lastEventId.Some? ==> lastEventId.value.GetOr(0) <= r.cursor))
            && (r.BeyondJournal? <==> !r.Malformed? && (afterSequence > latest ||
                                        (lastEventId.Some? && lastEventId.value.GetOr(0) > latest)))
  {
  }

  /** The largest sequence of a finishing event among `events`. */
  function Terminal(events: seq<Record>): Option<nat> {
    if events == [] then None
    else
      var last := events[|events| - 1];
      if last.eventType == FINISHED then Some(last.sequence) else Terminal(events[..|events| - 1])
  }

  predicate HasFinish(events: seq<Record>) {
    exists e <- events :: e.eventType == FINISHED
  }

  /** `events` up to and including its last finishing event, or all of it. */
  function ThroughFinish(events: seq<Record>): seq<Record> {
    if !HasFinish(events) || events[|events| - 1].eventType == FINISHED then events
    else ThroughFinish(events[..|events| - 1])
  }

  ghost predicate IsLastFinish(events: seq<Record>, k: int) {
    0 <= k < |events| && events[k].eventType == FINISHED && forall i :: k < i < |events| ==> events[i].eventType != FINISHED
  }

  lemma {:induction false} TerminalIsLastFinish(events: seq<Record>)
    ensures Terminal(events).Some? <==> HasFinish(events)
    ensures Terminal(events).Some? ==>
              exists k :: IsLastFinish(events, k) && events[k].sequence == Terminal(events).value
                          && ThroughFinish(events) == events[..k + 1]
  {
    if events != [] {
      var init, last := events[..|events| - 1], events[|events| - 1];
      TerminalIsLastFinish(init);
      assert events == init + [last];
      if last.eventType == FINISHED {
        assert IsLastFinish(events, |events| - 1) && events[..|events|] == events;
      } else if Terminal(init).Some? {
        var k :| IsLastFinish(init, k) && init[k].sequence == Terminal(init).value && ThroughFinish(init) == init[..k + 1];
        assert IsLastFinish(events, k) && init[..k + 1] == events[..k + 1];
      }
    }
  }

  /** Send one batch, stopping after its last finishing event. */
  method SendBatch(events: seq<Record>, ghost j: seq<Record>, cursor: nat)
    returns (sent: seq<Record>, sequence: nat, ended: bool)
    requires Increasing(j) && events == After(j, cursor)
    ensures sent == ThroughFinish(events) && sequence == Cursor(cursor, sent)
    ensures ended <==> HasFinish(events)
  {
    var terminal := Terminal(events);
    TerminalIsLastFinish(events);
    SameSequenceSameRecord(j, cursor);
    sent, sequence, ended := [], cursor, false;
    for k := 0 to |events|
      invariant sent == events[..k] && sequence == Cursor(cursor, sent)
      invariant terminal.Some? ==> forall i :: 0 <= i < k ==> events[i].sequence != terminal.value
    {
      sequence := events[k].sequence;
      sent := sent + [events[k]];
      if terminal == Some(sequence) {
        return sent, sequence, true;
      }
    }
    assert events[..|events|] == events;
  }

  /** What a batch sends: a prefix, cut after a finish that no later event of it repeats. */
  lemma ThroughFinishShape(events: seq<Record>)
    ensures var sent := ThroughFinish(events);
            && sent <= events
            && (HasFinish(events) ==> && sent != [] && sent[|sent| - 1].eventType == FINISHED
                                      && forall k :: |sent| <= k < |events| ==> events[k].eventType != FINISHED)
            && (!HasFinish(events) ==> sent == events)
  {
    TerminalIsLastFinish(events);
    if HasFinish(events) {
      var k :| IsLastFinish(events, k) && ThroughFinish(events) == events[..k + 1];
    }
  }

  /** All that a connection sends over its polls, and whether it has ended. */
  function Sent(cursor: nat, polls: seq<seq<Record>>): (seq<Record>, bool) {
    if polls == [] then ([], false)
    else
      var (sent, ended) := Sent(cursor, polls[..|polls| - 1]);
      if ended then (sent, true)
      else
        var batch := After(polls[|polls| - 1], Cursor(cursor, sent));
        (sent + ThroughFinish(batch), HasFinish(batch))
  }

  /** Poll `p` is where the connection saw the execution finish: it sent through the last finish in sight. */
  ghost predicate StopsAt(cursor: nat, polls: seq<seq<Record>>, sent: seq<Record>, p: int) {
    && 0 <= p < |polls| && sent <= After(polls[p], cursor)
    && forall k :: |sent| <= k < |After(polls[p], cursor)| ==> After(polls[p], cursor)[k].eventType != FINISHED
  }

  /** What holds of all a connection has sent. */
  ghost predicate SentOk(cursor: nat, polls: seq<seq<Record>>, sent: seq<Record>, ended: bool) {
    && (polls == [] ==> sent == [] && !ended)
    && (polls != [] ==> sent <= After(polls[|polls| - 1], cursor))
    && (polls != [] && !ended ==> sent == After(polls[|polls| - 1], cursor))
    && (ended <==> HasFinish(sent))
    && (ended ==> sent[|sent| - 1].eventType == FINISHED && exists p :: StopsAt(cursor, polls, sent, p))
  }

  lemma OverStaysOk(cursor: nat, polls: seq<seq<Record>>, sent: seq<Record>)
    requires polls != [] && Growing(polls) && SentOk(cursor, polls[..|polls| - 1], sent, true)
    ensures SentOk(cursor, polls, sent, true)
  {
    var p := |polls| - 1;
    GrowthOnlyAppends(polls[p - 1], polls[p], cursor);
    var q :| StopsAt(cursor, polls[..p], sent, q);
    assert StopsAt(cursor, polls, sent, q);
  }

  /** What a connection that goes on has sent so far is all that the journal held at its last poll. */
  lemma StillGoing(cursor: nat, polls: seq<seq<Record>>, before: seq<Record>)
    requires polls != [] && Growing(polls) && SentOk(cursor, polls[..|polls| - 1], before, false)
    ensures !HasFinish(before) && Increasing(polls[|polls| - 1])
    ensures before + After(polls[|polls| - 1], Cursor(cursor, before)) == After(polls[|polls| - 1], cursor)
  {
    var p := |polls| - 1;
    if p > 0 {
      assert polls[p - 1] <= polls[p];
      hide After, Growing, Increasing, StopsAt, HasFinish, Cursor;
      ResumeIsSeamless(polls[p - 1], polls[p], cursor, before, After(polls[p], Cursor(cursor, before)));
    }
  }

  lemma SentSoFar(cursor: nat, polls: seq<seq<Record>>, before: seq<Record>, batch: seq<Record>)
    requires polls != [] && before + batch == After(polls[|polls| - 1], cursor) && !HasFinish(before)
    ensures SentOk(cursor, polls, before + ThroughFinish(batch), HasFinish(batch))
  {
    hide After, ThroughFinish;
    ThroughFinishShape(batch);
    var sent, all := before + ThroughFinish(batch), before + batch;
    if HasFinish(batch) {
      assert sent[|sent| - 1] in sent;
      assert StopsAt(cursor, polls, sent, |polls| - 1) by {
        forall k | |sent| <= k < |all|
          ensures all[k].eventType != FINISHED
        {
          assert all[k] == batch[k - |before|];
        }
      }
    }
  }

  lemma BatchStaysOk(cursor: nat, polls: seq<seq<Record>>, before: seq<Record>)
    requires polls != [] && Growing(polls) && SentOk(cursor, polls[..|polls| - 1], before, false)
    ensures var batch := After(polls[|polls| - 1], Cursor(cursor, before));
            SentOk(cursor, polls, before + ThroughFinish(batch), HasFinish(batch))
  {
    hide SentOk, After, Growing, HasFinish, ThroughFinish, Cursor, Increasing;
    StillGoing(cursor, polls, before);
    SentSoFar(cursor, polls, before, After(polls[|polls| - 1], Cursor(cursor, before)));
  }

  /**
   * A connection sends the journal after its cursor, in order. It ends with a
   * finish exactly when it has sent one, at the last one in sight by then.
   */
  lemma {:induction false} SentIsJournal(cursor: nat, polls: seq<seq<Record>>)
    requires Growing(polls)
    ensures SentOk(cursor, polls, Sent(cursor, polls).0, Sent(cursor, polls).1)
  {
    if polls != [] {
      var init := polls[..|polls| - 1];
      SentIsJournal(cursor, init);
      hide SentOk, After, HasFinish, ThroughFinish, Growing;
      if Sent(cursor, init).1 {
        OverStaysOk(cursor, polls, Sent(cursor, init).0);
      } else {
        BatchStaysOk(cursor, polls, Sent(cursor, init).0);
      }
    }
  }

  /** One connection: poll after poll until the client is gone or the execution has finished. */
  method StreamEvents(cursor: nat, polls: seq<seq<Record>>) returns (sent: seq<Record>, ended: bool)
    requires Growing(polls)
    ensures (sent, ended) == Sent(cursor, polls)
    ensures polls != [] ==> sent <= After(polls[|polls| - 1], cursor)
    ensures polls != [] && !ended ==> sent == After(polls[|polls| - 1], cursor)
    ensures ended <==> exists e <- sent :: e.eventType == "execution.finished"
    ensures ended ==> sent[|sent| - 1].eventType == "execution.finished" && exists p :: StopsAt(cursor, polls, sent, p)
  {
    SentIsJournal(cursor, polls);
    var sequence := cursor;
    sent, ended := [], false;
    var p := 0;
    while p < |polls| && !ended
      invariant 0 <= p <= |polls|
      invariant (sent, ended) == Sent(cursor, polls[..p]) && sequence == Cursor(cursor, sent)
    {
      assert polls[..p + 1][..p] == polls[..p];
      PollCursor(cursor, sent, After(polls[p], sequence));
      var batch;
      batch, sequence, ended := SendBatch(After(polls[p], sequence), polls[p], sequence);
      sent := sent + batch;
      p := p + 1;
    }
    EndedStays(cursor, polls, p);
  }

  lemma PollCursor(cursor: nat, sent: seq<Record>, events: seq<Record>)
    ensures Cursor(Cursor(cursor, sent), ThroughFinish(events)) == Cursor(cursor, sent + ThroughFinish(events))
  {
  }

  lemma {:induction false} EndedStays(cursor: nat, polls: seq<seq<Record>>, p: nat)
    requires p <= |polls| && (p < |polls| ==> Sent(cursor, polls[..p]).1)
    ensures Sent(cursor, polls) == Sent(cursor, polls[..p])
  {
    if p < |polls| {
      var init := polls[..|polls| - 1];
      assert init[..p] == polls[..p];
      EndedStays(cursor, init, p);
    } else {
      assert polls[..p] == polls;
    }
  }

  lemma SameSequenceSameRecord(j: seq<Record>, cursor: nat)
    requires Increasing(j)
    ensures forall i, k | 0 <= i < |After(j, cursor)| && 0 <= k < |After(j, cursor)| ::
              After(j, cursor)[i].sequence == After(j, cursor)[k].sequence ==> i == k
  {
    var n := AfterIsSuffix(j, cursor);
  }

  /**
   * One request for the event stream: the journal when its cursor was checked,
   * the journal at each poll, and what arrived of what was sent.
   */
  datatype Connection = Connection(existing: seq<Record>, polls: seq<seq<Record>>, received: seq<Record>)

  function Received(cs: seq<Connection>): seq<Record> {
    if cs == [] then [] else Received(cs[..|cs| - 1]) + cs[|cs| - 1].received
  }

  /** What the client sends as `Last-Event-ID`: the ID of the last event it has received, if any. */
  function LastEventId(got: seq<Record>): Option<Option<int>> {
    if got == [] then None else Some(Some(got[|got| - 1].sequence))
  }

  /** The cursor rule's answer to a client that asked for `start` and has `got` so far. */
  function Answer(c: Connection, start: nat, got: seq<Record>): CursorResult {
    StreamCursor(start, LastEventId(got), Latest(c.existing))
  }

  /** Served from the cursor the rule gives, the client receives a prefix of what the stream sends; refused, nothing. */
  ghost predicate Serves(c: Connection, start: nat, got: seq<Record>) {
    match Answer(c, start, got)
    case From(cursor) => c.received <= Sent(cursor, c.polls).0
    case _ => c.received == []
  }

  function JournalAfter(c: Connection): seq<Record> {
    if c.polls == [] then c.existing else c.polls[|c.polls| - 1]
  }

  /** Request after request, on a journal that only grows. */
  ghost predicate Requests(cs: seq<Connection>, start: nat) {
    cs == [] ||
    var init, last := cs[..|cs| - 1], cs[|cs| - 1];
    && Requests(init, start)
    && Growing([last.existing] + last.polls)
    && (init != [] ==> JournalAfter(init[|init| - 1]) <= last.existing)
    && Serves(last, start, Received(init))
  }

  /** The rule resumes exactly after what was received, and refuses only before anything was. */
  lemma AnswerResumes(c: Connection, start: nat, got: seq<Record>)
    requires Increasing(c.existing) && got <= After(c.existing, start)
    ensures got != [] ==> Answer(c, start, got) == From(Cursor(start, got))
    ensures got == [] ==> Answer(c, start, got) == if start > Latest(c.existing) then BeyondJournal else From(start)
  {
    if got != [] {
      var n := AfterIsSuffix(c.existing, start);
      assert got[|got| - 1] == c.existing[n + |got| - 1];
    }
  }

  lemma ConnectionGrows(c: Connection)
    requires Growing([c.existing] + c.polls)
    ensures Increasing(c.existing) && Increasing(JournalAfter(c)) && c.existing <= JournalAfter(c)
    ensures Growing(c.polls)
  {
    var all := [c.existing] + c.polls;
    assert all[0] == c.existing && all[|all| - 1] == JournalAfter(c);
    forall k | 0 <= k < |c.polls|
      ensures c.polls[k] == all[k + 1]
    {
    }
  }

  lemma ConnectionContinues(c: Connection, start: nat, got: seq<Record>)
    requires Growing([c.existing] + c.polls) && got <= After(c.existing, start) && Serves(c, start, got)
    ensures got + c.received <= After(JournalAfter(c), start)
  {
    ConnectionGrows(c);
    hide After, Growing, Sent, Cursor, StopsAt, HasFinish, Answer;
    GrowthOnlyAppends(c.existing, JournalAfter(c), start);
    AnswerResumes(c, start, got);
    NothingGot(start);
    if Answer(c, start, got).From? && c.polls != [] {
      SentIsJournal(Cursor(start, got), c.polls);
      ResumeIsSeamless(c.existing, JournalAfter(c), start, got, c.received);
    }
  }

  lemma NothingGot(start: nat)
    ensures Cursor(start, []) == start
  {
  }

  /**
   * However many times a client reconnects with its Last-Event-ID, and wherever
   * each connection broke, it receives the journal in order from its start,
   * without a gap or a repeat.
   */
  lemma {:induction false} ReconnectsNeverGapOrRepeat(cs: seq<Connection>, start: nat)
    requires cs != [] && Requests(cs, start)
    ensures Increasing(JournalAfter(cs[|cs| - 1])) && Received(cs) <= After(JournalAfter(cs[|cs| - 1]), start)
  {
    var init, last := cs[..|cs| - 1], cs[|cs| - 1];
    ConnectionGrows(last);
    hide Serves, After, Growing, JournalAfter, Increasing;
    if init != [] {
      ReconnectsNeverGapOrRepeat(init, start);
      GrowthOnlyAppends(JournalAfter(init[|init| - 1]), last.existing, start);
    }
    assert Received(init) <= After(last.existing, start);
    ConnectionContinues(last, start, Received(init));
  }

  /** Once any event has arrived, no reconnect is ever refused. */
  lemma ResumeIsAccepted(cs: seq<Connection>, start: nat, next: Connection)
    requires cs != [] && Requests(cs + [next], start) && Received(cs) != []
    ensures Answer(next, start, Received(cs)) == From(Cursor(start, Received(cs)))
  {
    assert (cs + [next])[..|cs|] == cs;
    ReconnectsNeverGapOrRepeat(cs, start);
    ConnectionGrows(next);
    GrowthOnlyAppends(JournalAfter(cs[|cs| - 1]), next.existing, start);
    AnswerResumes(next, start, Received(cs));
  }
}
