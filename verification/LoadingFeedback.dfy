/**
 * The loading chip: a batch of layer work is sampled over time, reduced to a
 * delayed, non-flashing notice, and ends with the worst outcome it saw.
 */
module LoadingFeedback {
  import opened Options

  const REVEAL_DELAY_MS: real := 160.0
  const TERMINAL_DWELL_MS: real := 2200.0
  const FAILURE_DWELL_MS: real := 5000.0

  datatype Outcome = Complete | Cancelled | Error

  datatype EventType = VisibilityFailed | RefreshFailed | VisibilityCancelled | Visibility | Refresh | OtherType

  datatype Event = Event(layerId: string, kind: EventType, error: bool, cancelled: bool)

  /** `faulty`: an error, an unavailable feed or a missing key. */
  datatype Record = Record(id: string, faulty: bool)

  datatype Summary = Summary(active: set<string>, records: seq<Record>, disabling: bool, refresh: bool)

  datatype Phase = Idle | Loading | Terminal

  datatype Operation = NoOperation | Disabling | Refreshing | LoadingLayers

  datatype State = State(phase: Phase, visible: bool, startedAt: real, showAt: real, hideAt: real,
                         activeIds: set<string>, batchOutcome: Option<Outcome>, terminal: Option<Outcome>,
                         operation: Operation, failedEventIds: set<string>)

  const FRESH: State := State(Idle, false, 0.0, 0.0, 0.0, {}, None, None, NoOperation, {})

  /** One sample; a clock that is not finite reads as 0. */
  datatype Sample = Sample(summary: Summary, clock: Option<real>, event: Option<Event>) {
    function Now(): real {
      clock.GetOr(0.0)
    }

    predicate Busy() {
      summary.active != {}
    }
  }

  // ------------------------------------------------------------------- outcomes

  function Severity(o: Outcome): nat {
    match o
    case Complete => 1
    case Cancelled => 2
    case Error => 3
  }

  function Merge(current: Option<Outcome>, next: Option<Outcome>): Option<Outcome> {
    if next.None? then current
    else if current.None? || Severity(next.value) > Severity(current.value) then next
    else current
  }

  function FromEvent(event: Event): Option<Outcome> {
    if event.kind.VisibilityFailed? || event.kind.RefreshFailed? || event.error then Some(Error)
    else if event.kind.VisibilityCancelled? || event.cancelled then Some(Cancelled)
    else if event.kind.Visibility? || event.kind.Refresh? then Some(Complete)
    else None
  }

  function FromStats(summary: Summary, participants: set<string>): Option<Outcome> {
    if exists r :: r in summary.records && r.id in participants && r.faulty then Some(Error) else None
  }

  predicate Participates(event: Option<Event>, participants: set<string>) {
    event.Some? && event.value.layerId != "" && event.value.layerId in participants
  }

  function Heard(sample: Sample, participants: set<string>): Option<Outcome> {
    if Participates(sample.event, participants) then FromEvent(sample.event.value) else None
  }

  function FailedIds(before: set<string>, sample: Sample, participants: set<string>): set<string> {
    if Heard(sample, participants) == Some(Error) then before + {sample.event.value.layerId} else before
  }

  // -------------------------------------------------------------------- reducer

  function Reduce(state: State, sample: Sample): State {
    var now := sample.Now();
    if sample.Busy() then
      var beginning := !state.phase.Loading?;
      var ids := (if beginning then {} else state.activeIds) + sample.summary.active;
      var before := if beginning then None else state.batchOutcome;
      State(Loading, !beginning && now >= state.showAt, if beginning then now else state.startedAt,
            if beginning then now + REVEAL_DELAY_MS else state.showAt, 0.0, ids,
            Merge(Merge(before, FromStats(sample.summary, ids)), Heard(sample, ids)), None,
            if sample.summary.disabling then Disabling
            else if sample.summary.refresh then Refreshing
            else LoadingLayers,
            FailedIds(if beginning then {} else state.failedEventIds, sample, ids))
    else if state.phase.Loading? then
      var ids := state.activeIds;
      var outcome := Merge(Merge(state.batchOutcome, FromStats(sample.summary, ids)), Heard(sample, ids));
      var terminal := outcome.GetOr(Complete);
      if !(state.visible || now >= state.showAt) && terminal == Complete then FRESH
      else
        var dwell := if terminal == Error then FAILURE_DWELL_MS else TERMINAL_DWELL_MS;
        state.(phase := Terminal, visible := true, hideAt := now + dwell, batchOutcome := Some(terminal),
               terminal := Some(terminal), failedEventIds := FailedIds(state.failedEventIds, sample, ids))
    else if state.phase.Terminal? && now < state.hideAt then state
    else FRESH
  }

  function Run(state: State, samples: seq<Sample>): State {
    if samples == [] then state else Reduce(Run(state, samples[..|samples| - 1]), samples[|samples| - 1])
  }

  // ---------------------------------------------------------------------- batch

  /** A batch: it starts from no running batch and every sample is busy. */
  predicate Batch(state: State, batch: seq<Sample>) {
    !state.phase.Loading? && batch != [] && forall s <- batch :: s.Busy()
  }

  /** The layers that took part in the samples so far. */
  function Participants(batch: seq<Sample>): set<string> {
    if batch == [] then {} else Participants(batch[..|batch| - 1]) + batch[|batch| - 1].summary.active
  }

  /** The sample carries an event of a layer that takes part. */
  predicate Says(sample: Sample, participants: set<string>) {
    sample.event.Some? && sample.event.value.layerId in participants - {""}
  }

  predicate SaysFailed(sample: Sample, participants: set<string>) {
    && Says(sample, participants)
    && (sample.event.value.error || sample.event.value.kind in {VisibilityFailed, RefreshFailed})
  }

  ghost predicate Faulty(sample: Sample, participants: set<string>) {
    exists r <- sample.summary.records :: r.faulty && r.id in participants
  }

  predicate SaysCancelled(sample: Sample, participants: set<string>) {
    && Says(sample, participants) && !SaysFailed(sample, participants)
    && (sample.event.value.cancelled || sample.event.value.kind == VisibilityCancelled)
  }

  predicate SaysDone(sample: Sample, participants: set<string>) {
    && Says(sample, participants) && !SaysFailed(sample, participants) && !SaysCancelled(sample, participants)
    && sample.event.value.kind in {Visibility, Refresh}
  }

  /** Those who took part by sample `k`. */
  function Joined(samples: seq<Sample>, k: nat): set<string>
    requires k < |samples|
  {
    Participants(samples[..k + 1])
  }

  ghost predicate FailedAt(samples: seq<Sample>, k: nat)
    requires k < |samples|
  {
    SaysFailed(samples[k], Joined(samples, k)) || Faulty(samples[k], Joined(samples, k))
  }

  /** Some sample failed: an event or a record of a layer that had joined by then. */
  ghost predicate AnyFailed(samples: seq<Sample>) {
    exists k | 0 <= k < |samples| :: FailedAt(samples, k)
  }

  ghost predicate AnyCancelled(samples: seq<Sample>) {
    exists k | 0 <= k < |samples| :: SaysCancelled(samples[k], Joined(samples, k))
  }

  ghost predicate AnyDone(samples: seq<Sample>) {
    exists k | 0 <= k < |samples| :: SaysDone(samples[k], Joined(samples, k))
  }

  /** A failure outweighs a cancellation, and a cancellation a completion. */
  function Worst(failed: bool, cancelled: bool, done: bool): Option<Outcome> {
    if failed then Some(Error) else if cancelled then Some(Cancelled) else if done then Some(Complete) else None
  }

  lemma MergeIsWorst(failed: bool, cancelled: bool, done: bool, stats: Option<Outcome>, heard: Option<Outcome>)
    requires stats.None? || stats == Some(Error)
    ensures Merge(Merge(Worst(failed, cancelled, done), stats), heard)
            == Worst(failed || stats == Some(Error) || heard == Some(Error), cancelled || heard == Some(Cancelled),
                     done || heard == Some(Complete))
  {
    var before := Merge(Worst(failed, cancelled, done), stats);
    assert before == Worst(failed || stats == Some(Error), cancelled, done);
    assert heard.Some? ==> heard.value == Complete || heard.value == Cancelled || heard.value == Error;
  }

  ghost function Ending(samples: seq<Sample>): Option<Outcome> {
    Worst(AnyFailed(samples), AnyCancelled(samples), AnyDone(samples))
  }

  /** The layers whose own events failed. */
  function FailedLayers(samples: seq<Sample>): set<string> {
    set k | 0 <= k < |samples| && SaysFailed(samples[k], Joined(samples, k)) ::
      samples[k].event.value.layerId
  }

  lemma JoinedOneMore(samples: seq<Sample>, last: Sample)
    ensures var all, ids := samples + [last], Participants(samples) + last.summary.active;
            && Participants(all) == ids && Joined(all, |samples|) == ids
            && forall k | 0 <= k < |samples| :: Joined(all, k) == Joined(samples, k)
  {
    var all, n := samples + [last], |samples|;
    assert all[..n] == samples && all[..n + 1] == all && all[n] == last;
    forall k | 0 <= k < n
      ensures Joined(all, k) == Joined(samples, k)
    {
      assert all[..k + 1] == samples[..k + 1];
    }
  }

  lemma OneMoreFailedLayer(samples: seq<Sample>, last: Sample)
    ensures var ids := Participants(samples) + last.summary.active;
            FailedLayers(samples + [last])
            == FailedLayers(samples) + (if SaysFailed(last, ids) then {last.event.value.layerId} else {})
  {
    hide SaysFailed;
    JoinedOneMore(samples, last);
    hide Joined, Participants;
  }

  lemma OneMoreSample(samples: seq<Sample>, last: Sample)
    ensures var all, ids := samples + [last], Participants(samples) + last.summary.active;
            && (AnyFailed(all) <==> AnyFailed(samples) || SaysFailed(last, ids) || Faulty(last, ids))
            && (AnyCancelled(all) <==> AnyCancelled(samples) || SaysCancelled(last, ids))
            && (AnyDone(all) <==> AnyDone(samples) || SaysDone(last, ids))
  {
    hide SaysFailed, Faulty, SaysCancelled, SaysDone;
    var all, ids, n := samples + [last], Participants(samples) + last.summary.active, |samples|;
    JoinedOneMore(samples, last);
    hide Joined, Participants;
    assert forall k | 0 <= k < n :: FailedAt(all, k) == FailedAt(samples, k);
    assert FailedAt(all, n) == (SaysFailed(last, ids) || Faulty(last, ids));
    hide FailedAt;
  }

  /** What the events and the records of one sample amount to. */
  lemma OutcomeOfSample(sample: Sample, ids: set<string>)
    ensures Heard(sample, ids) == Some(Error) <==> SaysFailed(sample, ids)
    ensures Heard(sample, ids) == Some(Cancelled) <==> SaysCancelled(sample, ids)
    ensures Heard(sample, ids) == Some(Complete) <==> SaysDone(sample, ids)
    ensures FromStats(sample.summary, ids) == (if Faulty(sample, ids) then Some(Error) else None)
  {
  }

  lemma EndingOneMore(samples: seq<Sample>, last: Sample)
    ensures var ids := Participants(samples) + last.summary.active;
            Ending(samples + [last]) == Merge(Merge(Ending(samples), FromStats(last.summary, ids)), Heard(last, ids))
  {
    var ids := Participants(samples) + last.summary.active;
    JoinedOneMore(samples, last);
    OneMoreSample(samples, last);
    OutcomeOfSample(last, ids);
    MergeIsWorst(AnyFailed(samples), AnyCancelled(samples), AnyDone(samples), FromStats(last.summary, ids),
                 Heard(last, ids));
    hide AnyFailed, AnyCancelled, AnyDone, SaysFailed, SaysCancelled, SaysDone, Faulty, Heard, FromStats, Participants;
    hide Worst, Merge;
  }

  /** What the chip says is being done, from the newest sample. */
  function Doing(sample: Sample): Operation {
    match (sample.summary.disabling, sample.summary.refresh)
    case (true, _) => Disabling
    case (false, true) => Refreshing
    case (false, false) => LoadingLayers
  }

  lemma BusySample(s: State, sample: Sample)
    requires sample.Busy()
    ensures var (now, starts) := (sample.Now(), !s.phase.Loading?);
            var ids := (if starts then {} else s.activeIds) + sample.summary.active;
            var before := if starts then None else s.batchOutcome;
            Reduce(s, sample) ==
            State(Loading, !starts && now >= s.showAt, if starts then now else s.startedAt,
                  if starts then now + 160.0 else s.showAt, 0.0, ids,
                  Merge(Merge(before, FromStats(sample.summary, ids)), Heard(sample, ids)), None, Doing(sample),
                  (if starts then {} else s.failedEventIds)
                  + (if SaysFailed(sample, ids) then {sample.event.value.layerId} else {}))
  {
    OutcomeOfSample(sample, (if s.phase.Loading? then s.activeIds else {}) + sample.summary.active);
    hide Merge, FromStats, Heard, SaysFailed;
  }

  /** A running batch, field by field, from its samples alone. */
  ghost predicate SoFar(s: State, batch: seq<Sample>)
    requires batch != []
  {
    var first, last := batch[0].Now(), batch[|batch| - 1];
    s == State(Loading, |batch| > 1 && last.Now() >= first + 160.0, first, first + 160.0, 0.0,
               Participants(batch), Ending(batch), None, Doing(last), FailedLayers(batch))
  }

  lemma BatchStarts(state: State, sample: Sample)
    requires !state.phase.Loading? && sample.Busy()
    ensures SoFar(Reduce(state, sample), [sample])
  {
    BusySample(state, sample);
    OneMoreFailedLayer([], sample);
    EndingOneMore([], sample);
    NothingYet();
    assert [] + [sample] == [sample];
    hide FromStats, Heard, SaysFailed, FailedLayers, Merge, Ending, Reduce, Doing;
  }

  lemma BatchGoesOn(s: State, before: seq<Sample>, last: Sample)
    requires before != [] && SoFar(s, before) && last.Busy()
    ensures SoFar(Reduce(s, last), before + [last])
  {
    BusySample(s, last);
    JoinedOneMore(before, last);
    OneMoreFailedLayer(before, last);
    EndingOneMore(before, last);
    hide FromStats, Heard, SaysFailed, FailedLayers, Merge, Ending, Reduce, Doing, Joined, Participants;
  }

  lemma {:induction false} BatchSoFar(state: State, batch: seq<Sample>)
    requires Batch(state, batch)
    ensures SoFar(Run(state, batch), batch)
  {
    var init, last := batch[..|batch| - 1], batch[|batch| - 1];
    assert batch == init + [last];
    hide SoFar, Reduce;
    if init == [] {
      BatchStarts(state, last);
    } else {
      BatchSoFar(state, init);
      BatchGoesOn(Run(state, init), init, last);
    }
  }

  lemma NothingYet()
    ensures FailedLayers([]) == {} && Ending([]).None?
  {
  }

  predicate InTime(samples: seq<Sample>) {
    forall i, j :: 0 <= i <= j < |samples| ==> samples[i].Now() <= samples[j].Now()
  }

  /** Whether the batch outlived the reveal delay by the time it ended. */
  predicate Revealed(batch: seq<Sample>, end: Sample)
    requires batch != []
  {
    end.Now() >= batch[0].Now() + 160.0
  }

  /** The sample that ends a batch: its outcome is the batch's, or complete. */
  lemma EndsLoading(s: State, end: Sample)
    requires s.phase.Loading? && !end.Busy()
    ensures var (ids, now) := (s.activeIds, end.Now());
            var t := Merge(Merge(s.batchOutcome, FromStats(end.summary, ids)), Heard(end, ids)).GetOr(Complete);
            Reduce(s, end) ==
            if t == Complete && !s.visible && now < s.showAt then FRESH
            else State(Terminal, true, s.startedAt, s.showAt, now + (if t == Error then 5000.0 else 2200.0), ids,
                       Some(t), Some(t), s.operation, FailedIds(s.failedEventIds, end, ids))
  {
    hide Merge, FromStats, Heard, FailedIds;
  }

  /**
   * A batch ends with the worst outcome of any participant's event or stat in
   * it, in whatever order they came. It is shown unless it was clean and quick.
   */
  lemma BatchEndsWithWorst(state: State, batch: seq<Sample>, end: Sample)
    requires Batch(state, batch) && !end.Busy() && InTime(batch + [end])
    ensures var all, first, last := batch + [end], batch[0].Now(), batch[|batch| - 1];
            var (ending, after) := (Ending(all).GetOr(Complete), Run(state, all));
            if ending == Complete && !Revealed(batch, end) then after == FRESH && !after.visible
            else after == State(Terminal, true, first, first + 160.0,
                                end.Now() + (if ending == Error then 5000.0 else 2200.0),
                                Participants(batch), Some(ending), Some(ending), Doing(last), FailedLayers(all))
  {
    var (all, running) := (batch + [end], Run(state, batch));
    assert all[..|batch|] == batch;
    assert all[|batch| - 1].Now() <= all[|batch|].Now() && all[|batch| - 1] == batch[|batch| - 1];
    BatchSoFar(state, batch);
    EndingOneMore(batch, end);
    JoinedOneMore(batch, end);
    OneMoreFailedLayer(batch, end);
    OutcomeOfSample(end, Participants(batch));
    assert Participants(batch) + end.summary.active == Participants(batch);
    assert Run(state, all) == Reduce(running, end);
    EndsLoading(running, end);
    hide FromStats, Heard, SaysFailed, Ending, Faulty, FailedLayers, Merge, Participants, InTime, Run;
    hide Batch, Doing, Reduce, AnyFailed, AnyCancelled, AnyDone;
  }

  /** While it runs, a batch is not shown before the reveal delay is over. */
  lemma QuickBatchIsNeverShown(state: State, batch: seq<Sample>, k: nat)
    requires Batch(state, batch) && 0 < k <= |batch|
    requires batch[k - 1].Now() < batch[0].Now() + 160.0
    ensures !Run(state, batch[..k]).visible
  {
    assert Batch(state, batch[..k]);
    BatchSoFar(state, batch[..k]);
  }

  /** A finished batch stays as it is until its dwell is over and is then forgotten, unless a new one starts. */
  lemma {:induction false} TerminalDwells(state: State, idle: seq<Sample>)
    requires state.phase.Terminal?
    requires forall s <- idle :: !s.Busy()
    ensures (forall s <- idle :: s.Now() < state.hideAt) ==> Run(state, idle) == state
    ensures (exists s <- idle :: s.Now() >= state.hideAt) ==> Run(state, idle) == FRESH
  {
    if idle != [] {
      var init, last := idle[..|idle| - 1], idle[|idle| - 1];
      assert idle == init + [last];
      TerminalDwells(state, init);
    }
  }

  /** A failed batch is shown for five seconds. */
  lemma FailureIsShown(state: State, batch: seq<Sample>, end: Sample, idle: seq<Sample>)
    requires Batch(state, batch) && !end.Busy() && InTime(batch + [end])
    requires AnyFailed(batch + [end])
    requires forall s <- idle :: !s.Busy()
    requires forall s <- idle :: s.Now() < end.Now() + 5000.0
    ensures var after := Run(Run(state, batch + [end]), idle);
            after.visible && after.terminal == Some(Error)
  {
    hide AnyFailed, AnyCancelled, AnyDone, Run, Batch, InTime, FailedLayers;
    BatchEndsWithWorst(state, batch, end);
    TerminalDwells(Run(state, batch + [end]), idle);
  }
}
