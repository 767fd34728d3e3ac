/** `DatasetBuilder.build` in `datasets.py` as it runs: the replay generator and the label queries
    read the store afresh each time, while others go on recording between the reads. */
module LiveDatasets {
  import opened Common
  import opened History
  import opened HistoryReplay
  import opened ReplayFrames
  import opened ReplayGenerator
  import opened Datasets

  // ---------------------------------------------------------------- what the reads see

  /** The batches others record before each read: before the k-th frame at 2k, before its label
      query at 2k + 1. */
  type Feed = nat -> seq<Batch>

  function StoreAt(st: Store, feed: Feed, n: nat): Store {
    if n == 0 then st else Run(StoreAt(st, feed, n - 1), feed(n - 1))
  }

  function BuildTicks(cal: Calendar, from: int, end: int): seq<Tick> {
    TicksOf(ReplayedSessions(cal, from, end), from, end, MINUTE)
  }

  function LiveFrame(st: Store, feed: Feed, cal: Calendar, instrument: Instrument, from: int, k: nat, t: Tick): Frame {
    FrameAt(StoreAt(st, feed, 2 * k + 1), cal, instrument, t.session, from, t.at, MINUTE)
  }

  /** The samples of the first n frames. */
  function LiveSamplesOf<F, L>(st: Store, feed: Feed, cal: Calendar, instrument: Instrument, start: int,
      splits: TimeSplits, asOf: int, spec: Formulas<F, L>, n: nat): seq<Sample<F, L>>
    requires HorizonAllowed(spec) && n <= |BuildTicks(cal, ReplayStart(cal, start), splits.testEnd)|
  {
    if n == 0 then []
    else
      var from := ReplayStart(cal, start);
      var f := LiveFrame(st, feed, cal, instrument, from, n - 1, BuildTicks(cal, from, splits.testEnd)[n - 1]);
      LiveSamplesOf(st, feed, cal, instrument, start, splits, asOf, spec, n - 1) +
      if f.asOf < start || f.asOf >= splits.testEnd then []
      else [Sample(f.asOf, OutcomeOf(StoreAt(st, feed, 2 * n), cal, instrument, splits, asOf, spec, f))]
  }

  function LiveSamples<F, L>(st: Store, feed: Feed, cal: Calendar, instrument: Instrument, start: int,
      splits: TimeSplits, asOf: int, spec: Formulas<F, L>): Result<seq<Sample<F, L>>, BuildError>
    requires HorizonAllowed(spec)
  {
    if !(start < splits.trainEnd) || splits.testEnd > asOf then Err(BadBuildRange)
    else
      var from := ReplayStart(cal, start);
      var frames := Replay(st, cal, instrument, from, splits.testEnd, MINUTE);
      if frames.Err? then Err(ReplayFailed(frames.error))
      else Ok(LiveSamplesOf(st, feed, cal, instrument, start, splits, asOf, spec, |BuildTicks(cal, from, splits.testEnd)|))
  }

  function LiveBuilt<F, L>(st: Store, feed: Feed, cal: Calendar, instrument: Instrument, start: int,
      splits: TimeSplits, asOf: int, spec: Formulas<F, L>): Result<Dataset<F, L>, BuildError>
    requires HorizonAllowed(spec)
  {
    var samples := LiveSamples(st, feed, cal, instrument, start, splits, asOf, spec);
    if samples.Err? then Err(samples.error)
    else if !LeakageChecks(splits, RowsOf(samples.value)) then Err(LeakageInvariantFailed)
    else Ok(Dataset(RowsOf(samples.value), ExclusionsOf(samples.value)))
  }

  lemma {:induction false} StoresValid(st: Store, feed: Feed, n: nat)
    requires Valid(st)
    ensures Valid(StoreAt(st, feed, n))
  {
    hide Run, Valid;
    if n > 0 {
      StoresValid(st, feed, n - 1);
      RunKeeps(StoreAt(st, feed, n - 1), feed(n - 1), Earliest(feed(n - 1)));
    }
  }

  // ---------------------------------------------------------------- the build

  /** Others' recordings between two reads of the build, accepted or rejected. */
  method Arrive(store: HistoricalStore, batches: seq<Batch>)
    requires Valid(store.Model())
    modifies store
    ensures Valid(store.Model()) && store.Model() == Run(old(store.Model()), batches)
  {
    hide Valid, AfterRecord;
    for k := 0 to |batches|
      invariant Valid(store.Model()) && Run(old(store.Model()), batches) == Run(store.Model(), batches[k..])
    {
      assert batches[k..][1..] == batches[k + 1..];
      var _ := store.Write(batches[k]);
    }
  }

  /** Whether a replay is refused, and at which instants it yields, does not depend on the store. */
  lemma ReplayTicked(st: Store, other: Store, cal: Calendar, instrument: Instrument, from: int, end: int)
    ensures
      var a, b := Replay(st, cal, instrument, from, end, MINUTE), Replay(other, cal, instrument, from, end, MINUTE);
      && (a.Err? ==> b == a)
      && (a.Ok? ==> b.Ok? && FramesAt(st, cal, instrument, from, MINUTE, BuildTicks(cal, from, end), a.value)
                    && FramesAt(other, cal, instrument, from, MINUTE, BuildTicks(cal, from, end), b.value))
  {
    hide FramesOf, TicksOf, ReplayedSessions, Divides, FramesAt;
    FramesAtTicks(st, cal, instrument, ReplayedSessions(cal, from, end), from, end, MINUTE);
    FramesAtTicks(other, cal, instrument, ReplayedSessions(cal, from, end), from, end, MINUTE);
  }

  /** The generator's next step, after whatever arrived since the last read. */
  method NextFrame(store: HistoricalStore, source: FrameSource, batches: seq<Batch>, ghost st: Store)
    returns (next: Result<Option<Frame>, Error>)
    requires source.Ready() && !source.finished && source.store == store && source.interval == MINUTE && Valid(store.Model())
    modifies store, source
    ensures source.Ready() && Valid(store.Model()) && store.Model() == Run(old(store.Model()), batches)
    ensures source.finished <==> !(next.Ok? && next.value.Some?)
    ensures
      var ticks := BuildTicks(source.cal, source.start, source.end);
      var refused := Replay(st, source.cal, source.instrument, source.start, source.end, MINUTE);
      var k := |old(source.yielded)|;
      && (next.Err? <==> refused.Err?) && (next.Err? ==> next.error == refused.error)
      && (next.Ok? && k <= |ticks| ==>
            if next.value.None? then k == |ticks|
            else && |source.yielded| == k + 1 <= |ticks|
                 && next.value.value == FrameAt(store.Model(), source.cal, source.instrument, ticks[k].session, source.start, ticks[k].at, MINUTE))
  {
    hide Run, Replay, BuildTicks, FrameAt, Valid;
    Arrive(store, batches);
    ReplayTicked(st, store.Model(), source.cal, source.instrument, source.start, source.end);
    next := source.Next();
  }

  /** What one turn of the row loop comes to. */
  datatype Turn<F, L> = Refused(error: Error) | Exhausted | Passed | Sampled(outcome: Outcome<F, L>)

  /** One turn: the next frame, and for a frame inside the build range its outcome. */
  method Take<F, L>(store: HistoricalStore, source: FrameSource, feed: Feed, k: nat, start: int, splits: TimeSplits,
      asOf: int, spec: Formulas<F, L>, ghost st: Store)
    returns (turn: Turn<F, L>)
    requires HorizonAllowed(spec) && Building(store, source, feed, start, splits, st) && k == |source.yielded|
    modifies store, source
    ensures turn.Refused? || turn.Exhausted? || Building(store, source, feed, start, splits, st)
    ensures Valid(store.Model())
    ensures
      var from := ReplayStart(source.cal, start);
      var n := |BuildTicks(source.cal, from, splits.testEnd)|;
      var refused := Replay(st, source.cal, source.instrument, from, splits.testEnd, MINUTE);
      && (turn.Refused? <==> refused.Err?) && (turn.Refused? ==> turn.error == refused.error)
      && (turn.Exhausted? ==> k == n)
      && (turn.Passed? || turn.Sampled? ==>
            && |source.yielded| == k + 1 <= n
            && var before := LiveSamplesOf(st, feed, source.cal, source.instrument, start, splits, asOf, spec, k);
               var after := LiveSamplesOf(st, feed, source.cal, source.instrument, start, splits, asOf, spec, k + 1);
               if turn.Passed? then after == before
               else |after| == |before| + 1 && after[..|before|] == before && after[|before|].outcome == turn.outcome)
  {
    hide Replay, OutcomeOf, Run, BuildTicks, ReplayStart, FrameAt, Valid, FramesAt, FeaturesOf, FrameSource.Ready, StoreAt, LiveSamplesOf;
    var next := NextFrame(store, source, feed(2 * k), st);
    if next.Err? {
      return Refused(next.error);
    }
    if next.value.None? {
      return Exhausted;
    }
    var f := next.value.value;
    Arrive(store, feed(2 * k + 1));
    StoreStep(st, feed, 2 * k);
    StoreStep(st, feed, 2 * k + 1);
    LiveStep(st, feed, source.cal, source.instrument, start, splits, asOf, spec, k + 1);
    if f.asOf < start || f.asOf >= splits.testEnd {
      return Passed;
    }
    var outcome := Classify(store, source.cal, source.instrument, splits, asOf, spec, f);
    turn := Sampled(outcome);
  }

  /** The generator is set up for this build and the store holds what arrived before its next step. */
  ghost predicate Building(store: HistoricalStore, source: FrameSource, feed: Feed, start: int, splits: TimeSplits, st: Store)
    reads store, source
  {
    && source.Ready() && !source.finished && source.store == store
    && source.start == ReplayStart(source.cal, start) && source.end == splits.testEnd && source.interval == MINUTE
    && |source.yielded| <= |BuildTicks(source.cal, source.start, source.end)|
    && Valid(store.Model()) && store.Model() == StoreAt(st, feed, 2 * |source.yielded|)
  }

  /** The row loop: one pass over the generator, appending rows and counting exclusions. */
  method Collect<F, L>(store: HistoricalStore, source: FrameSource, feed: Feed, start: int, splits: TimeSplits, asOf: int,
      spec: Formulas<F, L>, ghost st: Store)
    returns (refusal: Option<Error>, rows: seq<DataRow<F, L>>, excluded: multiset<Exclusion>)
    requires HorizonAllowed(spec) && Building(store, source, feed, start, splits, st) && |source.yielded| == 0 && Valid(store.Model())
    modifies store, source
    ensures Valid(store.Model())
    ensures
      var from := ReplayStart(source.cal, start);
      var refused := Replay(st, source.cal, source.instrument, from, splits.testEnd, MINUTE);
      && (refusal.Some? <==> refused.Err?) && (refusal.Some? ==> refusal.value == refused.error)
      && (refusal.None? ==>
            var samples := LiveSamplesOf(st, feed, source.cal, source.instrument, start, splits, asOf, spec,
                                         |BuildTicks(source.cal, from, splits.testEnd)|);
            rows == RowsOf(samples) && excluded == ExclusionsOf(samples))
  {
    hide *;
    rows, excluded := [], multiset{};
    ghost var samples: seq<Sample<F, L>> := [];
    NothingYet(st, feed, source.cal, source.instrument, start, splits, asOf, spec);
    var k := 0;
    while true
      invariant k == |source.yielded| <= |BuildTicks(source.cal, ReplayStart(source.cal, start), splits.testEnd)|
      invariant Building(store, source, feed, start, splits, st) && Valid(store.Model())
      invariant samples == LiveSamplesOf(st, feed, source.cal, source.instrument, start, splits, asOf, spec, k)
      invariant rows == RowsOf(samples) && excluded == ExclusionsOf(samples)
      decreases |BuildTicks(source.cal, ReplayStart(source.cal, start), splits.testEnd)| - k
    {
      var turn := Take(store, source, feed, k, start, splits, asOf, spec, st);
      if turn.Refused? {
        return Some(turn.error), rows, excluded;
      }
      if turn.Exhausted? {
        return None, rows, excluded;
      }
      k := k + 1;
      samples := LiveSamplesOf(st, feed, source.cal, source.instrument, start, splits, asOf, spec, k);
      if turn.Passed? {
        continue;
      }
      SampleAppended(samples);
      if turn.outcome.Kept? {
        rows := rows + [turn.outcome.row];
      } else {
        excluded := excluded + multiset{turn.outcome.reason};
      }
    }
  }

  /** `build` as written. */
  method Build<F, L>(store: HistoricalStore, feed: Feed, cal: Calendar, instrument: Instrument, start: int,
      splits: TimeSplits, asOf: int, spec: Formulas<F, L>)
    returns (r: Result<Dataset<F, L>, BuildError>)
    requires HorizonAllowed(spec) && Valid(store.Model())
    modifies store
    ensures Valid(store.Model())
    ensures r == LiveBuilt(old(store.Model()), feed, cal, instrument, start, splits, asOf, spec)
  {
    hide Replay, LeakageChecks, OutcomeOf, Run, BuildTicks, ReplayStart, Valid, LiveSamplesOf, RowsOf, ExclusionsOf;
    if !(start < splits.trainEnd) || splits.testEnd > asOf {
      return Err(BadBuildRange);
    }
    var source := new FrameSource(store, cal, instrument, ReplayStart(cal, start), splits.testEnd, MINUTE);
    var refusal, rows, excluded := Collect(store, source, feed, start, splits, asOf, spec, store.Model());
    if refusal.Some? {
      return Err(ReplayFailed(refusal.value));
    }
    if !LeakageChecks(splits, rows) {
      return Err(LeakageInvariantFailed);
    }
    r := Ok(Dataset(rows, excluded));
  }

  lemma NothingYet<F, L>(st: Store, feed: Feed, cal: Calendar, instrument: Instrument, start: int, splits: TimeSplits,
      asOf: int, spec: Formulas<F, L>)
    requires HorizonAllowed(spec)
    ensures
      var samples := LiveSamplesOf(st, feed, cal, instrument, start, splits, asOf, spec, 0);
      samples == [] && RowsOf(samples) == [] && ExclusionsOf(samples) == multiset{}
  {
  }

  lemma StoreStep(st: Store, feed: Feed, n: nat)
    ensures StoreAt(st, feed, n + 1) == Run(StoreAt(st, feed, n), feed(n))
  {
    hide Run;
  }

  lemma LiveStep<F, L>(st: Store, feed: Feed, cal: Calendar, instrument: Instrument, start: int, splits: TimeSplits,
      asOf: int, spec: Formulas<F, L>, k: nat)
    requires HorizonAllowed(spec) && 0 < k <= |BuildTicks(cal, ReplayStart(cal, start), splits.testEnd)|
    ensures
      var from := ReplayStart(cal, start);
      var t := BuildTicks(cal, from, splits.testEnd)[k - 1];
      var f := FrameAt(StoreAt(st, feed, 2 * k - 1), cal, instrument, t.session, from, t.at, MINUTE);
      LiveSamplesOf(st, feed, cal, instrument, start, splits, asOf, spec, k)
      == LiveSamplesOf(st, feed, cal, instrument, start, splits, asOf, spec, k - 1)
         + if f.asOf < start || f.asOf >= splits.testEnd then []
           else [Sample(f.asOf, OutcomeOf(StoreAt(st, feed, 2 * k), cal, instrument, splits, asOf, spec, f))]
  {
    hide OutcomeOf, StoreAt, FrameAt;
  }

  lemma SampleAppended<F, L>(samples: seq<Sample<F, L>>)
    requires samples != []
    ensures
      var n := |samples| - 1;
      && RowsOf(samples) == RowsOf(samples[..n]) + (if samples[n].outcome.Kept? then [samples[n].outcome.row] else [])
      && ExclusionsOf(samples) == ExclusionsOf(samples[..n])
            + (if samples[n].outcome.Excluded? then multiset{samples[n].outcome.reason} else multiset{})
  {
  }

  method Classify<F, L>(store: HistoricalStore, cal: Calendar, instrument: Instrument, splits: TimeSplits, asOf: int,
      spec: Formulas<F, L>, f: Frame)
    returns (outcome: Outcome<F, L>)
    requires HorizonAllowed(spec) && f.asOf < splits.testEnd && Valid(store.Model())
    ensures outcome == OutcomeOf(store.Model(), cal, instrument, splits, asOf, spec, f)
  {
    hide Query, SessionOn;
    var split := Locate(splits, f.asOf).value;
    var features := FeaturesOf(spec, f);
    if features.None? {
      return Excluded(FeaturesUnavailable);
    }
    var target := f.asOf + spec.horizon * MINUTE;
    if target >= EndOf(splits, split) {
      return Excluded(PurgedSplitHorizon);
    }
    var session := SessionOn(cal, DateOf(f.asOf));
    if session.None? || target > ClosesAt(session.value) {
      return Excluded(OutcomeOutsideSession);
    }
    var cutoff := LabelCutoff(splits, split, asOf);
    var future := store.Candles(instrument, MINUTE, f.asOf, target, cutoff);
    if OpenTimes(future.value) != MinuteOpens(f.asOf, spec.horizon) {
      return Excluded(MissingOrLateLabelData);
    }
    var base := f.bars[|f.bars| - 1].content.close;
    outcome := Kept(DataRow(split, f.asOf, target, cutoff, features.value, spec.labels(features.value, base, future.value), future.value));
  }


  // ---------------------------------------------------------------- the checks never fail

  lemma FrameAtInstant(st: Store, feed: Feed, cal: Calendar, instrument: Instrument, from: int, k: nat, t: Tick)
    ensures LiveFrame(st, feed, cal, instrument, from, k, t).asOf == t.at
  {
    FrameInstant(StoreAt(st, feed, 2 * k + 1), cal, instrument, t.session, from, t.at, MINUTE);
  }

  ghost predicate AscendingTicks(ticks: seq<Tick>) {
    forall i, j :: 0 <= i < j < |ticks| ==> ticks[i].at < ticks[j].at
  }

  lemma TicksAscend(st: Store, cal: Calendar, instrument: Instrument, from: int, end: int)
    requires Replay(st, cal, instrument, from, end, MINUTE).Ok?
    ensures AscendingTicks(BuildTicks(cal, from, end))
  {
    hide Replay, BuildTicks, FrameAt;
    var frames, ticks := Replay(st, cal, instrument, from, end, MINUTE).value, BuildTicks(cal, from, end);
    ReplayTicks(st, cal, instrument, from, end, MINUTE, 0);
    ReplayTicked(st, st, cal, instrument, from, end);
    forall i | 0 <= i < |ticks| ensures frames[i].asOf == ticks[i].at {
      FrameInstant(st, cal, instrument, ticks[i].session, from, ticks[i].at, MINUTE);
    }
  }

  /** The samples ascend, up to the last instant read, and every kept one passes its row's check. */
  ghost predicate InShape<F, L>(splits: TimeSplits, samples: seq<Sample<F, L>>, last: int) {
    && AscendingSamples(samples)
    && forall k :: 0 <= k < |samples| ==> SampleChecked(splits, samples[k]) && samples[k].at <= last
  }

  ghost predicate SampleChecked<F, L>(splits: TimeSplits, s: Sample<F, L>) {
    s.outcome.Kept? ==> s.outcome.row.at == s.at && RowChecked(splits, s.outcome.row)
  }

  lemma {:induction false} LiveInShape<F, L>(st: Store, feed: Feed, cal: Calendar, instrument: Instrument, start: int,
      splits: TimeSplits, asOf: int, spec: Formulas<F, L>, n: nat)
    requires HorizonAllowed(spec) && AscendingTicks(BuildTicks(cal, ReplayStart(cal, start), splits.testEnd))
    requires n < |BuildTicks(cal, ReplayStart(cal, start), splits.testEnd)|
    ensures InShape(splits, LiveSamplesOf(st, feed, cal, instrument, start, splits, asOf, spec, n + 1),
                    BuildTicks(cal, ReplayStart(cal, start), splits.testEnd)[n].at)
  {
    hide OutcomeOf, RowChecked, BuildTicks, ReplayStart, LiveFrame, StoreAt;
    var from := ReplayStart(cal, start);
    var t := BuildTicks(cal, from, splits.testEnd)[n];
    var f := LiveFrame(st, feed, cal, instrument, from, n, t);
    FrameAtInstant(st, feed, cal, instrument, from, n, t);
    if n > 0 {
      LiveInShape(st, feed, cal, instrument, start, splits, asOf, spec, n - 1);
    }
    if f.asOf < splits.testEnd && OutcomeOf(StoreAt(st, feed, 2 * n + 2), cal, instrument, splits, asOf, spec, f).Kept? {
      KeptRowChecked(StoreAt(st, feed, 2 * n + 2), cal, instrument, splits, asOf, spec, f);
    }
  }

  /** The leakage checks never fail, whatever is recorded while the build runs: a build that replays
      returns its rows. */
  lemma ChecksAlwaysHold<F, L>(st: Store, feed: Feed, cal: Calendar, instrument: Instrument, start: int,
      splits: TimeSplits, asOf: int, spec: Formulas<F, L>)
    requires HorizonAllowed(spec) && LiveSamples(st, feed, cal, instrument, start, splits, asOf, spec).Ok?
    ensures
      var samples := LiveSamples(st, feed, cal, instrument, start, splits, asOf, spec).value;
      LiveBuilt(st, feed, cal, instrument, start, splits, asOf, spec) == Ok(Dataset(RowsOf(samples), ExclusionsOf(samples)))
  {
    hide Replay, LiveSamplesOf, BuildTicks, ReplayStart, RowsOf, ExclusionsOf;
    var from := ReplayStart(cal, start);
    var n := |BuildTicks(cal, from, splits.testEnd)|;
    TicksAscend(st, cal, instrument, from, splits.testEnd);
    if n > 0 {
      LiveInShape(st, feed, cal, instrument, start, splits, asOf, spec, n - 1);
      ShapePasses(splits, LiveSamplesOf(st, feed, cal, instrument, start, splits, asOf, spec, n), BuildTicks(cal, from, splits.testEnd)[n - 1].at);
    } else {
      NoRows(st, feed, cal, instrument, start, splits, asOf, spec);
    }
  }

  lemma NoRows<F, L>(st: Store, feed: Feed, cal: Calendar, instrument: Instrument, start: int, splits: TimeSplits,
      asOf: int, spec: Formulas<F, L>)
    requires HorizonAllowed(spec)
    ensures LeakageChecks(splits, RowsOf(LiveSamplesOf(st, feed, cal, instrument, start, splits, asOf, spec, 0)))
  {
  }

  lemma ShapePasses<F, L>(splits: TimeSplits, samples: seq<Sample<F, L>>, last: int)
    requires InShape(splits, samples, last)
    ensures LeakageChecks(splits, RowsOf(samples))
  {
    hide RowChecked, UniqueTimes;
    RowsComeFromSamples(samples);
    RowTimesUnique(samples);
    var rows := RowsOf(samples);
    forall k | 0 <= k < |rows| ensures RowChecked(splits, rows[k]) {
      var s := Sample(rows[k].at, Kept(rows[k]));
      assert s in samples;
      var j :| 0 <= j < |samples| && samples[j] == s;
      assert SampleChecked(splits, samples[j]);
    }
  }

  // ---------------------------------------------------------------- non-interference

  lemma {:induction false} StoresGrow(st: Store, batches: seq<Batch>, feed: Feed, from: int, n: nat)
    requires Valid(st) && (forall k :: 0 <= k < |batches| ==> from <= batches[k].available) && FeedFrom(feed, from)
    ensures Grows(st.rows, StoreAt(Run(st, batches), feed, n).rows, from)
  {
    hide Run, Valid;
    if n == 0 {
      RunKeeps(st, batches, from);
    } else {
      StoresGrow(st, batches, feed, from, n - 1);
      RunKeeps(st, batches, from);
      StoresValid(Run(st, batches), feed, n - 1);
      assert Arrives(feed(n - 1), from);
      RunKeeps(StoreAt(Run(st, batches), feed, n - 1), feed(n - 1), from);
    }
  }

  ghost predicate Arrives(batches: seq<Batch>, from: int) {
    forall j :: 0 <= j < |batches| ==> from <= batches[j].available
  }

  /** Everything recorded during the build becomes available at or after `from`. */
  ghost predicate FeedFrom(feed: Feed, from: int) {
    forall k :: Arrives(feed(k), from)
  }

  lemma {:induction false} LiveAgrees<F(!new), L(!new)>(st: Store, batches: seq<Batch>, feed: Feed, cal: Calendar,
      instrument: Instrument, start: int, splits: TimeSplits, asOf: int, spec: Formulas<F, L>, name: SplitName,
      frames: seq<Frame>, n: nat)
    requires Valid(st) && HorizonAllowed(spec) && n <= |BuildTicks(cal, ReplayStart(cal, start), splits.testEnd)|
    requires Arrives(batches, EndOf(splits, name)) && FeedFrom(feed, EndOf(splits, name))
    requires FramesAt(st, cal, instrument, ReplayStart(cal, start), MINUTE, BuildTicks(cal, ReplayStart(cal, start), splits.testEnd), frames)
    ensures SamplesAgree(SamplesOf(st, cal, instrument, start, splits, asOf, spec, frames[..n]),
                         LiveSamplesOf(Run(st, batches), feed, cal, instrument, start, splits, asOf, spec, n), EndOf(splits, name))
  {
    hide OutcomeOf, Grows, Run, StoreAt, FrameAt, BuildTicks, ReplayStart, FeedFrom, Valid;
    if n > 0 {
      var from, end := ReplayStart(cal, start), EndOf(splits, name);
      LiveAgrees(st, batches, feed, cal, instrument, start, splits, asOf, spec, name, frames, n - 1);
      assert frames[..n][..n - 1] == frames[..n - 1];
      var t := BuildTicks(cal, from, splits.testEnd)[n - 1];
      var read, labelled := StoreAt(Run(st, batches), feed, 2 * n - 1), StoreAt(Run(st, batches), feed, 2 * n);
      StoresGrow(st, batches, feed, end, 2 * n - 1);
      StoresGrow(st, batches, feed, end, 2 * n);
      FramesAgree(st, read, end, cal, instrument, t.session, from, t.at, MINUTE);
      assert AgreeBefore([frames[n - 1]], [LiveFrame(Run(st, batches), feed, cal, instrument, from, n - 1, t)], end);
      SameWhenEarly([frames[n - 1]], [LiveFrame(Run(st, batches), feed, cal, instrument, from, n - 1, t)], end);
      if frames[n - 1].asOf < end {
        OutcomesAgree(st, labelled, name, cal, instrument, splits, asOf, spec, frames[n - 1]);
      }
    }
  }

  lemma SameWhenEarly(a: seq<Frame>, b: seq<Frame>, end: int)
    requires AgreeBefore(a, b, end) && |a| == |b| == 1
    ensures a[0].asOf == b[0].asOf && (a[0].asOf < end ==> a[0] == b[0])
  {
  }

  /** Training non-interference, with recordings before and all through the build: when they become
      available only at or after a split's end, accepted or rejected, every sample of that split and
      of the earlier ones is the one a build on the store as it was gives: the same rows with the
      same features and labels, and the same frames excluded for the same reasons. */
  lemma LaterDataNeverInterferes<F(!new), L(!new)>(st: Store, batches: seq<Batch>, feed: Feed, cal: Calendar,
      instrument: Instrument, start: int, splits: TimeSplits, asOf: int, spec: Formulas<F, L>, name: SplitName)
    requires Valid(st) && HorizonAllowed(spec)
    requires Arrives(batches, EndOf(splits, name)) && FeedFrom(feed, EndOf(splits, name))
    ensures
      var was := Samples(st, cal, instrument, start, splits, asOf, spec);
      var now := LiveSamples(Run(st, batches), feed, cal, instrument, start, splits, asOf, spec);
      if was.Err? then now == Err(was.error)
      else now.Ok? && SamplesBefore(now.value, EndOf(splits, name)) == SamplesBefore(was.value, EndOf(splits, name))
  {
    hide Run, Replay, SamplesOf, LiveSamplesOf, SamplesBefore, BuildTicks, ReplayStart, FeedFrom, FramesAt, Valid;
    var from := ReplayStart(cal, start);
    ReplayTicked(st, Run(st, batches), cal, instrument, from, splits.testEnd);
    if Samples(st, cal, instrument, start, splits, asOf, spec).Ok? {
      var frames := Replay(st, cal, instrument, from, splits.testEnd, MINUTE).value;
      var n := |BuildTicks(cal, from, splits.testEnd)|;
      LiveAgrees(st, batches, feed, cal, instrument, start, splits, asOf, spec, name, frames, n);
      TickedLength(st, cal, instrument, from, BuildTicks(cal, from, splits.testEnd), frames);
      assert frames[..n] == frames;
      BeforeAgrees(SamplesOf(st, cal, instrument, start, splits, asOf, spec, frames),
                   LiveSamplesOf(Run(st, batches), feed, cal, instrument, start, splits, asOf, spec, n), EndOf(splits, name));
    }
  }

  lemma TickedLength(st: Store, cal: Calendar, instrument: Instrument, from: int, ticks: seq<Tick>, frames: seq<Frame>)
    requires FramesAt(st, cal, instrument, from, MINUTE, ticks, frames)
    ensures |frames| == |ticks|
  {
  }

  /** With recordings available only at or after the test end, the build returns what it would have
      returned on the store as it was. */
  lemma FinishedDatasetsAreFixed<F(!new), L(!new)>(st: Store, batches: seq<Batch>, feed: Feed, cal: Calendar,
      instrument: Instrument, start: int, splits: TimeSplits, asOf: int, spec: Formulas<F, L>)
    requires Valid(st) && HorizonAllowed(spec) && Arrives(batches, splits.testEnd) && FeedFrom(feed, splits.testEnd)
    ensures LiveBuilt(Run(st, batches), feed, cal, instrument, start, splits, asOf, spec)
         == Built(st, cal, instrument, start, splits, asOf, spec)
  {
    hide Run, Replay, LeakageChecks, FeedFrom, Valid;
    LaterDataNeverInterferes(st, batches, feed, cal, instrument, start, splits, asOf, spec, Test);
    var was := Samples(st, cal, instrument, start, splits, asOf, spec);
    if was.Ok? {
      var from := ReplayStart(cal, start);
      AllBeforeTestEnd(st, cal, instrument, start, splits, asOf, spec, Replay(st, cal, instrument, from, splits.testEnd, MINUTE).value);
      AllLiveBeforeTestEnd(Run(st, batches), feed, cal, instrument, start, splits, asOf, spec, |BuildTicks(cal, from, splits.testEnd)|);
    }
  }

  lemma {:induction false} AllLiveBeforeTestEnd<F, L>(st: Store, feed: Feed, cal: Calendar, instrument: Instrument,
      start: int, splits: TimeSplits, asOf: int, spec: Formulas<F, L>, n: nat)
    requires HorizonAllowed(spec) && n <= |BuildTicks(cal, ReplayStart(cal, start), splits.testEnd)|
    ensures
      var samples := LiveSamplesOf(st, feed, cal, instrument, start, splits, asOf, spec, n);
      SamplesBefore(samples, splits.testEnd) == samples
  {
    hide OutcomeOf, StoreAt, LiveFrame, BuildTicks, ReplayStart;
    if n > 0 {
      AllLiveBeforeTestEnd(st, feed, cal, instrument, start, splits, asOf, spec, n - 1);
      var before := LiveSamplesOf(st, feed, cal, instrument, start, splits, asOf, spec, n - 1);
      var samples := LiveSamplesOf(st, feed, cal, instrument, start, splits, asOf, spec, n);
      assert samples == before || samples[..|before|] == before;
    }
  }
}
