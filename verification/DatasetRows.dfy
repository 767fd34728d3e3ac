/** What a dataset holds: each row's split, features, labels and outcome bars, why each other frame was
    left out, and that every frame is one or the other (`build` in `datasets.py`). */
module DatasetRows {
  import opened Common
  import opened Rounding
  import opened History
  import opened HistoryReplay
  import opened ReplayFrames
  import opened Datasets
  import opened LiveDatasets

  // ---------------------------------------------------------------- one frame

  /** The split of an instant, and where it ends. */
  predicate InSplit(b: TimeSplits, at: int, name: SplitName, end: int) {
    || (name == Train && at < b.trainEnd && end == b.trainEnd)
    || (name == Validation && b.trainEnd <= at < b.validationEnd && end == b.validationEnd)
    || (name == Test && b.validationEnd <= at < b.testEnd && end == b.testEnd)
  }

  /** The bar a frame's row is labelled from: none of the frame opens later. */
  predicate Newest(bars: seq<Bar>, c: Bar) {
    c in bars && forall b :: b in bars ==> b.openedAt <= c.openedAt
  }

  /** A row of this frame, its outcome read from `st`: the features the formula gives the frame; the
      horizon's bars, one for each whole minute from the frame's instant, in order, all readable by
      the label cutoff; and the labels of those against the newest close of the frame. */
  ghost predicate RowIs<F(!new), L(!new)>(st: Store, instrument: Instrument, splits: TimeSplits, asOf: int, spec: Formulas<F, L>,
      f: Frame, row: DataRow<F, L>, end: int, base: Bar)
  {
    && row.at == f.asOf && row.labelEnd == f.asOf + spec.horizon * 60_000_000
    && InSplit(splits, row.at, row.split, end)
    && row.checkedAsOf == (if asOf < end then asOf else end - 1)
    && f.reasons == {} && spec.features(f) == Some(row.features)
    && |row.outcome| == spec.horizon
    && (forall k :: 0 <= k < |row.outcome| ==>
          && row.outcome[k].openedAt == row.at + k * 60_000_000
          && Readable(st, instrument, 60_000_000, row.at, row.labelEnd, row.checkedAsOf, row.outcome[k]))
    && Newest(f.bars, base) && row.labels == spec.labels(row.features, base.content.close, row.outcome)
  }

  ghost predicate RowFits<F(!new), L(!new)>(st: Store, instrument: Instrument, splits: TimeSplits, asOf: int, spec: Formulas<F, L>,
      f: Frame, row: DataRow<F, L>)
  {
    exists end, base :: RowIs(st, instrument, splits, asOf, spec, f, row, end, base)
  }

  lemma LocatedIn(splits: TimeSplits, at: int)
    requires at < splits.testEnd
    ensures InSplit(splits, at, Locate(splits, at).value, EndOf(splits, Locate(splits, at).value))
  {
  }

  lemma OutcomeBars(st: Store, instrument: Instrument, at: int, horizon: nat, cutoff: int)
    requires Valid(st)
    requires OpenTimes(Query(st, instrument, MINUTE, at, at + horizon * MINUTE, cutoff)) == MinuteOpens(at, horizon)
    ensures
      var bars := Query(st, instrument, MINUTE, at, at + horizon * MINUTE, cutoff);
      && |bars| == horizon
      && forall k :: 0 <= k < |bars| ==>
           && bars[k].openedAt == at + k * 60_000_000
           && Readable(st, instrument, 60_000_000, at, at + horizon * 60_000_000, cutoff, bars[k])
  {
    hide Query, Readable;
    var bars := Query(st, instrument, MINUTE, at, at + horizon * MINUTE, cutoff);
    assert |OpenTimes(bars)| == |MinuteOpens(at, horizon)|;
    forall k | 0 <= k < |bars|
      ensures bars[k].openedAt == at + k * 60_000_000
      ensures Readable(st, instrument, 60_000_000, at, at + horizon * 60_000_000, cutoff, bars[k])
    {
      assert OpenTimes(bars)[k] == MinuteOpens(at, horizon)[k] == Stepped(at, k, MINUTE);
      NoHindsight(st, instrument, MINUTE, at, at + horizon * MINUTE, cutoff, bars[k]);
    }
  }

  lemma LastIsNewest(bars: seq<Bar>)
    requires InOrder(bars) && bars != []
    ensures Newest(bars, bars[|bars| - 1])
  {
  }

  lemma FrameNewest(seen: Store, cal: Calendar, instrument: Instrument, from: int, t: Tick)
    requires Valid(seen)
    ensures
      var bars := FrameAt(seen, cal, instrument, t.session, from, t.at, MINUTE).bars;
      bars != [] ==> Newest(bars, bars[|bars| - 1])
  {
    hide FrameAt, Selected, Newest, OpensAt;
    FrameBars(seen, cal, instrument, t.session, from, MINUTE, t.at);
    SelectedInOrder(seen.rows, instrument, MINUTE, MaxInt(from, OpensAt(t.session)), t.at, t.at, t.at);
    var bars := FrameAt(seen, cal, instrument, t.session, from, t.at, MINUTE).bars;
    if bars != [] {
      LastIsNewest(bars);
    }
  }

  lemma KeptFields<F, L>(st: Store, cal: Calendar, instrument: Instrument, splits: TimeSplits, asOf: int,
      spec: Formulas<F, L>, f: Frame)
    requires HorizonAllowed(spec) && f.asOf < splits.testEnd && OutcomeOf(st, cal, instrument, splits, asOf, spec, f).Kept?
    ensures
      var row := OutcomeOf(st, cal, instrument, splits, asOf, spec, f).row;
      var split := Locate(splits, f.asOf).value;
      && row.at == f.asOf && row.labelEnd == f.asOf + spec.horizon * 60_000_000 && row.split == split
      && row.checkedAsOf == LabelCutoff(splits, split, asOf)
      && f.reasons == {} && f.bars != [] && spec.features(f) == Some(row.features)
      && row.outcome == Query(st, instrument, MINUTE, f.asOf, f.asOf + spec.horizon * MINUTE, LabelCutoff(splits, split, asOf))
      && OpenTimes(row.outcome) == MinuteOpens(f.asOf, spec.horizon)
      && row.labels == spec.labels(row.features, f.bars[|f.bars| - 1].content.close, row.outcome)
  {
    hide Query, OpenTimes, MinuteOpens, SessionOn, DateOf, ClosesAt;
  }

  /** A kept row is computed from its frame and the horizon's bars, and from nothing else. */
  lemma KeptRowIs<F(!new), L(!new)>(seen: Store, st: Store, cal: Calendar, instrument: Instrument, splits: TimeSplits, asOf: int,
      spec: Formulas<F, L>, from: int, t: Tick, f: Frame)
    requires Valid(seen) && Valid(st) && HorizonAllowed(spec) && f.asOf < splits.testEnd
    requires f == FrameAt(seen, cal, instrument, t.session, from, t.at, MINUTE)
    requires OutcomeOf(st, cal, instrument, splits, asOf, spec, f).Kept?
    ensures RowFits(st, instrument, splits, asOf, spec, f, OutcomeOf(st, cal, instrument, splits, asOf, spec, f).row)
  {
    hide OutcomeOf, Query, OpenTimes, MinuteOpens, FrameAt, Readable, Newest, InSplit, Valid;
    FrameNewest(seen, cal, instrument, from, t);
    KeptFields(st, cal, instrument, splits, asOf, spec, f);
    var split := Locate(splits, f.asOf).value;
    LocatedIn(splits, f.asOf);
    OutcomeBars(st, instrument, f.asOf, spec.horizon, LabelCutoff(splits, split, asOf));
    var row := OutcomeOf(st, cal, instrument, splits, asOf, spec, f).row;
    assert RowIs(st, instrument, splits, asOf, spec, f, row, EndOf(splits, split), f.bars[|f.bars| - 1]);
  }

  /** Why a frame yields no row: the first that applies. */
  lemma ExcludedFor<F, L>(st: Store, cal: Calendar, instrument: Instrument, splits: TimeSplits, asOf: int,
      spec: Formulas<F, L>, s: MarketSession, f: Frame, name: SplitName, end: int)
    requires HorizonAllowed(spec) && InSplit(splits, f.asOf, name, end)
    requires s in cal && OpensAt(s) <= f.asOf <= ClosesAt(s)
    ensures
      var outcome := OutcomeOf(st, cal, instrument, splits, asOf, spec, f);
      var target := f.asOf + spec.horizon * 60_000_000;
      var ready := f.reasons == {} && f.bars != [] && spec.features(f).Some?;
      && (outcome == Excluded(FeaturesUnavailable) <==> !ready)
      && (outcome == Excluded(PurgedSplitHorizon) <==> ready && end <= target)
      && (outcome == Excluded(OutcomeOutsideSession) <==> ready && target < end && ClosesAt(s) < target)
      && (outcome.Kept? || outcome == Excluded(MissingOrLateLabelData) <==> ready && target < end && target <= ClosesAt(s))
  {
    hide Query, OpenTimes, MinuteOpens, OpensAt, ClosesAt, DateOf;
    SessionDate(s, f.asOf);
    SameDaySameSession(cal, s, SessionOn(cal, DateOf(f.asOf)).value);
  }

  // ---------------------------------------------------------------- the whole build

  /** The k-th frame of a build. */
  function BuiltFrame(st: Store, feed: Feed, cal: Calendar, instrument: Instrument, start: int, splits: TimeSplits, k: nat): Frame
    requires k < |BuildTicks(cal, ReplayStart(cal, start), splits.testEnd)|
  {
    LiveFrame(st, feed, cal, instrument, ReplayStart(cal, start), k, BuildTicks(cal, ReplayStart(cal, start), splits.testEnd)[k])
  }

  /** The row comes from the k-th frame. */
  ghost predicate RowOfFrame<F(!new), L(!new)>(st: Store, feed: Feed, cal: Calendar, instrument: Instrument, start: int,
      splits: TimeSplits, asOf: int, spec: Formulas<F, L>, k: nat, row: DataRow<F, L>)
  {
    && k < |BuildTicks(cal, ReplayStart(cal, start), splits.testEnd)|
    && var f := BuiltFrame(st, feed, cal, instrument, start, splits, k);
       && start <= f.asOf < splits.testEnd
       && RowFits(StoreAt(st, feed, 2 * k + 2), instrument, splits, asOf, spec, f, row)
  }

  lemma {:induction false} SamplesAre<F(!new), L(!new)>(st: Store, feed: Feed, cal: Calendar, instrument: Instrument, start: int,
      splits: TimeSplits, asOf: int, spec: Formulas<F, L>, n: nat)
    requires Valid(st) && HorizonAllowed(spec) && n <= |BuildTicks(cal, ReplayStart(cal, start), splits.testEnd)|
    ensures
      var samples := LiveSamplesOf(st, feed, cal, instrument, start, splits, asOf, spec, n);
      && |samples| == InRangeCount(st, feed, cal, instrument, start, splits, n)
      && forall row :: row in RowsOf(samples) ==> exists k: nat :: k < n && RowOfFrame(st, feed, cal, instrument, start, splits, asOf, spec, k, row)
  {
    hide OutcomeOf, StoreAt, FrameAt, RowOfFrame, BuildTicks, ReplayStart, Valid, BuiltFrame;
    if n > 0 {
      SamplesAre(st, feed, cal, instrument, start, splits, asOf, spec, n - 1);
      SampleStep(st, feed, cal, instrument, start, splits, asOf, spec, n - 1);
      hide LiveSamplesOf, RowsOf;
      var before := LiveSamplesOf(st, feed, cal, instrument, start, splits, asOf, spec, n - 1);
      forall row | row in RowsOf(LiveSamplesOf(st, feed, cal, instrument, start, splits, asOf, spec, n))
        ensures exists k: nat :: k < n && RowOfFrame(st, feed, cal, instrument, start, splits, asOf, spec, k, row)
      {
        if row in RowsOf(before) {
          var k: nat :| k < n - 1 && RowOfFrame(st, feed, cal, instrument, start, splits, asOf, spec, k, row);
        }
      }
    }
  }

  /** The next frame adds a sample if it is in range, and a row only of its own. */
  lemma SampleStep<F(!new), L(!new)>(st: Store, feed: Feed, cal: Calendar, instrument: Instrument, start: int,
      splits: TimeSplits, asOf: int, spec: Formulas<F, L>, k: nat)
    requires Valid(st) && HorizonAllowed(spec) && k < |BuildTicks(cal, ReplayStart(cal, start), splits.testEnd)|
    ensures
      var before := LiveSamplesOf(st, feed, cal, instrument, start, splits, asOf, spec, k);
      var after := LiveSamplesOf(st, feed, cal, instrument, start, splits, asOf, spec, k + 1);
      && |after| == |before| + (if start <= BuiltFrame(st, feed, cal, instrument, start, splits, k).asOf < splits.testEnd then 1 else 0)
      && forall row :: row in RowsOf(after) ==> row in RowsOf(before) || RowOfFrame(st, feed, cal, instrument, start, splits, asOf, spec, k, row)
  {
    hide OutcomeOf, StoreAt, FrameAt, RowOfFrame, BuildTicks, ReplayStart, Valid, LiveSamplesOf, RowsOf;
    LiveStep(st, feed, cal, instrument, start, splits, asOf, spec, k + 1);
    var f := BuiltFrame(st, feed, cal, instrument, start, splits, k);
    var before := LiveSamplesOf(st, feed, cal, instrument, start, splits, asOf, spec, k);
    var after := LiveSamplesOf(st, feed, cal, instrument, start, splits, asOf, spec, k + 1);
    if start <= f.asOf < splits.testEnd {
      SampleAppended(after);
      assert after[..|before|] == before;
      if after[|before|].outcome.Kept? {
        RowFrom(st, feed, cal, instrument, start, splits, asOf, spec, k);
      }
    } else {
      assert after == before;
    }
  }

  lemma RowFrom<F(!new), L(!new)>(st: Store, feed: Feed, cal: Calendar, instrument: Instrument, start: int,
      splits: TimeSplits, asOf: int, spec: Formulas<F, L>, k: nat)
    requires Valid(st) && HorizonAllowed(spec) && k < |BuildTicks(cal, ReplayStart(cal, start), splits.testEnd)|
    requires start <= BuiltFrame(st, feed, cal, instrument, start, splits, k).asOf < splits.testEnd
    requires OutcomeOf(StoreAt(st, feed, 2 * k + 2), cal, instrument, splits, asOf, spec, BuiltFrame(st, feed, cal, instrument, start, splits, k)).Kept?
    ensures RowOfFrame(st, feed, cal, instrument, start, splits, asOf, spec, k,
                       OutcomeOf(StoreAt(st, feed, 2 * k + 2), cal, instrument, splits, asOf, spec, BuiltFrame(st, feed, cal, instrument, start, splits, k)).row)
  {
    hide OutcomeOf, StoreAt, FrameAt, RowFits, BuildTicks, ReplayStart, Valid;
    var from := ReplayStart(cal, start);
    var t := BuildTicks(cal, from, splits.testEnd)[k];
    StoresValid(st, feed, 2 * k + 1);
    StoresValid(st, feed, 2 * k + 2);
    KeptRowIs(StoreAt(st, feed, 2 * k + 1), StoreAt(st, feed, 2 * k + 2), cal, instrument, splits, asOf, spec, from, t,
              BuiltFrame(st, feed, cal, instrument, start, splits, k));
  }

  /** How many of the first n frames lie in the build range. */
  function InRangeCount(st: Store, feed: Feed, cal: Calendar, instrument: Instrument, start: int, splits: TimeSplits, n: nat): nat
    requires n <= |BuildTicks(cal, ReplayStart(cal, start), splits.testEnd)|
  {
    if n == 0 then 0
    else
      var at := BuiltFrame(st, feed, cal, instrument, start, splits, n - 1).asOf;
      InRangeCount(st, feed, cal, instrument, start, splits, n - 1) + if start <= at < splits.testEnd then 1 else 0
  }

  lemma {:induction false} RowsAndExclusions<F, L>(samples: seq<Sample<F, L>>)
    ensures |RowsOf(samples)| + |ExclusionsOf(samples)| == |samples|
  {
    if samples != [] {
      RowsAndExclusions(samples[..|samples| - 1]);
    }
  }

  /** Whatever is recorded while it runs, a build returns, for every frame between its start and the
      test end, one row or one exclusion; and each of its rows is computed from one of those frames
      as it was when it was read. */
  lemma BuiltRowsAre<F(!new), L(!new)>(st: Store, feed: Feed, cal: Calendar, instrument: Instrument, start: int, splits: TimeSplits,
      asOf: int, spec: Formulas<F, L>)
    requires Valid(st) && HorizonAllowed(spec) && LiveBuilt(st, feed, cal, instrument, start, splits, asOf, spec).Ok?
    ensures
      var n := |BuildTicks(cal, ReplayStart(cal, start), splits.testEnd)|;
      var dataset := LiveBuilt(st, feed, cal, instrument, start, splits, asOf, spec).value;
      && |dataset.rows| + |dataset.excluded| == InRangeCount(st, feed, cal, instrument, start, splits, n)
      && forall row :: row in dataset.rows ==> exists k: nat :: k < n && RowOfFrame(st, feed, cal, instrument, start, splits, asOf, spec, k, row)
  {
    hide LeakageChecks, Replay, RowOfFrame, BuildTicks, ReplayStart, LiveSamplesOf, RowsOf, ExclusionsOf, InRangeCount;
    var n := |BuildTicks(cal, ReplayStart(cal, start), splits.testEnd)|;
    SamplesAre(st, feed, cal, instrument, start, splits, asOf, spec, n);
    RowsAndExclusions(LiveSamplesOf(st, feed, cal, instrument, start, splits, asOf, spec, n));
  }
}
