/** Supervised rows with chronological purging (`TimeSplits.locate` and `DatasetBuilder.build`
    in `datasets.py`), on a store that does not change meanwhile. Feature and label formulas are
    inputs; what they may read is not. */
module Datasets {
  import opened Common
  import opened Rounding
  import opened History
  import opened HistoryReplay
  import opened ReplayFrames

  // ---------------------------------------------------------------- splits

  datatype SplitName = Train | Validation | Test

  datatype Bounds = Bounds(trainEnd: int, validationEnd: int, testEnd: int)

  type TimeSplits = b: Bounds | b.trainEnd < b.validationEnd < b.testEnd witness Bounds(0, 1, 2)

  function EndOf(splits: TimeSplits, name: SplitName): int {
    match name
    case Train => splits.trainEnd
    case Validation => splits.validationEnd
    case Test => splits.testEnd
  }

  /** `locate`: the first split the instant precedes the end of. */
  function Locate(splits: TimeSplits, at: int): Option<SplitName> {
    if at < splits.trainEnd then Some(Train)
    else if at < splits.validationEnd then Some(Validation)
    else if at < splits.testEnd then Some(Test)
    else None
  }

  // ---------------------------------------------------------------- rows

  datatype Exclusion = FeaturesUnavailable | PurgedSplitHorizon | OutcomeOutsideSession | MissingOrLateLabelData

  datatype DataRow<F, L> = DataRow(split: SplitName, at: int, labelEnd: int, checkedAsOf: int, features: F, labels: L, outcome: seq<Bar>)

  datatype Outcome<F, L> = Kept(row: DataRow<F, L>) | Excluded(reason: Exclusion)

  /** A replay frame inside the build range, and what became of it. */
  datatype Sample<F, L> = Sample(at: int, outcome: Outcome<F, L>)

  /** The horizon, and the two formulas: features of a frame, labels of features, base price and
      outcome bars. */
  datatype Formulas<!F, !L> = Formulas(horizon: int, features: Frame -> Option<F>, labels: (F, real, seq<Bar>) -> L)

  /** The label specification admits one minute to an hour. */
  predicate HorizonAllowed<F, L>(spec: Formulas<F, L>) {
    1 <= spec.horizon <= 60
  }

  /** The feature engine computes nothing for a frame with reasons or without bars. */
  function FeaturesOf<F, L>(spec: Formulas<F, L>, f: Frame): Option<F> {
    if f.reasons != {} || f.bars == [] then None else spec.features(f)
  }

  function MinuteOpens(at: int, n: nat): (r: seq<int>)
    ensures |r| == n && forall k :: 0 <= k < n ==> r[k] == Stepped(at, k, MINUTE)
  {
    if n == 0 then [] else MinuteOpens(at, n - 1) + [Stepped(at, n - 1, MINUTE)]
  }

  function LabelCutoff(splits: TimeSplits, name: SplitName, asOf: int): int {
    MinInt(asOf, EndOf(splits, name) - 1)
  }

  /** The body of the row loop for a frame before the test end. */
  function OutcomeOf<F, L>(st: Store, cal: Calendar, instrument: Instrument, splits: TimeSplits, asOf: int,
      spec: Formulas<F, L>, f: Frame): Outcome<F, L>
    requires HorizonAllowed(spec) && f.asOf < splits.testEnd
  {
    var split := Locate(splits, f.asOf).value;
    var features := FeaturesOf(spec, f);
    var target := f.asOf + spec.horizon * MINUTE;
    var session := SessionOn(cal, DateOf(f.asOf));
    if features.None? then Excluded(FeaturesUnavailable)
    else if target >= EndOf(splits, split) then Excluded(PurgedSplitHorizon)
    else if session.None? || target > ClosesAt(session.value) then Excluded(OutcomeOutsideSession)
    else
      var cutoff := LabelCutoff(splits, split, asOf);
      var future := Query(st, instrument, MINUTE, f.asOf, target, cutoff);
      if OpenTimes(future) != MinuteOpens(f.asOf, spec.horizon) then Excluded(MissingOrLateLabelData)
      else
        var base := f.bars[|f.bars| - 1].content.close;
        Kept(DataRow(split, f.asOf, target, cutoff, features.value, spec.labels(features.value, base, future), future))
  }

  function SamplesOf<F, L>(st: Store, cal: Calendar, instrument: Instrument, start: int, splits: TimeSplits, asOf: int,
      spec: Formulas<F, L>, frames: seq<Frame>): seq<Sample<F, L>>
    requires HorizonAllowed(spec)
  {
    if frames == [] then []
    else
      var n := |frames| - 1;
      var f := frames[n];
      SamplesOf(st, cal, instrument, start, splits, asOf, spec, frames[..n]) +
      if f.asOf < start || f.asOf >= splits.testEnd then []
      else [Sample(f.asOf, OutcomeOf(st, cal, instrument, splits, asOf, spec, f))]
  }

  function RowsOf<F, L>(samples: seq<Sample<F, L>>): seq<DataRow<F, L>> {
    if samples == [] then []
    else
      var n := |samples| - 1;
      RowsOf(samples[..n]) + if samples[n].outcome.Kept? then [samples[n].outcome.row] else []
  }

  function ExclusionsOf<F, L>(samples: seq<Sample<F, L>>): multiset<Exclusion> {
    if samples == [] then multiset{}
    else
      var n := |samples| - 1;
      ExclusionsOf(samples[..n]) + if samples[n].outcome.Excluded? then multiset{samples[n].outcome.reason} else multiset{}
  }

  // ---------------------------------------------------------------- the build

  datatype BuildError = BadBuildRange | ReplayFailed(error: Error) | LeakageInvariantFailed

  datatype Dataset<F, L> = Dataset(rows: seq<DataRow<F, L>>, excluded: multiset<Exclusion>)

  predicate UniqueTimes<F, L>(rows: seq<DataRow<F, L>>) {
    forall i, j :: 0 <= i < j < |rows| ==> rows[i].at != rows[j].at
  }

  /** The checks the build repeats on its own rows before returning them. */
  predicate LeakageChecks<F, L>(splits: TimeSplits, rows: seq<DataRow<F, L>>) {
    && UniqueTimes(rows)
    && forall k :: 0 <= k < |rows| ==> RowChecked(splits, rows[k])
  }

  predicate RowChecked<F, L>(splits: TimeSplits, row: DataRow<F, L>) {
    && row.at < row.labelEnd && Locate(splits, row.at).Some?
    && row.labelEnd < EndOf(splits, Locate(splits, row.at).value)
    && row.checkedAsOf < EndOf(splits, Locate(splits, row.at).value)
  }

  function ReplayStart(cal: Calendar, start: int): int {
    var first := SessionOn(cal, DateOf(start));
    if first.Some? then MinInt(start, OpensAt(first.value)) else start
  }

  function Samples<F, L>(st: Store, cal: Calendar, instrument: Instrument, start: int, splits: TimeSplits, asOf: int,
      spec: Formulas<F, L>): Result<seq<Sample<F, L>>, BuildError>
    requires HorizonAllowed(spec)
  {
    if !(start < splits.trainEnd) || splits.testEnd > asOf then Err(BadBuildRange)
    else
      var frames := Replay(st, cal, instrument, ReplayStart(cal, start), splits.testEnd, MINUTE);
      if frames.Err? then Err(ReplayFailed(frames.error))
      else Ok(SamplesOf(st, cal, instrument, start, splits, asOf, spec, frames.value))
  }

  function Built<F, L>(st: Store, cal: Calendar, instrument: Instrument, start: int, splits: TimeSplits, asOf: int,
      spec: Formulas<F, L>): Result<Dataset<F, L>, BuildError>
    requires HorizonAllowed(spec)
  {
    var samples := Samples(st, cal, instrument, start, splits, asOf, spec);
    if samples.Err? then Err(samples.error)
    else if !LeakageChecks(splits, RowsOf(samples.value)) then Err(LeakageInvariantFailed)
    else Ok(Dataset(RowsOf(samples.value), ExclusionsOf(samples.value)))
  }

  // ---------------------------------------------------------------- no leakage

  ghost predicate AscendingSamples<F, L>(samples: seq<Sample<F, L>>) {
    forall i, j :: 0 <= i < j < |samples| ==> samples[i].at < samples[j].at
  }

  lemma KeptRowChecked<F, L>(st: Store, cal: Calendar, instrument: Instrument, splits: TimeSplits, asOf: int,
      spec: Formulas<F, L>, f: Frame)
    requires HorizonAllowed(spec) && f.asOf < splits.testEnd && OutcomeOf(st, cal, instrument, splits, asOf, spec, f).Kept?
    ensures
      var row := OutcomeOf(st, cal, instrument, splits, asOf, spec, f).row;
      row.at == f.asOf && RowChecked(splits, row)
  {
    hide Query, SessionOn, OpenTimes, FeaturesOf;
  }

  lemma {:induction false} RowsComeFromSamples<F, L>(samples: seq<Sample<F, L>>)
    requires forall k :: 0 <= k < |samples| && samples[k].outcome.Kept? ==> samples[k].outcome.row.at == samples[k].at
    ensures forall k :: 0 <= k < |RowsOf(samples)| ==> Sample(RowsOf(samples)[k].at, Kept(RowsOf(samples)[k])) in samples
  {
    if samples != [] {
      var n := |samples| - 1;
      assert samples == samples[..n] + [samples[n]];
      RowsComeFromSamples(samples[..n]);
    }
  }

  lemma {:induction false} RowTimesUnique<F, L>(samples: seq<Sample<F, L>>)
    requires AscendingSamples(samples)
    requires forall k :: 0 <= k < |samples| && samples[k].outcome.Kept? ==> samples[k].outcome.row.at == samples[k].at
    ensures UniqueTimes(RowsOf(samples))
  {
    if samples != [] {
      var n := |samples| - 1;
      RowTimesUnique(samples[..n]);
      RowsComeFromSamples(samples[..n]);
      var before := RowsOf(samples[..n]);
      forall k | 0 <= k < |before| ensures before[k].at < samples[n].at {
        var s := Sample(before[k].at, Kept(before[k]));
        assert s in samples[..n];
        var j :| 0 <= j < n && samples[..n][j] == s;
      }
    }
  }

  // ---------------------------------------------------------------- what a row may know

  /** A kept row is point-in-time on both sides, whatever store the frame was read from and whatever
      the store held when its outcome was read. Its features come from bars that had closed and were
      available at the row's instant; its outcome bars open at or after that instant, close by the
      horizon, and were available before the row's own split ended. */
  lemma RowsArePointInTime<F, L>(seen: Store, st: Store, cal: Calendar, instrument: Instrument, splits: TimeSplits,
      asOf: int, spec: Formulas<F, L>, s: MarketSession, from: int, f: Frame, b: Bar)
    requires Valid(seen) && Valid(st) && HorizonAllowed(spec) && f.asOf < splits.testEnd
    requires IsFrameOf(seen, cal, instrument, s, from, splits.testEnd, MINUTE, f)
    requires OutcomeOf(st, cal, instrument, splits, asOf, spec, f).Kept?
    ensures
      var row := OutcomeOf(st, cal, instrument, splits, asOf, spec, f).row;
      && row.labelEnd < EndOf(splits, row.split) && row.labelEnd <= ClosesAt(s)
      && (b in f.bars ==> b.closedAt <= row.at && KeyOf(b) in seen.rows && seen.rows[KeyOf(b)].available <= row.at)
      && (b in row.outcome ==>
            && row.at <= b.openedAt && b.closedAt <= row.labelEnd
            && KeyOf(b) in st.rows && st.rows[KeyOf(b)].available < EndOf(splits, row.split))
  {
    hide Query, FeaturesOf, OpenTimes, OpensAt, ClosesAt, DateOf, OnGrid;
    var row := OutcomeOf(st, cal, instrument, splits, asOf, spec, f).row;
    SessionDate(s, f.asOf);
    SameDaySameSession(cal, s, SessionOn(cal, DateOf(f.asOf)).value);
    FrameBars(seen, cal, instrument, s, from, MINUTE, f.asOf);
    if b in f.bars {
      NoHindsight(seen, instrument, MINUTE, MaxInt(from, OpensAt(s)), f.asOf, f.asOf, b);
    }
    if b in row.outcome {
      NoHindsight(st, instrument, MINUTE, f.asOf, row.labelEnd, row.checkedAsOf, b);
    }
  }

  lemma FrameBars(st: Store, cal: Calendar, instrument: Instrument, s: MarketSession, start: int, interval: int, now: int)
    requires interval > 0
    ensures FrameAt(st, cal, instrument, s, start, now, interval).bars == Query(st, instrument, interval, MaxInt(start, OpensAt(s)), now, now)
  {
  }

  /** A frame yields a row exactly when its features are ready, the horizon ends inside the split
      and the session, and the label window's visible bars open at its whole minutes and only
      there. The three exclusions after the features are the three ways to fail. */
  lemma KeptIff<F, L>(st: Store, cal: Calendar, instrument: Instrument, splits: TimeSplits, asOf: int,
      spec: Formulas<F, L>, s: MarketSession, f: Frame)
    requires Valid(st) && HorizonAllowed(spec) && f.asOf < splits.testEnd && splits.testEnd <= asOf
    requires s in cal && OpensAt(s) <= f.asOf <= ClosesAt(s)
    ensures
      var split := Locate(splits, f.asOf).value;
      var target := f.asOf + spec.horizon * MINUTE;
      OutcomeOf(st, cal, instrument, splits, asOf, spec, f).Kept? <==>
        && FeaturesOf(spec, f).Some?
        && target < EndOf(splits, split) && target <= ClosesAt(s)
        && forall t :: f.asOf <= t < target ==>
             (PublishedBefore(st, RowKey(instrument, MINUTE, t), EndOf(splits, split)) && t + MINUTE <= target <==>
              t in MinuteOpens(f.asOf, spec.horizon))
  {
    hide Query, FeaturesOf, OpensAt, ClosesAt, DateOf, MinuteOpens, OpenTimes;
    SessionDate(s, f.asOf);
    SameDaySameSession(cal, s, SessionOn(cal, DateOf(f.asOf)).value);
    var split := Locate(splits, f.asOf).value;
    var target := f.asOf + spec.horizon * MINUTE;
    var end := EndOf(splits, split);
    if target < end {
      WindowIff(st, instrument, f.asOf, spec.horizon, end - 1);
      forall t | f.asOf <= t < target
        ensures Visible(st.rows, RowKey(instrument, MINUTE, t), target, end - 1) <==>
                  PublishedBefore(st, RowKey(instrument, MINUTE, t), end) && t + MINUTE <= target
      {
        var key := RowKey(instrument, MINUTE, t);
        if key in st.rows {
          assert KeyOf(st.rows[key].bar) == key;
        }
      }
    }
  }

  predicate PublishedBefore(st: Store, key: RowKey, end: int) {
    key in st.rows && st.rows[key].available < end
  }

  /** The window query returns exactly the whole minutes when those, and only those, are visible. */
  lemma WindowIff(st: Store, instrument: Instrument, at: int, n: nat, cutoff: int)
    requires Valid(st)
    ensures
      var target := at + n * MINUTE;
      OpenTimes(Query(st, instrument, MINUTE, at, target, cutoff)) == MinuteOpens(at, n) <==>
        forall t :: at <= t < target ==> (Visible(st.rows, RowKey(instrument, MINUTE, t), target, cutoff) <==> t in MinuteOpens(at, n))
  {
    hide Selected, Visible, OpenTimes, MinuteOpens;
    var target := at + n * MINUTE;
    var bars, minutes := Query(st, instrument, MINUTE, at, target, cutoff), MinuteOpens(at, n);
    SelectedInOrder(st.rows, instrument, MINUTE, at, target, target, cutoff);
    MinutesWithin(at, n);
    forall t ensures t in OpenTimes(bars) <==> at <= t < target && Visible(st.rows, RowKey(instrument, MINUTE, t), target, cutoff) {
      OpenIff(st, instrument, at, target, cutoff, t);
    }
    if forall t :: at <= t < target ==> (Visible(st.rows, RowKey(instrument, MINUTE, t), target, cutoff) <==> t in minutes) {
      AscendingUnique(OpenTimes(bars), minutes);
    }
  }

  lemma OpenIff(st: Store, instrument: Instrument, at: int, target: int, cutoff: int, t: int)
    requires Valid(st)
    ensures t in OpenTimes(Query(st, instrument, MINUTE, at, target, cutoff)) <==>
              at <= t < target && Visible(st.rows, RowKey(instrument, MINUTE, t), target, cutoff)
  {
    hide Selected;
    var bars := Query(st, instrument, MINUTE, at, target, cutoff);
    var key := RowKey(instrument, MINUTE, t);
    TimesAreOpens(bars, t);
    if t in OpensOf(bars) {
      var c :| c in bars && c.openedAt == t;
      SelectedExactly(st.rows, instrument, MINUTE, at, target, target, cutoff, c);
    }
    if at <= t < target && Visible(st.rows, key, target, cutoff) {
      assert KeyOf(st.rows[key].bar) == key;
      SelectedExactly(st.rows, instrument, MINUTE, at, target, target, cutoff, st.rows[key].bar);
    }
  }

  lemma MinutesWithin(at: int, n: nat)
    ensures Ascending(MinuteOpens(at, n))
    ensures forall t :: t in MinuteOpens(at, n) ==> at <= t < at + n * MINUTE
  {
    var minutes := MinuteOpens(at, n);
    forall i, j | 0 <= i < j < n ensures minutes[i] < minutes[j] {
    }
    forall t | t in minutes ensures at <= t < at + n * MINUTE {
      var k :| 0 <= k < n && minutes[k] == t;
    }
  }

  // ---------------------------------------------------------------- non-interference

  /** Two replays over stores that agree on everything available before `from`: the same instants,
      and the same frames before `from`. */
  ghost predicate AgreeBefore(a: seq<Frame>, b: seq<Frame>, from: int) {
    && |a| == |b|
    && forall k :: 0 <= k < |a| ==> a[k].asOf == b[k].asOf && (a[k].asOf < from ==> a[k] == b[k])
  }

  lemma FramesAgree(before: Store, after: Store, from: int, cal: Calendar, instrument: Instrument, s: MarketSession,
      start: int, cursor: int, interval: int)
    requires interval > 0 && Grows(before.rows, after.rows, from)
    ensures AgreeBefore([FrameAt(before, cal, instrument, s, start, cursor, interval)],
                        [FrameAt(after, cal, instrument, s, start, cursor, interval)], from)
  {
    hide QualityOf, Grows;
    if cursor < from {
      SelectedUnchanged(before.rows, after.rows, from, instrument, interval, MaxInt(start, OpensAt(s)), cursor, cursor, cursor);
    }
  }

  /** Samples before the end agree entirely; later ones agree on their instants. */
  ghost predicate SamplesAgree<F(!new), L(!new)>(a: seq<Sample<F, L>>, b: seq<Sample<F, L>>, end: int) {
    && |a| == |b|
    && forall k :: 0 <= k < |a| ==> a[k].at == b[k].at && (a[k].at < end ==> a[k] == b[k])
  }

  lemma OutcomesAgree<F, L>(before: Store, after: Store, name: SplitName, cal: Calendar, instrument: Instrument,
      splits: TimeSplits, asOf: int, spec: Formulas<F, L>, f: Frame)
    requires HorizonAllowed(spec) && f.asOf < EndOf(splits, name) && Grows(before.rows, after.rows, EndOf(splits, name))
    ensures OutcomeOf(after, cal, instrument, splits, asOf, spec, f) == OutcomeOf(before, cal, instrument, splits, asOf, spec, f)
  {
    hide Selected, Grows, FeaturesOf, SessionOn, OpenTimes, MinuteOpens;
    var split := Locate(splits, f.asOf).value;
    var target := f.asOf + spec.horizon * MINUTE;
    SelectedUnchanged(before.rows, after.rows, EndOf(splits, name), instrument, MINUTE, f.asOf, target, target, LabelCutoff(splits, split, asOf));
  }

  /** The samples of every split that ends by then. */
  function SamplesBefore<F, L>(samples: seq<Sample<F, L>>, end: int): seq<Sample<F, L>> {
    if samples == [] then []
    else
      var n := |samples| - 1;
      SamplesBefore(samples[..n], end) + if samples[n].at < end then [samples[n]] else []
  }

  lemma {:induction false} BeforeAgrees<F(!new), L(!new)>(a: seq<Sample<F, L>>, b: seq<Sample<F, L>>, end: int)
    requires SamplesAgree(a, b, end)
    ensures SamplesBefore(a, end) == SamplesBefore(b, end)
  {
    if a != [] {
      BeforeAgrees(a[..|a| - 1], b[..|b| - 1], end);
    }
  }

  lemma {:induction false} AllBeforeTestEnd<F, L>(st: Store, cal: Calendar, instrument: Instrument, start: int,
      splits: TimeSplits, asOf: int, spec: Formulas<F, L>, frames: seq<Frame>)
    requires HorizonAllowed(spec)
    ensures
      var samples := SamplesOf(st, cal, instrument, start, splits, asOf, spec, frames);
      SamplesBefore(samples, splits.testEnd) == samples
  {
    hide OutcomeOf;
    if frames != [] {
      var n := |frames| - 1;
      AllBeforeTestEnd(st, cal, instrument, start, splits, asOf, spec, frames[..n]);
      var before := SamplesOf(st, cal, instrument, start, splits, asOf, spec, frames[..n]);
      var samples := SamplesOf(st, cal, instrument, start, splits, asOf, spec, frames);
      if start <= frames[n].asOf < splits.testEnd {
        assert samples[..|before|] == before;
      } else {
        assert samples == before;
      }
    }
  }
}
