/** Clock-bound replay of the candle store: gap reports and the frames a replay emits
    (`history_quality`, `HistoricalReplay.snapshot` and `replay_sessions` in `history.py`). */
module HistoryReplay {
  import opened Common
  import opened Rounding
  import opened History

  // ---------------------------------------------------------------- the session calendar

  /** A declared session: an exchange date and two local times of day. */
  datatype SessionHours = SessionHours(day: int, opens: int, closes: int)

  type MarketSession = s: SessionHours | 0 <= s.opens < s.closes < DAY witness SessionHours(0, 0, 1)

  function OpensAt(s: MarketSession): int {
    s.day * DAY + s.opens - IST_OFFSET
  }

  function ClosesAt(s: MarketSession): int {
    s.day * DAY + s.closes - IST_OFFSET
  }

  predicate DistinctDays(sessions: seq<MarketSession>) {
    forall i, j :: 0 <= i < j < |sessions| ==> sessions[i].day != sessions[j].day
  }

  type Calendar = c: seq<MarketSession> | DistinctDays(c) witness []

  function SessionOn(sessions: seq<MarketSession>, day: int): (r: Option<MarketSession>)
    ensures r.Some? ==> r.value in sessions && r.value.day == day
    ensures r.None? ==> forall s :: s in sessions ==> s.day != day
  {
    if sessions == [] then None
    else if sessions[0].day == day then Some(sessions[0])
    else SessionOn(sessions[1..], day)
  }

  /** A session lies inside its own exchange date. */
  lemma SessionDate(s: MarketSession, t: int)
    requires OpensAt(s) <= t <= ClosesAt(s)
    ensures DateOf(t) == s.day
  {
  }

  /** It opens and closes at its local times of day, on its own date. */
  lemma SessionClock(s: MarketSession)
    ensures DateOf(OpensAt(s)) == s.day && TimeOfDay(OpensAt(s)) == s.opens
    ensures DateOf(ClosesAt(s)) == s.day && TimeOfDay(ClosesAt(s)) == s.closes
  {
  }

  lemma SameDaySameSession(cal: Calendar, a: MarketSession, b: MarketSession)
    requires a in cal && b in cal && a.day == b.day
    ensures a == b
  {
  }

  predicate Overlaps(s: MarketSession, start: int, end: int) {
    OpensAt(s) < end && ClosesAt(s) > start
  }

  // ---------------------------------------------------------------- gaps

  datatype QualityReason = TimeframeMismatch | NoDeclaredSessions | ConflictingBars | MissingCandles | UnexpectedCandles

  /** Missing and unexpected opens, and why the range is not sound. */
  datatype Quality = Quality(missing: set<int>, unexpected: set<int>, reasons: set<QualityReason>)

  /** The opens due from `cursor` on: those not before `start` whose bar closes by `limit`. */
  function Slots(cursor: int, limit: int, start: int, interval: int): seq<int>
    requires interval > 0
    decreases limit - cursor
  {
    if cursor + interval > limit then []
    else (if cursor >= start then [cursor] else []) + Slots(cursor + interval, limit, start, interval)
  }

  function SlotSet(slots: seq<int>): set<int> {
    set t | t in slots
  }

  function ExpectedOpens(sessions: seq<MarketSession>, start: int, end: int, cutoff: int, interval: int): set<int>
    requires interval > 0
  {
    if sessions == [] then {}
    else
      var n := |sessions| - 1;
      var s := sessions[n];
      ExpectedOpens(sessions[..n], start, end, cutoff, interval) +
      if Overlaps(s, start, end) then SlotSet(Slots(OpensAt(s), MinInt(ClosesAt(s), cutoff), start, interval)) else {}
  }

  predicate Mismatched(sessions: seq<MarketSession>, start: int, end: int, interval: int)
    requires interval > 0
  {
    exists k :: 0 <= k < |sessions| && Overlaps(sessions[k], start, end) && (ClosesAt(sessions[k]) - OpensAt(sessions[k])) % interval != 0
  }

  predicate AnyOverlap(sessions: seq<MarketSession>, start: int, end: int) {
    exists k :: 0 <= k < |sessions| && Overlaps(sessions[k], start, end)
  }

  function OpensOf(bars: seq<Bar>): set<int> {
    set c | c in bars :: c.openedAt
  }

  function UnexpectedOf(bars: seq<Bar>, expected: set<int>, cutoff: int, interval: int): set<int> {
    set c | c in bars && (c.openedAt !in expected || c.closedAt - c.openedAt != interval || c.closedAt > cutoff) :: c.openedAt
  }

  function Reason(c: bool, r: QualityReason): set<QualityReason> {
    if c then {r} else {}
  }

  function QualityOf(bars: seq<Bar>, cal: Calendar, start: int, end: int, asOf: int, interval: int): Quality
    requires interval > 0
  {
    var cutoff := MinInt(end, asOf);
    var expected := ExpectedOpens(cal, start, end, cutoff, interval);
    var ordered := Ordered(bars);
    if ordered.Err? then Quality({}, {}, {ConflictingBars})
    else
      var missing := expected - OpensOf(ordered.value);
      var unexpected := UnexpectedOf(ordered.value, expected, cutoff, interval);
      Quality(missing, unexpected,
              Reason(Mismatched(cal, start, end, interval), TimeframeMismatch)
              + Reason(!AnyOverlap(cal, start, end), NoDeclaredSessions)
              + Reason(missing != {}, MissingCandles) + Reason(unexpected != {}, UnexpectedCandles))
  }

  /** `history_quality` as written. */
  method HistoryQuality(bars: seq<Bar>, cal: Calendar, start: int, end: int, asOf: int, interval: int)
    returns (r: Result<Quality, Error>)
    ensures r == if interval <= 0 then Err(TimeframeNotPositive)
                 else if start >= end then Err(RangeNotOrdered)
                 else Ok(QualityOf(bars, cal, start, end, asOf, interval))
  {
    hide Ordered, ExpectedOpens, Mismatched, AnyOverlap;
    if interval <= 0 {
      return Err(TimeframeNotPositive);
    }
    if start >= end {
      return Err(RangeNotOrdered);
    }
    var cutoff := MinInt(end, asOf);
    var expected, sessions, reasons := ScanSessions(cal, start, end, cutoff, interval);
    if sessions == 0 {
      reasons := reasons + {NoDeclaredSessions};
    }
    var ordered := OrderCandles(bars);
    if ordered.Err? {
      return Ok(Quality({}, {}, {ConflictingBars}));
    }
    var missing := expected - OpensOf(ordered.value);
    var unexpected := UnexpectedOf(ordered.value, expected, cutoff, interval);
    if missing != {} {
      reasons := reasons + {MissingCandles};
    }
    if unexpected != {} {
      reasons := reasons + {UnexpectedCandles};
    }
    assert reasons == Reason(Mismatched(cal, start, end, interval), TimeframeMismatch)
                      + Reason(!AnyOverlap(cal, start, end), NoDeclaredSessions)
                      + Reason(missing != {}, MissingCandles) + Reason(unexpected != {}, UnexpectedCandles);
    r := Ok(Quality(missing, unexpected, reasons));
  }

  /** The loop over the declared sessions. */
  method ScanSessions(cal: Calendar, start: int, end: int, cutoff: int, interval: int)
    returns (expected: set<int>, sessions: nat, reasons: set<QualityReason>)
    requires interval > 0
    ensures expected == ExpectedOpens(cal, start, end, cutoff, interval)
    ensures sessions > 0 <==> AnyOverlap(cal, start, end)
    ensures reasons == Reason(Mismatched(cal, start, end, interval), TimeframeMismatch)
  {
    hide SlotSet, Slots, Mismatched, AnyOverlap, OpensAt, ClosesAt;
    expected, sessions, reasons := {}, 0, {};
    NoneOverlap(start, end, interval);
    for k := 0 to |cal|
      invariant expected == ExpectedOpens(cal[..k], start, end, cutoff, interval)
      invariant sessions > 0 <==> AnyOverlap(cal[..k], start, end)
      invariant reasons == Reason(Mismatched(cal[..k], start, end, interval), TimeframeMismatch)
    {
      assert cal[..k + 1][..k] == cal[..k];
      OverlapsAppend(cal, k, start, end, interval);
      var s := cal[k];
      if !(OpensAt(s) >= end || ClosesAt(s) <= start) {
        sessions := sessions + 1;
        if (ClosesAt(s) - OpensAt(s)) % interval != 0 {
          reasons := reasons + {TimeframeMismatch};
        }
        var due := DueSlots(OpensAt(s), MinInt(ClosesAt(s), cutoff), start, interval);
        expected := expected + due;
      }
    }
    assert cal[..|cal|] == cal;
  }

  lemma NoneOverlap(start: int, end: int, interval: int)
    requires interval > 0
    ensures !AnyOverlap([], start, end) && !Mismatched([], start, end, interval)
  {
  }

  lemma OverlapsAppend(sessions: seq<MarketSession>, k: nat, start: int, end: int, interval: int)
    requires k < |sessions| && interval > 0
    ensures AnyOverlap(sessions[..k + 1], start, end) <==> AnyOverlap(sessions[..k], start, end) || Overlaps(sessions[k], start, end)
    ensures Mismatched(sessions[..k + 1], start, end, interval) <==>
              Mismatched(sessions[..k], start, end, interval)
              || (Overlaps(sessions[k], start, end) && (ClosesAt(sessions[k]) - OpensAt(sessions[k])) % interval != 0)
  {
    hide Overlaps, OpensAt, ClosesAt;
    var before, after := sessions[..k], sessions[..k + 1];
    assert after[k] == sessions[k];
    forall i | 0 <= i < k ensures after[i] == before[i] {
    }
  }

  /** The cursor loop over one session. */
  method DueSlots(first: int, limit: int, start: int, interval: int) returns (due: set<int>)
    requires interval > 0
    ensures due == SlotSet(Slots(first, limit, start, interval))
  {
    due := {};
    var cursor := first;
    while cursor + interval <= limit
      invariant due + SlotSet(Slots(cursor, limit, start, interval)) == SlotSet(Slots(first, limit, start, interval))
      decreases limit - cursor
    {
      if cursor >= start {
        due := due + {cursor};
      }
      cursor := cursor + interval;
    }
  }

  // ---------------------------------------------------------------- frames

  datatype Frame = Frame(asOf: int, bars: seq<Bar>, reasons: set<QualityReason>, quality: Quality)

  /** `HistoricalReplay.snapshot`, with the injected clock's reading. */
  function Snapshot(st: Store, cal: Calendar, instrument: Instrument, start: int, end: int, now: int, interval: int): Frame
    requires interval > 0
  {
    var bars := Query(st, instrument, interval, start, end, now);
    var quality := QualityOf(bars, cal, start, end, now, interval);
    Frame(now, bars, quality.reasons + Reason(bars == [], MissingCandles), quality)
  }

  /** A replay tick of a session: everything of the session visible at the tick. */
  function FrameAt(st: Store, cal: Calendar, instrument: Instrument, s: MarketSession, start: int, cursor: int,
      interval: int): Frame
    requires interval > 0
  {
    Snapshot(st, cal, instrument, MaxInt(start, OpensAt(s)), cursor, cursor, interval)
  }

  function SessionFrames(st: Store, cal: Calendar, instrument: Instrument, s: MarketSession, start: int, end: int,
      cursor: int, interval: int): seq<Frame>
    requires interval > 0
    decreases MinInt(ClosesAt(s), end) - cursor
  {
    if cursor > MinInt(ClosesAt(s), end) then []
    else (if cursor > start then [FrameAt(st, cal, instrument, s, start, cursor, interval)] else [])
         + SessionFrames(st, cal, instrument, s, start, end, cursor + interval, interval)
  }

  function FramesOf(st: Store, cal: Calendar, instrument: Instrument, sessions: seq<MarketSession>, start: int,
      end: int, interval: int): seq<Frame>
    requires interval > 0
  {
    if sessions == [] then []
    else
      var n := |sessions| - 1;
      FramesOf(st, cal, instrument, sessions[..n], start, end, interval)
      + SessionFrames(st, cal, instrument, sessions[n], start, end, OpensAt(sessions[n]) + interval, interval)
  }

  function InsertByDay(sessions: seq<MarketSession>, s: MarketSession): seq<MarketSession> {
    if sessions == [] then [s]
    else
      var n := |sessions| - 1;
      if s.day < sessions[n].day then InsertByDay(sessions[..n], s) + [sessions[n]] else sessions + [s]
  }

  function SortedByDay(sessions: seq<MarketSession>): seq<MarketSession> {
    if sessions == [] then []
    else InsertByDay(SortedByDay(sessions[..|sessions| - 1]), sessions[|sessions| - 1])
  }

  function InRange(sessions: seq<MarketSession>, start: int, end: int): seq<MarketSession> {
    if sessions == [] then []
    else
      var n := |sessions| - 1;
      InRange(sessions[..n], start, end) + if Overlaps(sessions[n], start, end) then [sessions[n]] else []
  }

  function ReplayedSessions(cal: Calendar, start: int, end: int): seq<MarketSession> {
    InRange(SortedByDay(cal), start, end)
  }

  predicate Divides(sessions: seq<MarketSession>, interval: int)
    requires interval > 0
  {
    forall k :: 0 <= k < |sessions| ==> (ClosesAt(sessions[k]) - OpensAt(sessions[k])) % interval == 0
  }

  /** `replay_sessions`: the frames of every declared session in range, or why there are none. */
  function Replay(st: Store, cal: Calendar, instrument: Instrument, start: int, end: int,
      interval: int): Result<seq<Frame>, Error> {
    if interval <= 0 then Err(TimeframeNotPositive)
    else if start >= end then Err(RangeNotOrdered)
    else
      var sessions := ReplayedSessions(cal, start, end);
      if sessions == [] then Err(NoSessions)
      else if !Divides(sessions, interval) then Err(TimeframeDoesNotDivide)
      else Ok(FramesOf(st, cal, instrument, sessions, start, end, interval))
  }

  lemma FrameIsSnapshot(st: Store, cal: Calendar, instrument: Instrument, s: MarketSession, start: int, cursor: int,
      interval: int)
    requires interval > 0
    ensures FrameAt(st, cal, instrument, s, start, cursor, interval)
         == Snapshot(st, cal, instrument, MaxInt(start, OpensAt(s)), cursor, cursor, interval)
  {
  }

  method TakeSnapshot(store: HistoricalStore, cal: Calendar, instrument: Instrument, start: int, end: int, now: int,
      interval: int)
    returns (frame: Frame)
    requires interval > 0 && start < end && Valid(store.Model())
    ensures frame == Snapshot(store.Model(), cal, instrument, start, end, now, interval)
  {
    hide QualityOf, Query;
    var bars := store.Candles(instrument, interval, start, end, now);
    var quality := HistoryQuality(bars.value, cal, start, end, now, interval);
    var reasons := quality.value.reasons;
    if bars.value == [] {
      reasons := reasons + {MissingCandles};
    }
    frame := Frame(now, bars.value, reasons, quality.value);
  }
}
