/** What the frames of a replay guarantee: their instants, that they only gain bars within a
    session, and that a frame without reasons has every bar due and nothing else. */
module ReplayFrames {
  import opened Common
  import opened Rounding
  import opened History
  import opened HistoryReplay

  /** The frame a replay emits for session `s` at one of its candle closes. */
  ghost predicate IsFrameOf(st: Store, cal: Calendar, instrument: Instrument, s: MarketSession, start: int, end: int,
      interval: int, f: Frame)
    requires interval > 0
  {
    && s in cal && Ticks(s, start, end, interval, f.asOf)
    && f == FrameAt(st, cal, instrument, s, start, f.asOf, interval)
  }

  /** A candle close of the session inside the replayed range. */
  predicate Ticks(s: MarketSession, start: int, end: int, interval: int, t: int)
    requires interval > 0
  {
    OpensAt(s) + interval <= t <= ClosesAt(s) && start < t <= end && OnGrid(s, interval, t)
  }

  predicate OnGrid(s: MarketSession, interval: int, t: int)
    requires interval > 0
  {
    (t - OpensAt(s)) % interval == 0
  }

  lemma GridSteps(s: MarketSession, interval: int, t: int)
    requires interval > 0
    ensures OnGrid(s, interval, t) ==> OnGrid(s, interval, t + interval)
    ensures OnGrid(s, interval, OpensAt(s) + interval)
  {
    var x := t - OpensAt(s);
    MulModZero(1, interval);
    if x % interval == 0 {
      MulModZero(x / interval + 1, interval);
      assert (x / interval + 1) * interval == x + interval;
    }
  }

  lemma GridGap(s: MarketSession, interval: int, t: int, u: int)
    requires interval > 0 && OnGrid(s, interval, t) && OnGrid(s, interval, u) && t < u
    ensures t + interval <= u
  {
    var x, y := t - OpensAt(s), u - OpensAt(s);
    if y < x + interval {
      DivUnique(y, interval, x / interval);
    }
  }

  ghost predicate AscendingFrames(frames: seq<Frame>) {
    forall i, j :: 0 <= i < j < |frames| ==> frames[i].asOf < frames[j].asOf
  }

  /** One session's loop emits only its ticks, in order, ... */
  lemma {:induction false} SessionFramesShape(st: Store, cal: Calendar, instrument: Instrument, s: MarketSession,
      start: int, end: int, cursor: int, interval: int)
    requires interval > 0 && s in cal && OpensAt(s) + interval <= cursor && OnGrid(s, interval, cursor)
    ensures
      var frames := SessionFrames(st, cal, instrument, s, start, end, cursor, interval);
      && AscendingFrames(frames)
      && (forall k :: 0 <= k < |frames| ==> cursor <= frames[k].asOf && IsFrameOf(st, cal, instrument, s, start, end, interval, frames[k]))
    decreases MinInt(ClosesAt(s), end) - cursor
  {
    hide OpensAt, ClosesAt, FrameAt, OnGrid;
    if cursor <= MinInt(ClosesAt(s), end) {
      GridSteps(s, interval, cursor);
      SessionFramesShape(st, cal, instrument, s, start, end, cursor + interval, interval);
      FrameInstant(st, cal, instrument, s, start, cursor, interval);
    }
  }

  /** ... and all of them. */
  lemma {:induction false} SessionFramesCover(st: Store, cal: Calendar, instrument: Instrument, s: MarketSession,
      start: int, end: int, cursor: int, interval: int, t: int)
    requires interval > 0 && OpensAt(s) + interval <= cursor <= t && OnGrid(s, interval, cursor)
    requires Ticks(s, start, end, interval, t)
    ensures HasFrame(SessionFrames(st, cal, instrument, s, start, end, cursor, interval), t)
    decreases MinInt(ClosesAt(s), end) - cursor
  {
    hide OpensAt, ClosesAt, FrameAt, OnGrid;
    var frames := SessionFrames(st, cal, instrument, s, start, end, cursor, interval);
    if t == cursor {
      FrameInstant(st, cal, instrument, s, start, cursor, interval);
      assert frames[0].asOf == t;
    } else {
      GridSteps(s, interval, cursor);
      GridGap(s, interval, cursor, t);
      SessionFramesCover(st, cal, instrument, s, start, end, cursor + interval, interval, t);
      var rest := SessionFrames(st, cal, instrument, s, start, end, cursor + interval, interval);
      var k :| 0 <= k < |rest| && rest[k].asOf == t;
      assert frames[|frames| - |rest| + k] == rest[k];
    }
  }

  ghost predicate HasFrame(frames: seq<Frame>, t: int) {
    exists k :: 0 <= k < |frames| && frames[k].asOf == t
  }

  lemma FrameInstant(st: Store, cal: Calendar, instrument: Instrument, s: MarketSession, start: int, cursor: int, interval: int)
    requires interval > 0
    ensures FrameAt(st, cal, instrument, s, start, cursor, interval).asOf == cursor
  {
  }

  // ---------------------------------------------------------------- the session order

  ghost predicate AscendingDays(sessions: seq<MarketSession>) {
    forall i, j :: 0 <= i < j < |sessions| ==> sessions[i].day < sessions[j].day
  }

  lemma {:induction false} InsertByDayKeeps(sessions: seq<MarketSession>, s: MarketSession)
    requires AscendingDays(sessions) && forall i :: 0 <= i < |sessions| ==> sessions[i].day != s.day
    ensures AscendingDays(InsertByDay(sessions, s))
    ensures forall x :: x in InsertByDay(sessions, s) <==> x in sessions || x == s
  {
    if sessions != [] {
      var n := |sessions| - 1;
      assert sessions == sessions[..n] + [sessions[n]];
      if s.day < sessions[n].day {
        InsertByDayKeeps(sessions[..n], s);
        var front := InsertByDay(sessions[..n], s);
        forall i | 0 <= i < |front| ensures front[i].day < sessions[n].day {
          assert front[i] in front;
        }
      }
    }
  }

  lemma {:induction false} SortedByDayKeeps(sessions: seq<MarketSession>)
    requires DistinctDays(sessions)
    ensures AscendingDays(SortedByDay(sessions)) && forall x :: x in SortedByDay(sessions) <==> x in sessions
  {
    if sessions != [] {
      var n := |sessions| - 1;
      assert sessions == sessions[..n] + [sessions[n]];
      SortedByDayKeeps(sessions[..n]);
      var front := SortedByDay(sessions[..n]);
      forall i | 0 <= i < |front| ensures front[i].day != sessions[n].day {
        assert front[i] in sessions[..n];
        var k :| 0 <= k < n && sessions[k] == front[i];
      }
      InsertByDayKeeps(front, sessions[n]);
    }
  }

  lemma {:induction false} InRangeKeeps(sessions: seq<MarketSession>, start: int, end: int)
    requires AscendingDays(sessions)
    ensures AscendingDays(InRange(sessions, start, end))
    ensures forall x :: x in InRange(sessions, start, end) <==> x in sessions && Overlaps(x, start, end)
  {
    hide Overlaps;
    if sessions != [] {
      var n := |sessions| - 1;
      assert sessions == sessions[..n] + [sessions[n]];
      InRangeKeeps(sessions[..n], start, end);
      var front := InRange(sessions[..n], start, end);
      forall i | 0 <= i < |front| ensures front[i].day < sessions[n].day {
        assert front[i] in sessions[..n];
        var k :| 0 <= k < n && sessions[k] == front[i];
      }
    }
  }

  lemma ReplayedSessionsAre(cal: Calendar, start: int, end: int)
    ensures AscendingDays(ReplayedSessions(cal, start, end))
    ensures forall x :: x in ReplayedSessions(cal, start, end) <==> x in cal && Overlaps(x, start, end)
  {
    SortedByDayKeeps(cal);
    InRangeKeeps(SortedByDay(cal), start, end);
  }

  // ---------------------------------------------------------------- all frames

  ghost predicate FromSession(st: Store, cal: Calendar, instrument: Instrument, sessions: seq<MarketSession>,
      start: int, end: int, interval: int, f: Frame)
    requires interval > 0
  {
    exists s :: s in sessions && IsFrameOf(st, cal, instrument, s, start, end, interval, f)
  }

  lemma {:induction false} FramesOfShape(st: Store, cal: Calendar, instrument: Instrument, sessions: seq<MarketSession>,
      start: int, end: int, interval: int)
    requires interval > 0 && AscendingDays(sessions) && forall s :: s in sessions ==> s in cal
    ensures
      var frames := FramesOf(st, cal, instrument, sessions, start, end, interval);
      && AscendingFrames(frames)
      && (forall k :: 0 <= k < |frames| ==> FromSession(st, cal, instrument, sessions, start, end, interval, frames[k]))
  {
    hide Ticks, IsFrameOf, FrameAt, OpensAt, OnGrid, SessionFrames;
    if sessions != [] {
      var n := |sessions| - 1;
      var last := sessions[n];
      FramesOfShape(st, cal, instrument, sessions[..n], start, end, interval);
      GridSteps(last, interval, 0);
      SessionFramesShape(st, cal, instrument, last, start, end, OpensAt(last) + interval, interval);
      var front := FramesOf(st, cal, instrument, sessions[..n], start, end, interval);
      var back := SessionFrames(st, cal, instrument, last, start, end, OpensAt(last) + interval, interval);
      forall i | 0 <= i < |front|
        ensures FromSession(st, cal, instrument, sessions, start, end, interval, front[i]) && front[i].asOf < OpensAt(last)
      {
        EarlierFrame(st, cal, instrument, sessions, start, end, interval, front[i]);
      }
      forall i | 0 <= i < |back| ensures FromSession(st, cal, instrument, sessions, start, end, interval, back[i]) {
        assert last in sessions;
      }
    }
  }

  lemma EarlierFrame(st: Store, cal: Calendar, instrument: Instrument, sessions: seq<MarketSession>, start: int,
      end: int, interval: int, f: Frame)
    requires interval > 0 && AscendingDays(sessions) && sessions != []
    requires FromSession(st, cal, instrument, sessions[..|sessions| - 1], start, end, interval, f)
    ensures FromSession(st, cal, instrument, sessions, start, end, interval, f) && f.asOf < OpensAt(sessions[|sessions| - 1])
  {
    hide FrameAt, IsFrameOf, OpensAt;
    var front := sessions[..|sessions| - 1];
    var s :| s in front && IsFrameOf(st, cal, instrument, s, start, end, interval, f);
    var k :| 0 <= k < |front| && front[k] == s;
    assert sessions[k] == s;
    assert s in sessions;
    EarlierDay(st, cal, instrument, s, sessions[|sessions| - 1], start, end, interval, f);
  }

  lemma {:induction false} FramesOfCover(st: Store, cal: Calendar, instrument: Instrument, sessions: seq<MarketSession>,
      start: int, end: int, interval: int, s: MarketSession, t: int)
    requires interval > 0 && s in sessions && Ticks(s, start, end, interval, t)
    ensures HasFrame(FramesOf(st, cal, instrument, sessions, start, end, interval), t)
  {
    hide FrameAt, OpensAt, OnGrid, SessionFrames, ClosesAt;
    var n := |sessions| - 1;
    var last := sessions[n];
    assert sessions == sessions[..n] + [last];
    var front := FramesOf(st, cal, instrument, sessions[..n], start, end, interval);
    var back := SessionFrames(st, cal, instrument, last, start, end, OpensAt(last) + interval, interval);
    if s in sessions[..n] {
      FramesOfCover(st, cal, instrument, sessions[..n], start, end, interval, s, t);
      var k :| 0 <= k < |front| && front[k].asOf == t;
      assert (front + back)[k] == front[k];
    } else {
      GridSteps(last, interval, 0);
      SessionFramesCover(st, cal, instrument, last, start, end, OpensAt(last) + interval, interval, t);
      var k :| 0 <= k < |back| && back[k].asOf == t;
      assert (front + back)[|front| + k] == back[k];
    }
  }

  lemma EarlierDay(st: Store, cal: Calendar, instrument: Instrument, s: MarketSession, later: MarketSession, start: int,
      end: int, interval: int, f: Frame)
    requires interval > 0 && IsFrameOf(st, cal, instrument, s, start, end, interval, f) && s.day < later.day
    ensures f.asOf < OpensAt(later)
  {
    hide FrameAt;
  }

  /** A replay emits one frame for each candle close of each declared session in range, no other,
      in strictly increasing order of time. */
  lemma ReplayTicks(st: Store, cal: Calendar, instrument: Instrument, start: int, end: int, interval: int, t: int)
    requires Replay(st, cal, instrument, start, end, interval).Ok?
    ensures
      var frames := Replay(st, cal, instrument, start, end, interval).value;
      && AscendingFrames(frames)
      && (HasFrame(frames, t) <==> exists s :: s in cal && Ticks(s, start, end, interval, t))
  {
    hide FramesOf, FrameAt;
    var sessions := ReplayedSessions(cal, start, end);
    ReplayedSessionsAre(cal, start, end);
    FramesOfShape(st, cal, instrument, sessions, start, end, interval);
    var frames := FramesOf(st, cal, instrument, sessions, start, end, interval);
    if HasFrame(frames, t) {
      var k :| 0 <= k < |frames| && frames[k].asOf == t;
      assert FromSession(st, cal, instrument, sessions, start, end, interval, frames[k]);
    }
    if s :| s in cal && Ticks(s, start, end, interval, t) {
      assert s in sessions;
      FramesOfCover(st, cal, instrument, sessions, start, end, interval, s, t);
    }
  }

  lemma ReplayedFrame(st: Store, cal: Calendar, instrument: Instrument, start: int, end: int, interval: int,
      k: nat) returns (s: MarketSession)
    requires Replay(st, cal, instrument, start, end, interval).Ok? && k < |Replay(st, cal, instrument, start, end, interval).value|
    ensures
      var f := Replay(st, cal, instrument, start, end, interval).value[k];
      && IsFrameOf(st, cal, instrument, s, start, end, interval, f) && DateOf(f.asOf) == s.day
      && (ClosesAt(s) - OpensAt(s)) % interval == 0
  {
    hide FramesOf, FrameAt;
    var sessions := ReplayedSessions(cal, start, end);
    ReplayedSessionsAre(cal, start, end);
    FramesOfShape(st, cal, instrument, sessions, start, end, interval);
    var f := Replay(st, cal, instrument, start, end, interval).value[k];
    assert FromSession(st, cal, instrument, sessions, start, end, interval, f);
    s :| s in sessions && IsFrameOf(st, cal, instrument, s, start, end, interval, f);
    SessionDate(s, f.asOf);
  }

  // ---------------------------------------------------------------- growth within a session

  /** The instants of a replay, which depend on the calendar and the range but not on the store. */
  datatype Tick = Tick(session: MarketSession, at: int)

  function SessionTicks(s: MarketSession, start: int, end: int, cursor: int, interval: int): seq<Tick>
    requires interval > 0
    decreases MinInt(ClosesAt(s), end) - cursor
  {
    if cursor > MinInt(ClosesAt(s), end) then []
    else (if cursor > start then [Tick(s, cursor)] else []) + SessionTicks(s, start, end, cursor + interval, interval)
  }

  function TicksOf(sessions: seq<MarketSession>, start: int, end: int, interval: int): seq<Tick>
    requires interval > 0
  {
    if sessions == [] then []
    else
      var n := |sessions| - 1;
      TicksOf(sessions[..n], start, end, interval)
      + SessionTicks(sessions[n], start, end, OpensAt(sessions[n]) + interval, interval)
  }

  ghost predicate FramesAt(st: Store, cal: Calendar, instrument: Instrument, start: int, interval: int,
      ticks: seq<Tick>, frames: seq<Frame>)
    requires interval > 0
  {
    && |frames| == |ticks|
    && forall k :: 0 <= k < |ticks| ==> frames[k] == FrameAt(st, cal, instrument, ticks[k].session, start, ticks[k].at, interval)
  }

  lemma {:induction false} SessionFramesAtTicks(st: Store, cal: Calendar, instrument: Instrument, s: MarketSession,
      start: int, end: int, cursor: int, interval: int)
    requires interval > 0
    ensures FramesAt(st, cal, instrument, start, interval, SessionTicks(s, start, end, cursor, interval),
                     SessionFrames(st, cal, instrument, s, start, end, cursor, interval))
    decreases MinInt(ClosesAt(s), end) - cursor
  {
    hide FrameAt, OpensAt, ClosesAt;
    if cursor <= MinInt(ClosesAt(s), end) {
      SessionFramesAtTicks(st, cal, instrument, s, start, end, cursor + interval, interval);
    }
  }

  lemma {:induction false} FramesAtTicks(st: Store, cal: Calendar, instrument: Instrument,
      sessions: seq<MarketSession>, start: int, end: int, interval: int)
    requires interval > 0
    ensures FramesAt(st, cal, instrument, start, interval, TicksOf(sessions, start, end, interval),
                     FramesOf(st, cal, instrument, sessions, start, end, interval))
  {
    hide FrameAt, OpensAt, SessionTicks, SessionFrames;
    if sessions != [] {
      var n := |sessions| - 1;
      FramesAtTicks(st, cal, instrument, sessions[..n], start, end, interval);
      SessionFramesAtTicks(st, cal, instrument, sessions[n], start, end, OpensAt(sessions[n]) + interval, interval);
    }
  }

  /** A replay of one store has the same instants as a replay of another. */
  lemma SameInstants(st: Store, other: Store, cal: Calendar, instrument: Instrument, start: int, end: int, interval: int, k: nat)
    returns (t: Tick)
    requires Replay(st, cal, instrument, start, end, interval).Ok? && k < |Replay(st, cal, instrument, start, end, interval).value|
    ensures
      var a, b := Replay(st, cal, instrument, start, end, interval), Replay(other, cal, instrument, start, end, interval);
      && interval > 0 && b.Ok? && |b.value| == |a.value|
      && a.value[k] == FrameAt(st, cal, instrument, t.session, start, t.at, interval)
      && b.value[k] == FrameAt(other, cal, instrument, t.session, start, t.at, interval)
  {
    hide FrameAt, FramesOf, TicksOf, ReplayedSessions, Divides;
    var sessions := ReplayedSessions(cal, start, end);
    FramesAtTicks(st, cal, instrument, sessions, start, end, interval);
    FramesAtTicks(other, cal, instrument, sessions, start, end, interval);
    t := TicksOf(sessions, start, end, interval)[k];
  }

  /** Two frames of one exchange date, with any recordings made between them: the later frame,
      read from the store as it then is, holds every bar of the earlier one. */
  lemma FramesGrow(st: Store, batches: seq<Batch>, cal: Calendar, instrument: Instrument, start: int, end: int,
      interval: int, i: nat, j: nat, b: Bar)
    requires Valid(st) && Replay(st, cal, instrument, start, end, interval).Ok?
    requires i <= j < |Replay(st, cal, instrument, start, end, interval).value|
    requires
      var frames := Replay(st, cal, instrument, start, end, interval).value;
      DateOf(frames[i].asOf) == DateOf(frames[j].asOf) && b in frames[i].bars
    ensures
      var later := Replay(Run(st, batches), cal, instrument, start, end, interval);
      && later.Ok? && j < |later.value| && later.value[j].asOf == Replay(st, cal, instrument, start, end, interval).value[j].asOf
      && b in later.value[j].bars
  {
    hide FrameAt, Replay, OpensAt, ClosesAt, Ticks, Run, OnGrid, DateOf;
    var frames := Replay(st, cal, instrument, start, end, interval).value;
    ReplayTicks(st, cal, instrument, start, end, interval, 0);
    var t := SameInstants(st, Run(st, batches), cal, instrument, start, end, interval, j);
    var s := ReplayedFrame(st, cal, instrument, start, end, interval, i);
    FrameInstant(st, cal, instrument, t.session, start, t.at, interval);
    FrameInstant(Run(st, batches), cal, instrument, t.session, start, t.at, interval);
    var u := ReplayedFrame(Run(st, batches), cal, instrument, start, end, interval, j);
    SameDaySameSession(cal, s, u);
    FrameGrows(st, batches, cal, instrument, s, start, frames[i].asOf, frames[j].asOf, interval, b);
  }

  lemma FrameGrows(st: Store, batches: seq<Batch>, cal: Calendar, instrument: Instrument, s: MarketSession, start: int,
      at: int, later: int, interval: int, b: Bar)
    requires Valid(st) && interval > 0 && at <= later && b in FrameAt(st, cal, instrument, s, start, at, interval).bars
    ensures b in FrameAt(Run(st, batches), cal, instrument, s, start, later, interval).bars
  {
    hide QualityOf, Query, OpensAt, Run, Valid;
    var lo := MaxInt(start, OpensAt(s));
    QueriesOnlyGrow(st, batches, instrument, interval, lo, at, at, b);
    RunKeeps(st, batches, Earliest(batches));
    NoHindsight(Run(st, batches), instrument, interval, lo, at, at, b);
    NoHindsight(Run(st, batches), instrument, interval, lo, later, later, b);
  }

  // ---------------------------------------------------------------- complete frames

  /** Only its own session overlaps a frame's range. */
  lemma OnlyOwnOverlaps(cal: Calendar, s: MarketSession, other: MarketSession, start: int, now: int)
    requires s in cal && other in cal && OpensAt(s) <= start < now <= ClosesAt(s)
    ensures Overlaps(other, start, now) <==> other == s
  {
    if other.day == s.day {
      SameDaySameSession(cal, s, other);
    }
  }

  lemma {:induction false} ExpectedOfSession(cal: Calendar, sessions: seq<MarketSession>, s: MarketSession, start: int,
      now: int, interval: int)
    requires interval > 0 && s in cal && OpensAt(s) <= start < now <= ClosesAt(s)
    requires forall x :: x in sessions ==> x in cal
    ensures ExpectedOpens(sessions, start, now, now, interval) ==
              if s in sessions then SlotSet(Slots(OpensAt(s), now, start, interval)) else {}
  {
    hide Overlaps, OpensAt, ClosesAt, Slots, SlotSet;
    if sessions != [] {
      var n := |sessions| - 1;
      assert sessions == sessions[..n] + [sessions[n]];
      ExpectedOfSession(cal, sessions[..n], s, start, now, interval);
      OnlyOwnOverlaps(cal, s, sessions[n], start, now);
    }
  }

  function OpenTimes(bars: seq<Bar>): (r: seq<int>)
    ensures |r| == |bars| && forall k :: 0 <= k < |bars| ==> r[k] == bars[k].openedAt
  {
    if bars == [] then [] else OpenTimes(bars[..|bars| - 1]) + [bars[|bars| - 1].openedAt]
  }

  ghost predicate Ascending(xs: seq<int>) {
    forall i, j :: 0 <= i < j < |xs| ==> xs[i] < xs[j]
  }

  lemma LastIsGreatest(a: seq<int>)
    requires Ascending(a) && a != []
    ensures forall x :: x in a ==> x <= a[|a| - 1]
    ensures forall x :: x in a[..|a| - 1] <==> x in a && x != a[|a| - 1]
  {
    assert a == a[..|a| - 1] + [a[|a| - 1]];
  }

  lemma EmptyTogether(a: seq<int>, b: seq<int>)
    requires forall x :: x in a <==> x in b
    ensures a == [] <==> b == []
  {
    if a != [] {
      var x := a[0];
      assert x in a && x in b;
    }
    if b != [] {
      var y := b[0];
      assert y in b && y in a;
    }
  }

  lemma {:induction false} AscendingUnique(a: seq<int>, b: seq<int>)
    requires Ascending(a) && Ascending(b) && forall x :: x in a <==> x in b
    ensures a == b
  {
    EmptyTogether(a, b);
    if a != [] {
      LastIsGreatest(a);
      LastIsGreatest(b);
      var m, n := |a| - 1, |b| - 1;
      assert a[m] in a && b[n] in b;
      assert a[m] == b[n];
      forall x ensures x in a[..m] <==> x in b[..n] {
        assert x in a <==> x in b;
      }
      AscendingUnique(a[..m], b[..n]);
      assert a == a[..m] + [a[m]] && b == b[..n] + [b[n]];
    }
  }

  /** The due opens of a range that starts at the first slot: equal steps, up to the limit. */
  lemma {:induction false} SlotsAre(cursor: int, limit: int, start: int, interval: int)
    requires interval > 0
    ensures
      var slots := Slots(cursor, limit, start, interval);
      && Ascending(slots)
      && (forall t :: t in slots ==> cursor <= t && start <= t && t + interval <= limit)
    decreases limit - cursor
  {
    if cursor + interval <= limit {
      SlotsAre(cursor + interval, limit, start, interval);
      var rest := Slots(cursor + interval, limit, start, interval);
      forall i | 0 <= i < |rest| ensures cursor < rest[i] {
        assert rest[i] in rest;
      }
    }
  }

  lemma {:induction false} SlotsStep(cursor: int, limit: int, start: int, interval: int)
    requires interval > 0 && start <= cursor <= limit
    ensures
      var slots := Slots(cursor, limit, start, interval);
      && (forall j :: 0 <= j < |slots| ==> slots[j] == Stepped(cursor, j, interval))
      && Stepped(cursor, |slots|, interval) <= limit < Stepped(cursor, |slots| + 1, interval)
    decreases limit - cursor
  {
    hide Stepped;
    SteppedOne(cursor, interval);
    if cursor + interval <= limit {
      SlotsStep(cursor + interval, limit, start, interval);
      var rest := Slots(cursor + interval, limit, start, interval);
      var slots := Slots(cursor, limit, start, interval);
      forall j | 0 <= j < |slots| ensures slots[j] == Stepped(cursor, j, interval) {
        if j > 0 {
          SteppedShift(cursor, j - 1, interval);
        }
      }
      SteppedShift(cursor, |rest|, interval);
      SteppedShift(cursor, |rest| + 1, interval);
    }
  }

  function Stepped(first: int, k: nat, interval: int): int {
    first + k * interval
  }

  lemma SteppedOne(first: int, interval: int)
    ensures Stepped(first, 0, interval) == first && Stepped(first, 1, interval) == first + interval
  {
  }

  lemma SteppedShift(first: int, k: nat, interval: int)
    ensures Stepped(first + interval, k, interval) == Stepped(first, k + 1, interval)
  {
  }

  /** A query's answer passes `ordered_candles` unchanged as a set. */
  lemma QueriedOrdered(bars: seq<Bar>)
    requires InOrder(bars)
    ensures Ordered(bars).Ok? && forall x :: x in Ordered(bars).value <==> x in bars
  {
    hide Ordered, KeyText;
    OrderedFailsIff(bars);
    OrderedCovers(bars);
    var value := Ordered(bars).value;
    forall x | x in bars ensures x in value {
      var i :| 0 <= i < |value| && Same(value[i], x);
      assert value[i] in value;
    }
  }

  /** The bars a replay frame queried, against what was due. */
  lemma QualityOfFrame(bars: seq<Bar>, cal: Calendar, s: MarketSession, start: int, now: int, interval: int)
    requires interval > 0 && s in cal && OpensAt(s) <= start < now <= ClosesAt(s)
    requires (ClosesAt(s) - OpensAt(s)) % interval == 0 && InOrder(bars)
    requires forall k :: 0 <= k < |bars| ==> bars[k].closedAt - bars[k].openedAt == interval && bars[k].closedAt <= now
    ensures QualityOf(bars, cal, start, now, now, interval).reasons == {} <==>
              OpenTimes(bars) == Slots(OpensAt(s), now, start, interval)
  {
    hide Ordered, OpensAt, ClosesAt, Slots, Overlaps, ExpectedOpens;
    var slots := Slots(OpensAt(s), now, start, interval);
    ExpectedOfSession(cal, cal, s, start, now, interval);
    QueriedOrdered(bars);
    NoMismatch(cal, s, start, now, interval);
    SlotsAre(OpensAt(s), now, start, interval);
    var value := Ordered(bars).value;
    var expected := SlotSet(slots);
    var missing, unexpected := expected - OpensOf(value), UnexpectedOf(value, expected, now, interval);
    SameOpens(bars, value);
    assert QualityOf(bars, cal, start, now, now, interval).reasons
        == Reason(missing != {}, MissingCandles) + Reason(unexpected != {}, UnexpectedCandles);
    Gapless(bars, value, slots, now, interval);
  }

  lemma SameOpens(bars: seq<Bar>, value: seq<Bar>)
    requires forall x :: x in value <==> x in bars
    ensures OpensOf(value) == OpensOf(bars)
  {
  }

  lemma NoMismatch(cal: Calendar, s: MarketSession, start: int, now: int, interval: int)
    requires interval > 0 && s in cal && OpensAt(s) <= start < now <= ClosesAt(s) && (ClosesAt(s) - OpensAt(s)) % interval == 0
    ensures AnyOverlap(cal, start, now) && !Mismatched(cal, start, now, interval)
  {
    hide OpensAt, ClosesAt, Overlaps;
    OnlyOwnOverlaps(cal, s, s, start, now);
    var k :| 0 <= k < |cal| && cal[k] == s;
    assert Overlaps(cal[k], start, now);
    forall j | 0 <= j < |cal| && Overlaps(cal[j], start, now) ensures cal[j] == s {
      OnlyOwnOverlaps(cal, s, cal[j], start, now);
    }
  }

  lemma TimesAreOpens(bars: seq<Bar>, t: int)
    ensures t in OpenTimes(bars) <==> t in OpensOf(bars)
  {
    var times := OpenTimes(bars);
    if t in OpensOf(bars) {
      var c :| c in bars && c.openedAt == t;
      var k :| 0 <= k < |bars| && bars[k] == c;
      assert times[k] == t;
    }
    if t in times {
      var k :| 0 <= k < |times| && times[k] == t;
      assert bars[k] in bars;
    }
  }

  lemma UnexpectedEmpty(value: seq<Bar>, expected: set<int>, now: int, interval: int)
    requires forall x :: x in value ==> x.closedAt - x.openedAt == interval && x.closedAt <= now
    ensures UnexpectedOf(value, expected, now, interval) == {} <==> OpensOf(value) <= expected
  {
    if UnexpectedOf(value, expected, now, interval) == {} {
      forall t | t in OpensOf(value) ensures t in expected {
        var c :| c in value && c.openedAt == t;
        assert t in UnexpectedOf(value, expected, now, interval) || t in expected;
      }
    }
  }

  lemma Gapless(bars: seq<Bar>, value: seq<Bar>, slots: seq<int>, now: int, interval: int)
    requires InOrder(bars) && Ascending(slots) && forall x :: x in value <==> x in bars
    requires forall k :: 0 <= k < |bars| ==> bars[k].closedAt - bars[k].openedAt == interval && bars[k].closedAt <= now
    ensures SlotSet(slots) - OpensOf(value) == {} && UnexpectedOf(value, SlotSet(slots), now, interval) == {} <==> OpenTimes(bars) == slots
  {
    hide OpensOf, UnexpectedOf;
    var times, expected := OpenTimes(bars), SlotSet(slots);
    SameOpens(bars, value);
    UnexpectedEmpty(value, expected, now, interval);
    forall t ensures t in times <==> t in OpensOf(bars) {
      TimesAreOpens(bars, t);
    }
    if expected - OpensOf(value) == {} && OpensOf(value) <= expected {
      forall t ensures t in times <==> t in slots {
        assert t in slots <==> t in expected;
        assert t in expected ==> t in OpensOf(value) || t in expected - OpensOf(value);
      }
      AscendingUnique(times, slots);
    }
  }

  /** A replay that starts no later than a session's opening: its frame carries no reason exactly
      when it holds one bar for every interval since the opening, without a gap, and the last one
      closes at the frame's own instant. */
  lemma CompleteFrame(st: Store, cal: Calendar, instrument: Instrument, s: MarketSession, start: int, end: int,
      interval: int, f: Frame)
    requires Valid(st) && interval > 0 && IsFrameOf(st, cal, instrument, s, start, end, interval, f)
    requires start <= OpensAt(s) && (ClosesAt(s) - OpensAt(s)) % interval == 0
    ensures f.reasons == {} <==>
              && Stepped(OpensAt(s), |f.bars|, interval) == f.asOf
              && forall k :: 0 <= k < |f.bars| ==> f.bars[k].openedAt == Stepped(OpensAt(s), k, interval)
  {
    hide QualityOf, Selected, Stepped, Slots;
    var open := OpensAt(s);
    var slots := Slots(open, f.asOf, open, interval);
    SelectedInOrder(st.rows, instrument, interval, open, f.asOf, f.asOf, f.asOf);
    forall k | 0 <= k < |f.bars| ensures f.bars[k].closedAt - f.bars[k].openedAt == interval && f.bars[k].closedAt <= f.asOf {
      NoHindsight(st, instrument, interval, open, f.asOf, f.asOf, f.bars[k]);
    }
    hide FrameAt;
    FrameReasons(st, cal, instrument, s, start, interval, f.asOf);
    QualityOfFrame(f.bars, cal, s, open, f.asOf, interval);
    SlotsStep(open, f.asOf, open, interval);
    EndsOnGrid(s, interval, f.asOf, |slots|);
    SteppedOne(open, interval);
    assert slots != [];
    assert f.reasons == {} <==> OpenTimes(f.bars) == slots;
    if Stepped(open, |f.bars|, interval) == f.asOf {
      SteppedInjective(open, |f.bars|, |slots|, interval);
    }
  }

  lemma FrameReasons(st: Store, cal: Calendar, instrument: Instrument, s: MarketSession, start: int, interval: int, now: int)
    requires interval > 0 && start <= OpensAt(s)
    ensures
      var f := FrameAt(st, cal, instrument, s, start, now, interval);
      && f.bars == Query(st, instrument, interval, OpensAt(s), now, now)
      && f.reasons == QualityOf(f.bars, cal, OpensAt(s), now, now, interval).reasons + Reason(f.bars == [], MissingCandles)
  {
    hide QualityOf, Query;
  }

  lemma EndsOnGrid(s: MarketSession, interval: int, t: int, n: nat)
    requires interval > 0 && OnGrid(s, interval, t) && Stepped(OpensAt(s), n, interval) <= t < Stepped(OpensAt(s), n + 1, interval)
    ensures Stepped(OpensAt(s), n, interval) == t
  {
    DivUnique(t - OpensAt(s), interval, n);
  }

  lemma SteppedInjective(first: int, a: nat, b: nat, interval: int)
    requires interval > 0 && Stepped(first, a, interval) == Stepped(first, b, interval)
    ensures a == b
  {
    if a < b {
      ProductLe(a + 1, b, interval);
    } else if b < a {
      ProductLe(b + 1, a, interval);
    }
  }
}
