/** `replay_sessions` in `history.py` as the generator it is: each call reads the store as it
    stands at that call, whatever was recorded since the last one. */
module ReplayGenerator {
  import opened Common
  import opened Rounding
  import opened History
  import opened HistoryReplay
  import opened ReplayFrames

  class FrameSource {
    const store: HistoricalStore
    const cal: Calendar
    const instrument: Instrument
    const start: int
    const end: int
    const interval: int
    var started: bool
    var finished: bool
    var sessions: seq<MarketSession>
    var index: nat
    var cursor: int
    ghost var yielded: seq<Tick>

    /** The ticks yielded so far and those of the session under the cursor make up the ticks of
        the sessions reached. */
    ghost predicate InPlace()
      reads this
    {
      && interval > 0 && index <= |sessions|
      && (index == |sessions| ==> TicksOf(sessions, start, end, interval) == yielded)
      && (index < |sessions| ==>
            && OpensAt(sessions[index]) + interval <= cursor
            && TicksOf(sessions[..index + 1], start, end, interval)
            == yielded + SessionTicks(sessions[index], start, end, cursor, interval))
    }

    ghost predicate Ready()
      reads this
    {
      && (!started ==> yielded == [] && !finished)
      && (started && !finished ==>
            && InPlace() && start < end && Divides(sessions, interval)
            && sessions == ReplayedSessions(cal, start, end) && sessions != [])
    }

    /** What the next call owes on this store: the frame after those yielded, of the replay of the
        store as it is now; the refusal once; and nothing any more after the last frame. */
    ghost function Due(st: Store): Result<Option<Frame>, Error>
      reads this
    {
      var all := Replay(st, cal, instrument, start, end, interval);
      if finished then Ok(None)
      else if all.Err? then Err(all.error)
      else if |yielded| < |all.value| then Ok(Some(all.value[|yielded|]))
      else Ok(None)
    }

    constructor (store: HistoricalStore, cal: Calendar, instrument: Instrument, start: int, end: int, interval: int)
      ensures Ready() && !started && !finished && yielded == [] && this.store == store && this.cal == cal && this.instrument == instrument
      ensures this.start == start && this.end == end && this.interval == interval
    {
      this.store, this.cal, this.instrument, this.start, this.end, this.interval := store, cal, instrument, start, end, interval;
      started, finished, sessions, index, cursor, yielded := false, false, [], 0, 0, [];
    }

    method Next() returns (r: Result<Option<Frame>, Error>)
      requires Ready() && Valid(store.Model())
      modifies this
      ensures Ready() && started
      ensures r == old(Due(store.Model()))
      ensures |yielded| == |old(yielded)| + if r.Ok? && r.value.Some? then 1 else 0
      ensures finished <==> !(r.Ok? && r.value.Some?)
    {
      hide FrameAt, Snapshot, TicksOf, FramesOf, ReplayedSessions, Divides, OpensAt, SessionTicks, Valid;
      if finished {
        return Ok(None);
      }
      if !started {
        started := true;
        sessions := ReplayedSessions(cal, start, end);
        var refusal := Refusal();
        if refusal.Some? {
          finished := true;
          return Err(refusal.value);
        }
        index, cursor := 0, OpensAt(sessions[0]) + interval;
        FirstSession(sessions, start, end, interval);
      }
      FramesAtTicks(store.Model(), cal, instrument, sessions, start, end, interval);
      var tick := Advance();
      if tick.None? {
        finished := true;
        return Ok(None);
      }
      var s, at := tick.value.session, tick.value.at;
      var frame := TakeSnapshot(store, cal, instrument, MaxInt(start, OpensAt(s)), at, at, interval);
      FrameIsSnapshot(store.Model(), cal, instrument, s, start, at, interval);
      r := Ok(Some(frame));
    }

    /** The two loops up to the next instant to yield at. */
    method Advance() returns (tick: Option<Tick>)
      requires InPlace()
      modifies this`index, this`cursor, this`yielded
      ensures InPlace()
      ensures tick.None? ==> yielded == old(yielded) == TicksOf(sessions, start, end, interval)
      ensures tick.Some? ==>
                && yielded == old(yielded) + [tick.value] && yielded <= TicksOf(sessions, start, end, interval)
                && start < tick.value.at && OpensAt(tick.value.session) < tick.value.at
    {
      hide TicksOf, OpensAt, ClosesAt;
      while index < |sessions|
        invariant InPlace() && yielded == old(yielded)
        decreases |sessions| - index, if index < |sessions| then MinInt(ClosesAt(sessions[index]), end) - cursor else 0
      {
        var s, at := sessions[index], cursor;
        if at > MinInt(ClosesAt(s), end) {
          NextSession(sessions, index, start, end, interval);
          index := index + 1;
          if index < |sessions| {
            cursor := OpensAt(sessions[index]) + interval;
          }
        } else {
          cursor := at + interval;
          if at > start {
            TicksAreFirst(sessions, index + 1, start, end, interval);
            yielded := yielded + [Tick(s, at)];
            return Some(Tick(s, at));
          }
        }
      }
      tick := None;
    }

    /** The checks before the first frame. */
    method Refusal() returns (r: Option<Error>)
      ensures r == if interval <= 0 then Some(TimeframeNotPositive)
                   else if start >= end then Some(RangeNotOrdered)
                   else if sessions == [] then Some(NoSessions)
                   else if !Divides(sessions, interval) then Some(TimeframeDoesNotDivide)
                   else None
    {
      r := if interval <= 0 then Some(TimeframeNotPositive)
           else if start >= end then Some(RangeNotOrdered)
           else if sessions == [] then Some(NoSessions)
           else if !Divides(sessions, interval) then Some(TimeframeDoesNotDivide)
           else None;
    }
  }

  lemma FirstSession(sessions: seq<MarketSession>, start: int, end: int, interval: int)
    requires interval > 0 && sessions != []
    ensures TicksOf(sessions[..1], start, end, interval)
         == SessionTicks(sessions[0], start, end, OpensAt(sessions[0]) + interval, interval)
  {
    assert sessions[..1][..0] == [];
    assert TicksOf(sessions[..1][..0], start, end, interval) == [];
  }

  lemma NextSession(sessions: seq<MarketSession>, k: nat, start: int, end: int, interval: int)
    requires interval > 0 && k < |sessions|
    ensures k + 1 == |sessions| ==> sessions[..k + 1] == sessions
    ensures k + 1 < |sessions| ==>
              TicksOf(sessions[..k + 2], start, end, interval) == TicksOf(sessions[..k + 1], start, end, interval)
              + SessionTicks(sessions[k + 1], start, end, OpensAt(sessions[k + 1]) + interval, interval)
  {
    if k + 1 < |sessions| {
      assert sessions[..k + 2][..k + 1] == sessions[..k + 1];
    }
  }

  lemma {:induction false} TicksAreFirst(sessions: seq<MarketSession>, k: nat, start: int, end: int, interval: int)
    requires interval > 0 && k <= |sessions|
    ensures TicksOf(sessions[..k], start, end, interval) <= TicksOf(sessions, start, end, interval)
    decreases |sessions| - k
  {
    if k == |sessions| {
      assert sessions[..k] == sessions;
    } else {
      assert sessions[..k + 1][..k] == sessions[..k];
      TicksAreFirst(sessions, k + 1, start, end, interval);
    }
  }
}
