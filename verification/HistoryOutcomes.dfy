/** When a recording is taken and what it leaves, and what a gap report says (`record` and
    `history_quality` in `history.py`), bar by bar and minute by minute. */
module HistoryOutcomes {
  import opened Common
  import opened Rounding
  import opened History
  import opened HistoryReplay
  import opened ReplayFrames

  // ---------------------------------------------------------------- recording

  /** The bar can be stored beside what is there: its place is free, or holds the very bar and was
      available no later. */
  predicate Compatible(rows: map<RowKey, Row>, c: Bar, available: int) {
    KeyOf(c) in rows ==> rows[KeyOf(c)].bar == c && rows[KeyOf(c)].available <= available
  }

  ghost predicate DistinctKeys(bars: seq<Bar>) {
    forall i, j :: 0 <= i < j < |bars| ==> KeyOf(bars[i]) != KeyOf(bars[j])
  }

  lemma OrderedKeys(bars: seq<Bar>)
    requires SlotsInOrder(bars)
    ensures DistinctKeys(bars)
  {
    hide SlotBefore;
    forall i, j | 0 <= i < j < |bars| ensures KeyOf(bars[i]) != KeyOf(bars[j]) {
      SlotOrder(bars[i], bars[j], bars[i]);
    }
  }

  /** The row a bar ends up in. */
  function RowAfter(rows: map<RowKey, Row>, c: Bar, available: int): Row {
    if KeyOf(c) in rows then rows[KeyOf(c)] else Row(c, available)
  }

  function Keys(bars: seq<Bar>): set<RowKey> {
    set c | c in bars :: KeyOf(c)
  }

  function Links(bars: seq<Bar>, digest: Digest): set<(RowKey, Digest)> {
    set c | c in bars :: (KeyOf(c), digest)
  }

  /** What was there, every new bar in its place, and a link of each bar to the batch. */
  ghost predicate Stored(before: Store, bars: seq<Bar>, available: int, digest: Digest, after: Store) {
    && after.raw == before.raw && after.links == before.links + Links(bars, digest)
    && RowsStored(before.rows, bars, available, after.rows)
  }

  ghost predicate RowsStored(before: map<RowKey, Row>, bars: seq<Bar>, available: int, after: map<RowKey, Row>) {
    && after.Keys == before.Keys + Keys(bars)
    && (forall k :: k in before ==> after[k] == before[k])
    && (forall c :: c in bars ==> KeyOf(c) in after && after[KeyOf(c)] == RowAfter(before, c, available))
  }

  lemma {:induction false} RowsAddedIff(r: Recorded, bars: seq<Bar>, available: int, digest: Digest)
    requires DistinctKeys(bars)
    ensures RowsAdded(r, bars, available, digest).Ok? <==> forall c :: c in bars ==> Compatible(r.store.rows, c, available)
    ensures RowsAdded(r, bars, available, digest).Ok? ==>
              var after := RowsAdded(r, bars, available, digest).value;
              && Stored(r.store, bars, available, digest, after.store)
              && after.inserted - r.inserted == |after.store.rows| - |r.store.rows|
    decreases |bars|
  {
    hide KeyOf, Stored, RowAdded, Compatible;
    if bars == [] {
      NothingStored(r.store, available, digest);
    } else {
      var n := |bars| - 1;
      assert bars == bars[..n] + [bars[n]];
      RowsAddedIff(r, bars[..n], available, digest);
      var before := RowsAdded(r, bars[..n], available, digest);
      if before.Ok? {
        FreeOfOthers(bars, n);
        OneMore(r.store, bars[..n], available, digest, before.value, bars[n]);
      }
    }
  }

  lemma NothingStored(st: Store, available: int, digest: Digest)
    ensures Stored(st, [], available, digest, st)
  {
  }

  lemma OneMore(start: Store, bars: seq<Bar>, available: int, digest: Digest, r: Recorded, c: Bar)
    requires Stored(start, bars, available, digest, r.store) && KeyOf(c) !in Keys(bars)
    ensures RowAdded(r, c, available, digest).Ok? <==> Compatible(start.rows, c, available)
    ensures RowAdded(r, c, available, digest).Ok? ==>
              var after := RowAdded(r, c, available, digest).value;
              && Stored(start, bars + [c], available, digest, after.store)
              && after.inserted - r.inserted == |after.store.rows| - |r.store.rows|
  {
    hide KeyOf, Stored;
    var key := KeyOf(c);
    KeyIsFree(start, bars, available, digest, r.store, c);
    var after := RowAdded(r, c, available, digest);
    if after.Ok? {
      var links := r.store.links + {(key, digest)};
      if key in r.store.rows {
        LinkedMore(start, bars, available, digest, r.store, c);
        assert after.value.store == r.store.(links := links);
      } else {
        GrowsByOne(r.store.rows, key, Row(c, available));
        NewRowMore(start, bars, available, digest, r.store, c);
        assert after.value.store == r.store.(rows := r.store.rows[key := Row(c, available)], links := links);
      }
    }
  }

  lemma KeyIsFree(start: Store, bars: seq<Bar>, available: int, digest: Digest, st: Store, c: Bar)
    requires Stored(start, bars, available, digest, st) && KeyOf(c) !in Keys(bars)
    ensures KeyOf(c) in st.rows <==> KeyOf(c) in start.rows
    ensures KeyOf(c) in st.rows ==> st.rows[KeyOf(c)] == start.rows[KeyOf(c)]
  {
    hide KeyOf, Keys, Links;
  }

  lemma LinkedMore(start: Store, bars: seq<Bar>, available: int, digest: Digest, st: Store, c: Bar)
    requires Stored(start, bars, available, digest, st) && KeyOf(c) in start.rows
    ensures Stored(start, bars + [c], available, digest, st.(links := st.links + {(KeyOf(c), digest)}))
  {
    hide KeyOf, Keys, Links, RowsStored;
    KeysMore(bars, c, digest);
    RowsMore(start.rows, bars, available, st.rows, c);
  }

  lemma NewRowMore(start: Store, bars: seq<Bar>, available: int, digest: Digest, st: Store, c: Bar)
    requires Stored(start, bars, available, digest, st) && KeyOf(c) !in start.rows && KeyOf(c) !in Keys(bars)
    ensures Stored(start, bars + [c], available, digest,
                   st.(rows := st.rows[KeyOf(c) := Row(c, available)], links := st.links + {(KeyOf(c), digest)}))
  {
    hide KeyOf, Keys, Links, RowsStored;
    KeysMore(bars, c, digest);
    RowsMore(start.rows, bars, available, st.rows, c);
  }

  lemma KeysMore(bars: seq<Bar>, c: Bar, digest: Digest)
    ensures Keys(bars + [c]) == Keys(bars) + {KeyOf(c)} && Links(bars + [c], digest) == Links(bars, digest) + {(KeyOf(c), digest)}
    ensures forall x :: x in bars ==> KeyOf(x) in Keys(bars)
  {
    hide KeyOf;
  }

  lemma RowsMore(before: map<RowKey, Row>, bars: seq<Bar>, available: int, rows: map<RowKey, Row>, c: Bar)
    requires RowsStored(before, bars, available, rows) && (KeyOf(c) in before || KeyOf(c) !in Keys(bars))
    ensures RowsStored(before, bars + [c], available, if KeyOf(c) in before then rows else rows[KeyOf(c) := Row(c, available)])
  {
    hide KeyOf, Keys;
    KeysMore(bars, c, Digest("", []));
    var after := if KeyOf(c) in before then rows else rows[KeyOf(c) := Row(c, available)];
    assert after.Keys == before.Keys + Keys(bars + [c]);
    forall x | x in bars + [c] ensures KeyOf(x) in after && after[KeyOf(x)] == RowAfter(before, x, available) {
      if x != c {
        assert x in bars;
      }
    }
  }

  lemma GrowsByOne(rows: map<RowKey, Row>, key: RowKey, row: Row)
    requires key !in rows
    ensures |rows[key := row]| == |rows| + 1
  {
    assert rows[key := row].Keys == rows.Keys + {key};
    assert |rows[key := row].Keys| == |rows.Keys| + 1;
  }

  lemma FreeOfOthers(bars: seq<Bar>, n: nat)
    requires DistinctKeys(bars) && n < |bars|
    ensures KeyOf(bars[n]) !in Keys(bars[..n])
  {
  }

  /** A batch is recorded exactly when it names its source, holds no two different bars for one slot,
      every bar had closed by its availability, and none contradicts or antedates what is stored. */
  lemma RecordTakenIff(st: Store, b: Batch)
    ensures Record(st, b).Ok? <==>
      && b.source != "" && Ordered(b.bars).Ok?
      && (forall c :: c in b.bars ==> c.closedAt <= b.available)
      && (forall c :: c in Ordered(b.bars).value ==> Compatible(st.rows, c, b.available))
  {
    hide Ordered, RowsAdded, Compatible;
    if Ordered(b.bars).Ok? {
      var bars, digest := Ordered(b.bars).value, Digest(b.source, b.payload);
      OrderedInOrder(b.bars);
      OrderedKeys(bars);
      ClosedTogether(b.bars, b.available);
      RowsAddedIff(Recorded(st.(raw := RawAdded(st.raw, digest, b.available)), 0), bars, b.available, digest);
    }
  }

  /** The bars kept of a batch close when those given do. */
  lemma ClosedTogether(batch: seq<Bar>, available: int)
    requires Ordered(batch).Ok?
    ensures (forall c :: c in batch ==> c.closedAt <= available) <==>
            !(exists k :: 0 <= k < |Ordered(batch).value| && Ordered(batch).value[k].closedAt > available)
  {
    hide Ordered;
    OrderedCovers(batch);
    var bars := Ordered(batch).value;
    if !(exists k :: 0 <= k < |bars| && bars[k].closedAt > available) {
      forall c | c in batch ensures c.closedAt <= available {
        assert Covered(bars, c);
        var i :| 0 <= i < |bars| && Same(bars[i], c);
      }
    } else {
      var k :| 0 <= k < |bars| && bars[k].closedAt > available;
      assert bars[k] in batch;
    }
  }

  /** A recording leaves what was there, each new bar once, under its own key and the batch's
      availability, the batch's bytes with the first receipt, and a link of every bar to them; it
      counts the bars that were new. */
  lemma RecordLeaves(st: Store, b: Batch)
    requires Record(st, b).Ok?
    ensures
      var digest := Digest(b.source, b.payload);
      var received := st.(raw := if digest in st.raw then st.raw else st.raw[digest := b.available]);
      && Ordered(b.bars).Ok?
      && Stored(received, Ordered(b.bars).value, b.available, digest, AfterRecord(st, b))
      && Record(st, b).value.inserted == |AfterRecord(st, b).rows| - |st.rows|
  {
    hide Ordered, RowsAdded, Stored;
    var bars, digest := Ordered(b.bars).value, Digest(b.source, b.payload);
    OrderedInOrder(b.bars);
    OrderedKeys(bars);
    RowsAddedIff(Recorded(st.(raw := RawAdded(st.raw, digest, b.available)), 0), bars, b.available, digest);
  }

  // ---------------------------------------------------------------- provenance

  /** A raw batch that supports the bar and had been received. */
  predicate Supports(st: Store, c: Bar, cutoff: int, d: Digest) {
    (KeyOf(c), d) in st.links && d in st.raw && st.raw[d] <= cutoff
  }

  /** Why a bar cannot be traced, if it cannot: it is not stored or not available yet; it differs from
      what is stored; nothing received supports it. */
  ghost predicate Traced(st: Store, c: Bar, cutoff: int, refusal: Option<Error>) {
    var there := KeyOf(c) in st.rows && st.rows[KeyOf(c)].available <= cutoff && c.closedAt <= cutoff;
    && (refusal == Some(NotAvailable) <==> !there)
    && (refusal == Some(DiffersFromStored) <==> there && !Same(st.rows[KeyOf(c)].bar, c))
    && (refusal == Some(MissingProvenance) <==> there && Same(st.rows[KeyOf(c)].bar, c) && forall d :: !Supports(st, c, cutoff, d))
    && (refusal == None <==> there && Same(st.rows[KeyOf(c)].bar, c) && exists d :: Supports(st, c, cutoff, d))
  }

  ghost predicate AllTraced(st: Store, bars: seq<Bar>, cutoff: int, n: nat)
    requires n <= |bars|
  {
    forall k :: 0 <= k < n ==> Traced(st, bars[k], cutoff, None)
  }

  /** Provenance is refused for the first bar that cannot be traced, for its reason; without one it
      names every received batch that supports any of the bars, and no other. */
  lemma {:induction false} ProvenanceIs(st: Store, bars: seq<Bar>, cutoff: int) returns (k: nat)
    ensures k <= |bars| && AllTraced(st, bars, cutoff, k)
    ensures Provenance(st, bars, cutoff).Ok? <==> k == |bars|
    ensures k < |bars| ==> Traced(st, bars[k], cutoff, Some(Provenance(st, bars, cutoff).error))
    ensures k == |bars| ==>
              forall d :: d in Provenance(st, bars, cutoff).value <==> exists c :: c in bars && Supports(st, c, cutoff, d)
  {
    hide KeyOf, Traced, Supports;
    if bars == [] {
      return 0;
    }
    var n := |bars| - 1;
    k := ProvenanceIs(st, bars[..n], cutoff);
    forall j | 0 <= j < k ensures Traced(st, bars[j], cutoff, None) {
      assert Traced(st, bars[..n][j], cutoff, None);
    }
    assert bars == bars[..n] + [bars[n]];
    if k == n {
      TracedIs(st, bars[n], cutoff);
      if Provenance(st, bars, cutoff).Ok? {
        k := n + 1;
      }
    }
  }

  lemma TracedIs(st: Store, c: Bar, cutoff: int)
    ensures
      var key := KeyOf(c);
      Traced(st, c, cutoff,
             if key !in st.rows || st.rows[key].available > cutoff || c.closedAt > cutoff then Some(NotAvailable)
             else if !Same(st.rows[key].bar, c) then Some(DiffersFromStored)
             else if DigestsFor(st, key, cutoff) == {} then Some(MissingProvenance) else None)
    ensures forall d :: d in DigestsFor(st, KeyOf(c), cutoff) <==> Supports(st, c, cutoff, d)
  {
    hide KeyOf, Same;
    var digests := DigestsFor(st, KeyOf(c), cutoff);
    assert forall d :: d in digests <==> Supports(st, c, cutoff, d);
    if digests != {} {
      var d :| d in digests;
      assert Supports(st, c, cutoff, d);
    }
  }

  // ---------------------------------------------------------------- the gap report

  /** A bar opening then is due: a whole number of intervals after the opening of a declared session
      that meets the range, not before the range, and closed by the session's end and the cutoff. */
  ghost predicate Due(cal: seq<MarketSession>, start: int, end: int, cutoff: int, interval: int, t: int)
    requires interval > 0
  {
    exists k :: 0 <= k < |cal| && DueIn(cal[k], start, end, cutoff, interval, t)
  }

  predicate DueIn(s: MarketSession, start: int, end: int, cutoff: int, interval: int, t: int)
    requires interval > 0
  {
    && OpensAt(s) < end && start < ClosesAt(s)
    && OpensAt(s) <= t && start <= t && (t - OpensAt(s)) % interval == 0
    && t + interval <= ClosesAt(s) && t + interval <= cutoff
  }

  lemma {:induction false} SlotIff(first: int, cursor: int, limit: int, start: int, interval: int, t: int)
    requires interval > 0 && first <= cursor && (cursor - first) % interval == 0
    ensures t in Slots(cursor, limit, start, interval) <==>
              cursor <= t && start <= t && (t - first) % interval == 0 && t + interval <= limit
    decreases limit - cursor
  {
    if cursor + interval <= limit {
      StepOn(cursor - first, interval);
      SlotIff(first, cursor + interval, limit, start, interval, t);
      if cursor < t < cursor + interval && (t - first) % interval == 0 {
        Between(cursor - first, t - first, interval);
      }
    }
  }

  lemma StepOn(x: int, interval: int)
    requires interval > 0 && x % interval == 0
    ensures (x + interval) % interval == 0
  {
    MulModZero(x / interval + 1, interval);
    assert (x / interval + 1) * interval == x + interval;
  }

  lemma Between(x: int, y: int, interval: int)
    requires interval > 0 && x % interval == 0 && x < y < x + interval
    ensures y % interval != 0
  {
    DivUnique(y, interval, x / interval);
  }

  lemma {:induction false} ExpectedIff(cal: seq<MarketSession>, start: int, end: int, cutoff: int, interval: int, t: int)
    requires interval > 0
    ensures t in ExpectedOpens(cal, start, end, cutoff, interval) <==> Due(cal, start, end, cutoff, interval, t)
  {
    hide Slots, OpensAt, ClosesAt;
    if cal != [] {
      var n := |cal| - 1;
      ExpectedIff(cal[..n], start, end, cutoff, interval, t);
      SlotIff(OpensAt(cal[n]), OpensAt(cal[n]), MinInt(ClosesAt(cal[n]), cutoff), start, interval, t);
      DueSplit(cal, start, end, cutoff, interval, t);
      hide Due;
    }
  }

  lemma DueSplit(cal: seq<MarketSession>, start: int, end: int, cutoff: int, interval: int, t: int)
    requires interval > 0 && cal != []
    ensures Due(cal, start, end, cutoff, interval, t)
      <==> Due(cal[..|cal| - 1], start, end, cutoff, interval, t) || DueIn(cal[|cal| - 1], start, end, cutoff, interval, t)
  {
    hide DueIn;
    var n := |cal| - 1;
    if Due(cal[..n], start, end, cutoff, interval, t) {
      var k :| 0 <= k < n && DueIn(cal[..n][k], start, end, cutoff, interval, t);
      assert DueIn(cal[k], start, end, cutoff, interval, t);
    }
    if Due(cal, start, end, cutoff, interval, t) {
      var k :| 0 <= k < |cal| && DueIn(cal[k], start, end, cutoff, interval, t);
      assert k < n ==> cal[..n][k] == cal[k];
    }
  }

  /** The report on bars without conflict: missing is every due minute without a bar; unexpected is the
      opening of every bar that is not due, has another length, or closes after the cutoff; and each
      reason stands for its own defect. Conflicting bars are reported as such alone. */
  lemma GapReport(bars: seq<Bar>, cal: Calendar, start: int, end: int, asOf: int, interval: int, t: int)
    requires interval > 0
    ensures
      var q, cutoff := QualityOf(bars, cal, start, end, asOf, interval), if end <= asOf then end else asOf;
      if Ordered(bars).Err? then q == Quality({}, {}, {ConflictingBars})
      else
        var kept := Ordered(bars).value;
        && (t in q.missing <==> Due(cal, start, end, cutoff, interval, t) && forall c :: c in kept ==> c.openedAt != t)
        && (t in q.unexpected <==>
              exists c :: c in kept && c.openedAt == t && (!Due(cal, start, end, cutoff, interval, t) || c.closedAt - t != interval || cutoff < c.closedAt))
        && (TimeframeMismatch in q.reasons <==>
              exists s :: s in cal && OpensAt(s) < end && start < ClosesAt(s) && (ClosesAt(s) - OpensAt(s)) % interval != 0)
        && (NoDeclaredSessions in q.reasons <==> forall s :: s in cal ==> end <= OpensAt(s) || ClosesAt(s) <= start)
        && (MissingCandles in q.reasons <==> q.missing != {}) && (UnexpectedCandles in q.reasons <==> q.unexpected != {})
        && ConflictingBars !in q.reasons
  {
    hide Ordered, ExpectedOpens, Due, OpensAt, ClosesAt, UnexpectedOf, OpensOf, Mismatched, AnyOverlap;
    var cutoff := MinInt(end, asOf);
    var expected := ExpectedOpens(cal, start, end, cutoff, interval);
    ExpectedIff(cal, start, end, cutoff, interval, t);
    MismatchIs(cal, start, end, interval);
    if Ordered(bars).Ok? {
      OpensAre(Ordered(bars).value, expected, cutoff, interval, t);
    }
  }

  lemma OpensAre(kept: seq<Bar>, expected: set<int>, cutoff: int, interval: int, t: int)
    ensures t in OpensOf(kept) <==> exists c :: c in kept && c.openedAt == t
    ensures t in UnexpectedOf(kept, expected, cutoff, interval) <==>
              exists c :: c in kept && c.openedAt == t && (t !in expected || c.closedAt - t != interval || cutoff < c.closedAt)
  {
  }

  lemma MismatchIs(cal: seq<MarketSession>, start: int, end: int, interval: int)
    requires interval > 0
    ensures Mismatched(cal, start, end, interval) <==>
              exists s :: s in cal && OpensAt(s) < end && start < ClosesAt(s) && (ClosesAt(s) - OpensAt(s)) % interval != 0
    ensures AnyOverlap(cal, start, end) <==> !(forall s :: s in cal ==> end <= OpensAt(s) || ClosesAt(s) <= start)
  {
    hide OpensAt, ClosesAt;
  }

  /** A snapshot holds exactly the bars readable at its clock, and adds a reason when there are none. */
  lemma SnapshotIs(st: Store, cal: Calendar, instrument: Instrument, start: int, end: int, now: int, interval: int, b: Bar)
    requires Valid(st) && interval > 0
    ensures
      var f := Snapshot(st, cal, instrument, start, end, now, interval);
      && f.asOf == now && InOrder(f.bars) && (b in f.bars <==> Readable(st, instrument, interval, start, end, now, b))
      && f.quality == QualityOf(f.bars, cal, start, end, now, interval)
      && f.reasons == f.quality.reasons + if f.bars == [] then {MissingCandles} else {}
  {
    hide QualityOf, Selected, InOrder, Readable;
    NoHindsight(st, instrument, interval, start, end, now, b);
    SelectedInOrder(st.rows, instrument, interval, start, end, end, now);
  }

  /** A replay is refused exactly for an interval that is not positive, an empty range, a range that
      meets no declared session, or an interval that does not divide one it meets. */
  lemma ReplayRefused(st: Store, cal: Calendar, instrument: Instrument, start: int, end: int, interval: int)
    ensures
      var r := Replay(st, cal, instrument, start, end, interval);
      if interval <= 0 then r == Err(TimeframeNotPositive)
      else if end <= start then r == Err(RangeNotOrdered)
      else if forall s :: s in cal ==> end <= OpensAt(s) || ClosesAt(s) <= start then r == Err(NoSessions)
      else if exists s :: s in cal && OpensAt(s) < end && start < ClosesAt(s) && (s.closes - s.opens) % interval != 0
      then r == Err(TimeframeDoesNotDivide)
      else r.Ok?
  {
    if interval > 0 && start < end {
      var sessions := ReplayedSessions(cal, start, end);
      ReplayedSessionsAre(cal, start, end);
      DividesIff(sessions, interval);
      SomeReplayed(cal, sessions, start, end);
      hide FramesOf, ReplayedSessions, Divides, OpensAt, ClosesAt;
    }
  }

  lemma DividesIff(sessions: seq<MarketSession>, interval: int)
    requires interval > 0
    ensures Divides(sessions, interval) <==> forall s :: s in sessions ==> (s.closes - s.opens) % interval == 0
  {
    forall s: MarketSession ensures ClosesAt(s) - OpensAt(s) == s.closes - s.opens {
    }
    hide OpensAt, ClosesAt;
    if Divides(sessions, interval) {
      forall s | s in sessions ensures (s.closes - s.opens) % interval == 0 {
        var k :| 0 <= k < |sessions| && sessions[k] == s;
      }
    }
  }

  lemma SomeReplayed(cal: Calendar, sessions: seq<MarketSession>, start: int, end: int)
    requires forall x :: x in sessions <==> x in cal && Overlaps(x, start, end)
    ensures sessions == [] <==> forall s :: s in cal ==> end <= OpensAt(s) || ClosesAt(s) <= start
    ensures forall x :: x in sessions <==> x in cal && OpensAt(x) < end && start < ClosesAt(x)
  {
    hide OpensAt, ClosesAt;
    if sessions != [] {
      assert sessions[0] in cal && Overlaps(sessions[0], start, end);
    }
  }
}
