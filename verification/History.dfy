/** The immutable candle store and its point-in-time queries (`HistoricalStore` in `history.py`,
    `ordered_candles` in `canonical.py`). Times are microseconds; every recording is one
    transaction that an error undoes. */
module History {
  import opened Common

  datatype Error = SourceRequired | ConflictingDuplicate | NotYetClosed | ConflictingCandle | Backdated
                 | TimeframeNotPositive | RangeNotOrdered | NotAvailable | DiffersFromStored | MissingProvenance
                 | NoSessions | TimeframeDoesNotDivide

  // ---------------------------------------------------------------- candles

  datatype Instrument = Instrument(exchange: string, segment: string, series: string, symbol: string)
  {
    /** Identity fields are never blank. */
    predicate Named() {
      !Blank(exchange) && !Blank(segment) && !Blank(series) && !Blank(symbol)
    }
  }

  /** What a candle records besides its identity and times. Equality of candles compares values;
      the store compares the spelled text, where 1.0 and 1.00 differ. */
  datatype Content = Content(open: real, high: real, low: real, close: real, volume: Option<int>,
                             isin: Option<string>, source: string)

  datatype Candle = Candle(instrument: Instrument, openedAt: int, closedAt: int, content: Content, spelling: string)
  {
    predicate Valid() {
      && instrument.Named() && openedAt < closedAt && 0.0 < content.low
      && content.low <= content.open <= content.high && content.low <= content.close <= content.high
      && (content.volume.Some? ==> content.volume.value >= 0) && content.source != ""
    }
  }

  type Bar = c: Candle | c.Valid()
    witness Candle(Instrument("NSE", "CASH", "EQ", "X"), 0, 1, Content(1.0, 1.0, 1.0, 1.0, None, None, "x"), "1.0")

  /** Equality of two candle objects: everything but the spelling of the numbers. */
  predicate Same(a: Bar, b: Bar) {
    a.instrument == b.instrument && a.openedAt == b.openedAt && a.closedAt == b.closedAt && a.content == b.content
  }

  /** The display key, which joins the four parts with colons. */
  function KeyText(i: Instrument): string {
    i.exchange + ":" + i.segment + ":" + i.series + ":" + i.symbol
  }

  predicate SameSlot(a: Bar, b: Bar) {
    KeyText(a.instrument) == KeyText(b.instrument) && a.openedAt == b.openedAt && a.closedAt == b.closedAt
  }

  predicate SlotBefore(a: Bar, b: Bar) {
    var x, y := KeyText(a.instrument), KeyText(b.instrument);
    Precedes(x, y) || (x == y && (a.openedAt < b.openedAt || (a.openedAt == b.openedAt && a.closedAt < b.closedAt)))
  }

  function SlotIndex(bars: seq<Bar>, c: Bar): (r: Option<nat>)
    ensures r.Some? ==> r.value < |bars| && SameSlot(bars[r.value], c)
    ensures r.None? ==> forall i :: 0 <= i < |bars| ==> !SameSlot(bars[i], c)
  {
    if bars == [] then None
    else
      var n := |bars| - 1;
      var before := SlotIndex(bars[..n], c);
      if before.Some? then before else if SameSlot(bars[n], c) then Some(n) else None
  }

  function InsertInOrder(bars: seq<Bar>, c: Bar): seq<Bar> {
    if bars == [] then [c]
    else
      var n := |bars| - 1;
      if SlotBefore(c, bars[n]) then InsertInOrder(bars[..n], c) + [bars[n]] else bars + [c]
  }

  /** `ordered_candles`: one bar a slot, the last spelling given, in key order. */
  function Ordered(batch: seq<Bar>): Result<seq<Bar>, Error> {
    if batch == [] then Ok([])
    else
      var n := |batch| - 1;
      var before := Ordered(batch[..n]);
      if before.Err? then before
      else
        var i := SlotIndex(before.value, batch[n]);
        if i.None? then Ok(InsertInOrder(before.value, batch[n]))
        else if !Same(before.value[i.value], batch[n]) then Err(ConflictingDuplicate)
        else Ok(before.value[i.value := batch[n]])
  }

  method OrderCandles(batch: seq<Bar>) returns (r: Result<seq<Bar>, Error>)
    ensures r == Ordered(batch)
  {
    var unique: seq<Bar> := [];
    for k := 0 to |batch|
      invariant Ordered(batch[..k]) == Ok(unique)
    {
      assert batch[..k + 1][..k] == batch[..k];
      var i := SlotIndex(unique, batch[k]);
      if i.Some? && !Same(unique[i.value], batch[k]) {
        ErrorsStay(batch, k + 1);
        return Err(ConflictingDuplicate);
      }
      if i.Some? {
        unique := unique[i.value := batch[k]];
      } else {
        unique := InsertInOrder(unique, batch[k]);
      }
    }
    assert batch[..|batch|] == batch;
    r := Ok(unique);
  }

  lemma {:induction false} ErrorsStay(batch: seq<Bar>, k: nat)
    requires k <= |batch| && Ordered(batch[..k]).Err?
    ensures Ordered(batch) == Ordered(batch[..k])
    decreases |batch| - k
  {
    if k == |batch| {
      assert batch[..k] == batch;
    } else {
      assert batch[..k + 1][..k] == batch[..k];
      ErrorsStay(batch, k + 1);
    }
  }

  lemma InsertMembers(bars: seq<Bar>, c: Bar)
    ensures forall x :: x in InsertInOrder(bars, c) <==> x in bars || x == c
  {
    if bars != [] && SlotBefore(c, bars[|bars| - 1]) {
      InsertMembers(bars[..|bars| - 1], c);
      assert bars == bars[..|bars| - 1] + [bars[|bars| - 1]];
    }
  }

  ghost predicate SlotsInOrder(bars: seq<Bar>) {
    forall i, j :: 0 <= i < j < |bars| ==> SlotBefore(bars[i], bars[j])
  }

  lemma SlotOrder(a: Bar, b: Bar, c: Bar)
    ensures SlotBefore(a, b) || SlotBefore(b, a) || SameSlot(a, b)
    ensures !(SlotBefore(a, b) && SameSlot(a, b))
    ensures SlotBefore(a, b) && SlotBefore(b, c) ==> SlotBefore(a, c)
    ensures SameSlot(a, b) ==> (SlotBefore(a, c) <==> SlotBefore(b, c)) && (SlotBefore(c, a) <==> SlotBefore(c, b))
  {
    hide Precedes, KeyText;
    var x, y, z := KeyText(a.instrument), KeyText(b.instrument), KeyText(c.instrument);
    PrecedesTotal(x, y);
    if Precedes(x, y) && Precedes(y, z) {
      PrecedesTransitive(x, y, z);
    }
  }

  lemma {:induction false} InsertKeepsOrder(bars: seq<Bar>, c: Bar)
    requires SlotsInOrder(bars) && forall i :: 0 <= i < |bars| ==> !SameSlot(bars[i], c)
    ensures SlotsInOrder(InsertInOrder(bars, c))
  {
    hide SlotBefore, SameSlot;
    if bars != [] {
      var n := |bars| - 1;
      SlotOrder(c, bars[n], c);
      SlotOrder(bars[n], c, c);
      if SlotBefore(c, bars[n]) {
        InsertKeepsOrder(bars[..n], c);
        InsertMembers(bars[..n], c);
        var front := InsertInOrder(bars[..n], c);
        forall i | 0 <= i < |front| ensures SlotBefore(front[i], bars[n]) {
          assert front[i] in front;
        }
      } else {
        forall i | 0 <= i < |bars| ensures SlotBefore(bars[i], c) {
          SlotOrder(bars[i], bars[n], c);
        }
      }
    }
  }

  lemma {:induction false} OrderedInOrder(batch: seq<Bar>)
    requires Ordered(batch).Ok?
    ensures SlotsInOrder(Ordered(batch).value)
  {
    hide SlotBefore, SameSlot, Same, InsertInOrder;
    if batch != [] {
      var n := |batch| - 1;
      OrderedInOrder(batch[..n]);
      var before := Ordered(batch[..n]).value;
      var i := SlotIndex(before, batch[n]);
      if i.None? {
        InsertKeepsOrder(before, batch[n]);
      } else {
        forall j | 0 <= j < |before| ensures
          && (SlotBefore(before[j], batch[n]) <==> SlotBefore(before[j], before[i.value]))
          && (SlotBefore(batch[n], before[j]) <==> SlotBefore(before[i.value], before[j])) {
          SlotOrder(before[i.value], batch[n], before[j]);
        }
      }
    }
  }

  /** A batch is refused exactly when two of its bars fill one slot with different values. */
  lemma {:induction false} OrderedFailsIff(batch: seq<Bar>)
    ensures Ordered(batch).Err? <==>
              exists i, j :: 0 <= i < |batch| && 0 <= j < |batch| && SameSlot(batch[i], batch[j]) && !Same(batch[i], batch[j])
  {
    hide SlotBefore, InsertInOrder, KeyText;
    if Ordered(batch).Ok? {
      OrderedCovers(batch);
      OrderedInOrder(batch);
      forall i, j | 0 <= i < |batch| && 0 <= j < |batch| && SameSlot(batch[i], batch[j]) ensures Same(batch[i], batch[j]) {
        OneOfASlot(Ordered(batch).value, batch[i], batch[j]);
      }
    } else {
      var n := |batch| - 1;
      if Ordered(batch[..n]).Err? {
        OrderedFailsIff(batch[..n]);
        var i, j :| 0 <= i < n && 0 <= j < n && SameSlot(batch[..n][i], batch[..n][j]) && !Same(batch[..n][i], batch[..n][j]);
        assert SameSlot(batch[i], batch[j]) && !Same(batch[i], batch[j]);
      } else {
        OrderedCovers(batch[..n]);
        var before := Ordered(batch[..n]).value;
        var i := SlotIndex(before, batch[n]).value;
        assert before[i] in batch[..n];
        var k :| 0 <= k < n && batch[..n][k] == before[i];
        assert SameSlot(batch[k], batch[n]) && !Same(batch[k], batch[n]);
      }
    }
  }

  lemma OneOfASlot(bars: seq<Bar>, a: Bar, b: Bar)
    requires SlotsInOrder(bars) && Covered(bars, a) && Covered(bars, b) && SameSlot(a, b)
    ensures Same(a, b)
  {
    hide SlotBefore, KeyText;
    var i :| 0 <= i < |bars| && Same(bars[i], a);
    var j :| 0 <= j < |bars| && Same(bars[j], b);
    SlotOrder(bars[i], bars[j], a);
    SlotOrder(bars[j], bars[i], a);
  }

  /** Each slot of the batch is kept once: the result draws only from the batch, and holds a bar
      equal in value to every bar of the batch. */
  lemma {:induction false} OrderedCovers(batch: seq<Bar>)
    requires Ordered(batch).Ok?
    ensures forall x :: x in Ordered(batch).value ==> x in batch
    ensures forall x :: x in batch ==> Covered(Ordered(batch).value, x)
  {
    hide SameSlot, Covered, InsertInOrder;
    if batch != [] {
      var n := |batch| - 1;
      OrderedCovers(batch[..n]);
      assert batch == batch[..n] + [batch[n]];
      var before, after := Ordered(batch[..n]).value, Ordered(batch).value;
      var i := SlotIndex(before, batch[n]);
      if i.None? {
        InsertMembers(before, batch[n]);
        assert batch[n] in after;
        forall x | x in batch ensures Covered(after, x) {
          if x in batch[..n] {
            CoverKept(before, after, x);
          } else {
            ItselfCovered(after, x);
          }
        }
      } else {
        assert after[i.value] == batch[n];
        forall x | x in batch ensures Covered(after, x) {
          if x in batch[..n] {
            CoverMoves(before, i.value, batch[n], x);
          } else {
            ItselfCovered(after, x);
          }
        }
      }
    }
  }

  ghost predicate Covered(bars: seq<Bar>, x: Bar) {
    exists i :: 0 <= i < |bars| && Same(bars[i], x)
  }

  lemma ItselfCovered(bars: seq<Bar>, x: Bar)
    requires x in bars
    ensures Covered(bars, x)
  {
    var i :| 0 <= i < |bars| && bars[i] == x;
    assert Same(bars[i], x);
  }

  lemma CoverKept(before: seq<Bar>, after: seq<Bar>, x: Bar)
    requires Covered(before, x) && forall y :: y in before ==> y in after
    ensures Covered(after, x)
  {
    var i :| 0 <= i < |before| && Same(before[i], x);
    assert before[i] in before;
    var j :| 0 <= j < |after| && after[j] == before[i];
    assert Same(after[j], x);
  }

  lemma CoverMoves(bars: seq<Bar>, i: nat, c: Bar, x: Bar)
    requires i < |bars| && Same(bars[i], c) && Covered(bars, x)
    ensures Covered(bars[i := c], x)
  {
    var j :| 0 <= j < |bars| && Same(bars[j], x);
    assert Same(bars[i := c][j], x);
  }

  // ---------------------------------------------------------------- the store

  datatype RowKey = RowKey(instrument: Instrument, interval: int, openedAt: int)

  function KeyOf(c: Bar): RowKey {
    RowKey(c.instrument, c.closedAt - c.openedAt, c.openedAt)
  }

  datatype Row = Row(bar: Bar, available: int)

  /** A raw batch's identity, standing for the hash of its source label and bytes. */
  datatype Digest = Digest(source: string, payload: seq<bv8>)

  /** Candle rows, when each raw batch was first received, and which batches support which rows. */
  datatype Store = Store(rows: map<RowKey, Row>, raw: map<Digest, int>, links: set<(RowKey, Digest)>)

  const EMPTY := Store(map[], map[], {})

  datatype Batch = Batch(bars: seq<Bar>, available: int, source: string, payload: seq<bv8>)

  datatype Recorded = Recorded(store: Store, inserted: nat)

  function RowAdded(r: Recorded, c: Bar, available: int, digest: Digest): Result<Recorded, Error> {
    var key := KeyOf(c);
    if key in r.store.rows then
      if r.store.rows[key].bar != c then Err(ConflictingCandle)
      else if available < r.store.rows[key].available then Err(Backdated)
      else Ok(r.(store := r.store.(links := r.store.links + {(key, digest)})))
    else
      Ok(Recorded(r.store.(rows := r.store.rows[key := Row(c, available)], links := r.store.links + {(key, digest)}),
                  r.inserted + 1))
  }

  function RowsAdded(r: Recorded, bars: seq<Bar>, available: int, digest: Digest): Result<Recorded, Error>
    decreases |bars|
  {
    if bars == [] then Ok(r)
    else
      var n := |bars| - 1;
      var before := RowsAdded(r, bars[..n], available, digest);
      if before.Err? then before else RowAdded(before.value, bars[n], available, digest)
  }

  function RawAdded(raw: map<Digest, int>, digest: Digest, available: int): map<Digest, int> {
    if digest in raw then raw else raw[digest := available]
  }

  /** `record`: all of the batch, or an error and nothing of it. */
  function Record(st: Store, b: Batch): Result<Recorded, Error> {
    if b.source == "" then Err(SourceRequired)
    else
      var bars := Ordered(b.bars);
      if bars.Err? then Err(bars.error)
      else if exists k :: 0 <= k < |bars.value| && bars.value[k].closedAt > b.available then Err(NotYetClosed)
      else
        var digest := Digest(b.source, b.payload);
        RowsAdded(Recorded(st.(raw := RawAdded(st.raw, digest, b.available)), 0), bars.value, b.available, digest)
  }

  function AfterRecord(st: Store, b: Batch): Store {
    var r := Record(st, b);
    if r.Ok? then r.value.store else st
  }

  function Run(st: Store, batches: seq<Batch>): Store
    decreases |batches|
  {
    if batches == [] then st else Run(AfterRecord(st, batches[0]), batches[1..])
  }

  // ---------------------------------------------------------------- queries

  predicate Visible(rows: map<RowKey, Row>, key: RowKey, end: int, cutoff: int) {
    && key in rows
    && rows[key].bar.closedAt <= end && rows[key].bar.closedAt <= cutoff && rows[key].available <= cutoff
  }

  /** The rows a query selects, opened in [lo, hi), in order of opening. */
  function Selected(rows: map<RowKey, Row>, instrument: Instrument, interval: int, lo: int, hi: int, end: int,
      cutoff: int): seq<Bar>
    decreases hi - lo
  {
    if hi <= lo then []
    else
      var key := RowKey(instrument, interval, hi - 1);
      Selected(rows, instrument, interval, lo, hi - 1, end, cutoff) + if Visible(rows, key, end, cutoff) then [rows[key].bar] else []
  }

  /** `candles`: completed bars opened in [start, end), closed and available by the cutoff. */
  function Query(st: Store, instrument: Instrument, interval: int, start: int, end: int, cutoff: int): seq<Bar> {
    Selected(st.rows, instrument, interval, start, end, end, cutoff)
  }

  // ---------------------------------------------------------------- invariant

  /** Rows sit under their own key, and no bar is available before it closed; links point to
      stored rows and stored raw batches. */
  ghost predicate Valid(st: Store) {
    && (forall k :: k in st.rows ==> KeyOf(st.rows[k].bar) == k && st.rows[k].bar.closedAt <= st.rows[k].available)
    && (forall l :: l in st.links ==> l.0 in st.rows && l.1 in st.raw)
  }

  /** What recording may do to the rows: keep every row as it is and add rows that became
      available no earlier than `from`. */
  ghost predicate Grows(before: map<RowKey, Row>, after: map<RowKey, Row>, from: int) {
    && (forall k :: k in before ==> k in after && after[k] == before[k])
    && (forall k :: k in after && k !in before ==> after[k].available >= from)
  }

  lemma {:induction false} RowsAddedKeep(r: Recorded, bars: seq<Bar>, available: int, digest: Digest)
    requires Valid(r.store) && digest in r.store.raw && RowsAdded(r, bars, available, digest).Ok?
    requires forall k :: 0 <= k < |bars| ==> bars[k].closedAt <= available
    ensures
      var after := RowsAdded(r, bars, available, digest).value;
      && Valid(after.store) && after.store.raw == r.store.raw
      && Grows(r.store.rows, after.store.rows, available)
      && (forall k :: k in after.store.rows && k !in r.store.rows ==>
            after.store.rows[k].available == available && after.store.rows[k].bar in bars)
    decreases |bars|
  {
    hide Valid, RowAdded;
    if bars != [] {
      var n := |bars| - 1;
      RowsAddedKeep(r, bars[..n], available, digest);
      RowAddedKeeps(RowsAdded(r, bars[..n], available, digest).value, bars[n], available, digest);
      assert bars[n] in bars;
    }
  }

  lemma RowAddedKeeps(r: Recorded, c: Bar, available: int, digest: Digest)
    requires Valid(r.store) && digest in r.store.raw && RowAdded(r, c, available, digest).Ok? && c.closedAt <= available
    ensures
      var after := RowAdded(r, c, available, digest).value;
      && Valid(after.store) && after.store.raw == r.store.raw
      && (after.store.rows == r.store.rows
          || (KeyOf(c) !in r.store.rows && after.store.rows == r.store.rows[KeyOf(c) := Row(c, available)]))
  {
    hide KeyOf;
  }

  /** Every row added is linked to the batch, nothing else is, and none is added exactly when the
      count of insertions says so. */
  lemma {:induction false} RowsAddedLink(r: Recorded, bars: seq<Bar>, available: int, digest: Digest)
    requires RowsAdded(r, bars, available, digest).Ok?
    ensures
      var after := RowsAdded(r, bars, available, digest).value;
      && r.store.rows.Keys <= after.store.rows.Keys && r.store.links <= after.store.links && r.inserted <= after.inserted
      && (forall k :: k in after.store.rows && k !in r.store.rows ==> (k, digest) in after.store.links)
      && (forall k, d :: (k, d) in after.store.links ==> (k, d) in r.store.links || d == digest)
      && (after.inserted == r.inserted <==> after.store.rows == r.store.rows)
    decreases |bars|
  {
    hide KeyOf;
    if bars != [] {
      var n := |bars| - 1;
      RowsAddedLink(r, bars[..n], available, digest);
      var before := RowsAdded(r, bars[..n], available, digest).value;
      var after := RowsAdded(r, bars, available, digest).value;
      var key := KeyOf(bars[n]);
      if key !in before.store.rows {
        assert key in after.store.rows && key !in r.store.rows;
      }
    }
  }

  /** A recording keeps the store valid, changes no stored row, and adds only bars of its own
      batch with the batch's availability. */
  lemma RecordKeeps(st: Store, b: Batch)
    requires Valid(st)
    ensures Valid(AfterRecord(st, b)) && Grows(st.rows, AfterRecord(st, b).rows, b.available)
    ensures forall k :: k in AfterRecord(st, b).rows && k !in st.rows ==>
                          AfterRecord(st, b).rows[k].available == b.available && AfterRecord(st, b).rows[k].bar in b.bars
  {
    hide Ordered, RowsAdded;
    if Record(st, b).Ok? {
      var digest := Digest(b.source, b.payload);
      var bars := Ordered(b.bars).value;
      RowsAddedKeep(Recorded(st.(raw := RawAdded(st.raw, digest, b.available)), 0), bars, b.available, digest);
      OrderedCovers(b.bars);
    }
  }

  lemma {:induction false} RunKeeps(st: Store, batches: seq<Batch>, from: int)
    requires Valid(st) && forall k :: 0 <= k < |batches| ==> from <= batches[k].available
    ensures Valid(Run(st, batches)) && Grows(st.rows, Run(st, batches).rows, from)
    ensures forall k :: k in Run(st, batches).rows && k !in st.rows ==> FromRun(Run(st, batches).rows[k], batches)
    decreases |batches|
  {
    hide AfterRecord, Valid;
    if batches != [] {
      RecordKeeps(st, batches[0]);
      var next, rest := AfterRecord(st, batches[0]), batches[1..];
      RunKeeps(next, rest, from);
      var last := Run(next, rest);
      forall k | k in last.rows && k !in st.rows ensures FromRun(last.rows[k], batches) {
        if k in next.rows {
          assert last.rows[k] == next.rows[k] && next.rows[k].bar in batches[0].bars;
        } else {
          var j :| 0 <= j < |rest| && last.rows[k].available == rest[j].available && last.rows[k].bar in rest[j].bars;
          assert rest[j] == batches[j + 1];
        }
      }
    }
  }

  /** The row is a bar of one of the batches, with that batch's availability. */
  ghost predicate FromRun(row: Row, batches: seq<Batch>) {
    exists j :: 0 <= j < |batches| && row.available == batches[j].available && row.bar in batches[j].bars
  }

  // ---------------------------------------------------------------- what queries return

  /** Exactly the visible rows of the range. */
  lemma {:induction false} SelectedExactly(rows: map<RowKey, Row>, instrument: Instrument, interval: int, lo: int,
      hi: int, end: int, cutoff: int, b: Bar)
    requires forall k :: k in rows ==> KeyOf(rows[k].bar) == k
    ensures b in Selected(rows, instrument, interval, lo, hi, end, cutoff) <==>
              (var key := RowKey(instrument, interval, b.openedAt);
               lo <= b.openedAt < hi && Visible(rows, key, end, cutoff) && rows[key].bar == b)
    decreases hi - lo
  {
    if lo < hi {
      SelectedExactly(rows, instrument, interval, lo, hi - 1, end, cutoff, b);
      var key := RowKey(instrument, interval, hi - 1);
      if Visible(rows, key, end, cutoff) {
        assert KeyOf(rows[key].bar) == key;
      }
    }
  }

  ghost predicate InOrder(bars: seq<Bar>) {
    forall i, j :: 0 <= i < j < |bars| ==> bars[i].openedAt < bars[j].openedAt
  }

  lemma {:induction false} SelectedInOrder(rows: map<RowKey, Row>, instrument: Instrument, interval: int, lo: int,
      hi: int, end: int, cutoff: int)
    requires forall k :: k in rows ==> KeyOf(rows[k].bar) == k
    ensures InOrder(Selected(rows, instrument, interval, lo, hi, end, cutoff))
    decreases hi - lo
  {
    if lo < hi {
      SelectedInOrder(rows, instrument, interval, lo, hi - 1, end, cutoff);
      var before := Selected(rows, instrument, interval, lo, hi - 1, end, cutoff);
      forall i | 0 <= i < |before| ensures before[i].openedAt < hi - 1 {
        SelectedExactly(rows, instrument, interval, lo, hi - 1, end, cutoff, before[i]);
      }
    }
  }

  lemma {:induction false} SelectedUnchanged(before: map<RowKey, Row>, after: map<RowKey, Row>, from: int,
      instrument: Instrument, interval: int, lo: int, hi: int, end: int, cutoff: int)
    requires Grows(before, after, from) && cutoff < from
    ensures Selected(after, instrument, interval, lo, hi, end, cutoff) == Selected(before, instrument, interval, lo, hi, end, cutoff)
    decreases hi - lo
  {
    if lo < hi {
      SelectedUnchanged(before, after, from, instrument, interval, lo, hi - 1, end, cutoff);
    }
  }

  /** Point-in-time stability: no run of recordings, accepted or rejected, changes what any query
      answers as of an earlier instant than all their availabilities. */
  lemma PastQueriesStable(st: Store, batches: seq<Batch>, instrument: Instrument, interval: int, start: int, end: int,
      cutoff: int)
    requires Valid(st) && forall k :: 0 <= k < |batches| ==> cutoff < batches[k].available
    ensures Query(Run(st, batches), instrument, interval, start, end, cutoff) == Query(st, instrument, interval, start, end, cutoff)
  {
    RunKeeps(st, batches, cutoff + 1);
    SelectedUnchanged(st.rows, Run(st, batches).rows, cutoff + 1, instrument, interval, start, end, end, cutoff);
  }

  /** As of any instant, a run only adds bars: the earlier answer survives in order, and each
      further bar belongs to a batch of the run that was available by then. */
  lemma QueriesOnlyGrow(st: Store, batches: seq<Batch>, instrument: Instrument, interval: int, start: int, end: int,
      cutoff: int, b: Bar)
    requires Valid(st)
    ensures
      var before := Query(st, instrument, interval, start, end, cutoff);
      var after := Query(Run(st, batches), instrument, interval, start, end, cutoff);
      && InOrder(before) && InOrder(after)
      && (b in before ==> b in after)
      && (b in after && b !in before ==>
            exists j :: 0 <= j < |batches| && batches[j].available <= cutoff && b in batches[j].bars)
  {
    hide Run, Selected;
    var from := Earliest(batches);
    RunKeeps(st, batches, from);
    var last := Run(st, batches);
    SelectedInOrder(st.rows, instrument, interval, start, end, end, cutoff);
    SelectedInOrder(last.rows, instrument, interval, start, end, end, cutoff);
    SelectedExactly(st.rows, instrument, interval, start, end, end, cutoff, b);
    SelectedExactly(last.rows, instrument, interval, start, end, end, cutoff, b);
    var key := RowKey(instrument, interval, b.openedAt);
    if b in Query(last, instrument, interval, start, end, cutoff) && b !in Query(st, instrument, interval, start, end, cutoff) {
      assert key !in st.rows;
      assert FromRun(last.rows[key], batches);
    }
  }

  function Earliest(batches: seq<Batch>): (from: int)
    ensures forall k :: 0 <= k < |batches| ==> from <= batches[k].available
  {
    if batches == [] then 0
    else
      var n := |batches| - 1;
      var before := Earliest(batches[..n]);
      if before <= batches[n].available then before else batches[n].available
  }

  /** A stored bar of the series, opened inside the range, and closed and published by the cutoff. */
  ghost predicate Readable(st: Store, instrument: Instrument, interval: int, start: int, end: int, cutoff: int, b: Bar) {
    && b.instrument == instrument && b.closedAt - b.openedAt == interval
    && start <= b.openedAt && b.closedAt <= end && b.closedAt <= cutoff
    && KeyOf(b) in st.rows && st.rows[KeyOf(b)].bar == b && st.rows[KeyOf(b)].available <= cutoff
  }

  /** A query returns exactly the readable bars: nothing unfinished or unpublished at the cutoff. */
  lemma NoHindsight(st: Store, instrument: Instrument, interval: int, start: int, end: int, cutoff: int, b: Bar)
    requires Valid(st)
    ensures b in Query(st, instrument, interval, start, end, cutoff) <==> Readable(st, instrument, interval, start, end, cutoff, b)
  {
    SelectedExactly(st.rows, instrument, interval, start, end, end, cutoff, b);
  }

  // ---------------------------------------------------------------- provenance

  function DigestsFor(st: Store, key: RowKey, cutoff: int): set<Digest> {
    set l | l in st.links && l.0 == key && l.1 in st.raw && st.raw[l.1] <= cutoff :: l.1
  }

  /** `provenance`: the raw batches behind the given bars, or why they cannot be trusted. */
  function Provenance(st: Store, bars: seq<Bar>, cutoff: int): Result<set<Digest>, Error> {
    if bars == [] then Ok({})
    else
      var n := |bars| - 1;
      var before := Provenance(st, bars[..n], cutoff);
      if before.Err? then before
      else
        var key := KeyOf(bars[n]);
        if key !in st.rows || st.rows[key].available > cutoff || bars[n].closedAt > cutoff then Err(NotAvailable)
        else if !Same(st.rows[key].bar, bars[n]) then Err(DiffersFromStored)
        else if DigestsFor(st, key, cutoff) == {} then Err(MissingProvenance)
        else Ok(before.value + DigestsFor(st, key, cutoff))
  }

  ghost predicate Backed(st: Store, k: RowKey)
    requires k in st.rows
  {
    exists d :: (k, d) in st.links && d in st.raw && st.raw[d] <= st.rows[k].available
  }

  /** Every row has a raw batch received no later than the row's own availability. */
  ghost predicate AllBacked(st: Store) {
    forall k :: k in st.rows ==> Backed(st, k)
  }

  /** When every row is backed, whatever a query returned resolves as of the same instant. */
  lemma {:induction false} QueriedBarsResolve(st: Store, bars: seq<Bar>, cutoff: int)
    requires Valid(st) && AllBacked(st)
    requires forall k :: 0 <= k < |bars| ==>
      bars[k].closedAt <= cutoff && KeyOf(bars[k]) in st.rows && st.rows[KeyOf(bars[k])].bar == bars[k]
      && st.rows[KeyOf(bars[k])].available <= cutoff
    ensures Provenance(st, bars, cutoff).Ok?
    decreases |bars|
  {
    if bars != [] {
      var n := |bars| - 1;
      QueriedBarsResolve(st, bars[..n], cutoff);
      var key := KeyOf(bars[n]);
      assert Backed(st, key);
      var d :| (key, d) in st.links && d in st.raw && st.raw[d] <= st.rows[key].available;
      assert d in DigestsFor(st, key, cutoff);
    }
  }

  lemma QueryResolves(st: Store, instrument: Instrument, interval: int, start: int, end: int, cutoff: int)
    requires Valid(st) && AllBacked(st)
    ensures Provenance(st, Query(st, instrument, interval, start, end, cutoff), cutoff).Ok?
  {
    hide Selected;
    var bars := Query(st, instrument, interval, start, end, cutoff);
    forall k | 0 <= k < |bars|
      ensures bars[k].closedAt <= cutoff && KeyOf(bars[k]) in st.rows && st.rows[KeyOf(bars[k])].bar == bars[k]
              && st.rows[KeyOf(bars[k])].available <= cutoff
    {
      NoHindsight(st, instrument, interval, start, end, cutoff, bars[k]);
    }
    QueriedBarsResolve(st, bars, cutoff);
  }

  /** Recording new rows keeps every row backed exactly when the same raw bytes were not already
      stored with a later receipt: a receipt time is never lowered. */
  lemma BackedIff(st: Store, b: Batch)
    requires Valid(st) && AllBacked(st) && Record(st, b).Ok? && Record(st, b).value.inserted > 0
    ensures
      var digest := Digest(b.source, b.payload);
      AllBacked(AfterRecord(st, b)) <==> (digest in st.raw ==> st.raw[digest] <= b.available)
  {
    hide Ordered, RowsAdded, Valid;
    var digest := Digest(b.source, b.payload);
    var start := Recorded(st.(raw := RawAdded(st.raw, digest, b.available)), 0);
    var bars := Ordered(b.bars).value;
    RawKeepsValid(st, digest, b.available);
    RowsAddedKeep(start, bars, b.available, digest);
    RowsAddedLink(start, bars, b.available, digest);
    var after := AfterRecord(st, b);
    forall k | k in st.rows ensures Backed(after, k) {
      assert Backed(st, k);
      var d :| (k, d) in st.links && d in st.raw && st.raw[d] <= st.rows[k].available;
      assert (k, d) in after.links && after.raw[d] == st.raw[d];
    }
    if digest in st.raw ==> st.raw[digest] <= b.available {
      forall k | k in after.rows && k !in st.rows ensures Backed(after, k) {
        assert (k, digest) in after.links;
      }
    } else {
      var k :| k in after.rows && k !in st.rows;
      NewRowLinks(st, k);
      assert !Backed(after, k);
    }
  }

  const LATE_BAR: Bar :=
    Candle(Instrument("NSE", "CASH", "EQ", "X"), 0, 1, Content(1.0, 1.0, 1.0, 1.0, None, None, "x"), "1.0")
  const LATE_RAW := Store(map[], map[Digest("x", []) := 10], {})
  const LATE_STORE := LATE_RAW.(rows := map[KeyOf(LATE_BAR) := Row(LATE_BAR, 5)], links := {(KeyOf(LATE_BAR), Digest("x", []))})

  lemma LateRaw()
    ensures AfterRecord(EMPTY, Batch([], 10, "x", [])) == LATE_RAW
  {
    hide KeyOf, SlotBefore, SameSlot;
  }

  lemma LateUnbacked()
    ensures AllBacked(LATE_RAW) && !AllBacked(LATE_STORE)
  {
    hide KeyOf;
    assert !Backed(LATE_STORE, KeyOf(LATE_BAR));
  }

  lemma LateRow()
    ensures AfterRecord(LATE_RAW, Batch([LATE_BAR], 5, "x", [])) == LATE_STORE
  {
    hide KeyOf, SlotBefore, SameSlot;
    assert [LATE_BAR][..0] == [];
    assert Ordered([LATE_BAR]) == Ok([LATE_BAR]);
    assert RowsAdded(Recorded(LATE_RAW, 0), [], 5, Digest("x", [])) == Ok(Recorded(LATE_RAW, 0));
  }

  lemma LateQuery()
    ensures Query(LATE_STORE, LATE_BAR.instrument, 1, 0, 1, 5) == [LATE_BAR]
  {
    assert Selected(LATE_STORE.rows, LATE_BAR.instrument, 1, 0, 0, 1, 5) == [];
  }

  lemma LateProvenance()
    ensures Provenance(LATE_STORE, [LATE_BAR], 5) == Err(MissingProvenance)
  {
    hide KeyOf;
    assert [LATE_BAR][..0] == [];
    assert Provenance(LATE_STORE, [], 5) == Ok({});
    assert DigestsFor(LATE_STORE, KeyOf(LATE_BAR), 5) == {};
  }

  /** A failing input: bytes first received at 10, with no bars, back a bar recorded from the same
      bytes at 5. The bar is then served as of 5 while its provenance is refused as missing. */
  lemma LateReceiptUnbacked()
    ensures
      var first := AfterRecord(EMPTY, Batch([], 10, "x", []));
      var later := AfterRecord(first, Batch([LATE_BAR], 5, "x", []));
      && AllBacked(first) && !AllBacked(later)
      && Query(later, LATE_BAR.instrument, 1, 0, 1, 5) == [LATE_BAR] && Provenance(later, [LATE_BAR], 5) == Err(MissingProvenance)
  {
    hide *;
    LateRaw();
    LateRow();
    LateQuery();
    LateProvenance();
    LateUnbacked();
  }

  lemma RawKeepsValid(st: Store, digest: Digest, available: int)
    requires Valid(st)
    ensures Valid(st.(raw := RawAdded(st.raw, digest, available)))
  {
  }

  lemma NewRowLinks(st: Store, k: RowKey)
    requires Valid(st) && k !in st.rows
    ensures forall l :: l in st.links ==> l.0 != k
  {
  }

  // ---------------------------------------------------------------- the database

  class HistoricalStore {
    var rows: map<RowKey, Row>
    var raw: map<Digest, int>
    var links: set<(RowKey, Digest)>

    ghost function Model(): Store
      reads this
    {
      Store(rows, raw, links)
    }

    constructor ()
      ensures Model() == EMPTY
    {
      rows, raw, links := map[], map[], {};
    }

    /** Insert a batch row by row; an error restores what was there. */
    method Write(batch: Batch) returns (r: Result<nat, Error>)
      requires Valid(Model())
      modifies this
      ensures Valid(Model()) && Model() == AfterRecord(old(Model()), batch)
      ensures match Record(old(Model()), batch)
              case Ok(done) => r == Ok(done.inserted)
              case Err(e) => r == Err(e)
    {
      RecordKeeps(Model(), batch);
      hide Valid, Ordered, RowsAdded;
      if batch.source == "" {
        return Err(SourceRequired);
      }
      var bars := OrderCandles(batch.bars);
      if bars.Err? {
        return Err(bars.error);
      }
      if exists k :: 0 <= k < |bars.value| && bars.value[k].closedAt > batch.available {
        return Err(NotYetClosed);
      }
      var digest := Digest(batch.source, batch.payload);
      var rowsBefore, rawBefore, linksBefore := rows, raw, links;
      if digest !in raw {
        raw := raw[digest := batch.available];
      }
      r := Insert(bars.value, batch.available, digest);
      if r.Err? {
        rows, raw, links := rowsBefore, rawBefore, linksBefore;
      }
    }

    /** The insertion loop inside the transaction. */
    method Insert(bars: seq<Bar>, available: int, digest: Digest) returns (r: Result<nat, Error>)
      modifies this
      ensures match RowsAdded(Recorded(old(Model()), 0), bars, available, digest)
              case Ok(done) => r == Ok(done.inserted) && Model() == done.store
              case Err(e) => r == Err(e)
    {
      var inserted := 0;
      ghost var started := Recorded(Model(), 0);
      for k := 0 to |bars|
        invariant RowsAdded(started, bars[..k], available, digest) == Ok(Recorded(Model(), inserted))
      {
        assert bars[..k + 1][..k] == bars[..k];
        var candle := bars[k];
        var key := KeyOf(candle);
        if key in rows {
          if rows[key].bar != candle {
            FailureStays(started, bars, k + 1, available, digest);
            return Err(ConflictingCandle);
          }
          if available < rows[key].available {
            FailureStays(started, bars, k + 1, available, digest);
            return Err(Backdated);
          }
        } else {
          rows := rows[key := Row(candle, available)];
          inserted := inserted + 1;
        }
        links := links + {(key, digest)};
      }
      assert bars[..|bars|] == bars;
      r := Ok(inserted);
    }

    /** The point-in-time read: the stored bars of this instrument and interval that opened in the
        range and were closed and available by the cutoff, all of them, once each, oldest first. */
    method Candles(instrument: Instrument, interval: int, start: int, end: int, cutoff: int) returns (r: Result<seq<Bar>, Error>)
      requires Valid(Model())
      ensures interval <= 0 ==> r == Err(TimeframeNotPositive)
      ensures interval > 0 && start >= end ==> r == Err(RangeNotOrdered)
      ensures interval > 0 && start < end ==>
                && r == Ok(Query(Model(), instrument, interval, start, end, cutoff)) && InOrder(r.value)
                && forall b :: b in r.value <==> Readable(Model(), instrument, interval, start, end, cutoff, b)
    {
      hide Selected, InOrder, Readable;
      if interval <= 0 {
        return Err(TimeframeNotPositive);
      }
      if start >= end {
        return Err(RangeNotOrdered);
      }
      r := Ok(Selected(rows, instrument, interval, start, end, end, cutoff));
      SelectedInOrder(rows, instrument, interval, start, end, end, cutoff);
      forall b ensures b in r.value <==> Readable(Model(), instrument, interval, start, end, cutoff, b) {
        NoHindsight(Model(), instrument, interval, start, end, cutoff, b);
      }
    }
  }

  lemma {:induction false} FailureStays(r: Recorded, bars: seq<Bar>, k: nat, available: int, digest: Digest)
    requires k <= |bars| && RowsAdded(r, bars[..k], available, digest).Err?
    ensures RowsAdded(r, bars, available, digest) == RowsAdded(r, bars[..k], available, digest)
    decreases |bars| - k
  {
    if k == |bars| {
      assert bars[..k] == bars;
    } else {
      assert bars[..k + 1][..k] == bars[..k];
      FailureStays(r, bars, k + 1, available, digest);
    }
  }
}
