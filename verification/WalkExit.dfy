/** The offline reconstruction of an exit path from recorded quotes (`walk_exit` in
    `options_evidence_gates.py`), and its agreement with the live desk. */
module WalkExit {
  import opened Common
  import opened Rounding
  import opened OptionsRisk
  import opened DeskSession

  /** One recorded candidate of the market tape. */
  datatype Observation = Observation(at: int, contract: Contract, quote: Quote, underlying: Option<Sample>)

  datatype WalkFill = WalkFill(reason: ExitReason, price: real, quantity: int, at: int, stamp: int)

  datatype GapReason = OutsideMarketWindow | StaleQuote | IdentityMismatch | NonPositivePrice | PartialLiquidity

  datatype Gap = Gap(at: int, reason: GapReason)

  /** A finished walk; it closed the position exactly when nothing is left. */
  datatype Walk = Walk(fills: seq<WalkFill>, gaps: seq<Gap>, residual: int)

  // ---------------------------------------------------------------- the rows walked

  /** `quotes`: the position's own symbol, recorded within two days of the entry, with a quote
      that is fresh when recorded and no older than the entry. */
  predicate Selected(p: Position, o: Observation) {
    && o.contract.symbol == p.contract.symbol
    && p.enteredAt <= o.at <= p.enteredAt + 2 * DAY
    && 0 <= o.at - o.quote.stamp <= 90 * SECOND
    && p.enteredAt <= o.quote.stamp
  }

  function Filtered(p: Position, tape: seq<Observation>): seq<Observation> {
    if tape == [] then []
    else (if Selected(p, tape[0]) then [tape[0]] else []) + Filtered(p, tape[1..])
  }

  /** Stable insertion by recording time. */
  function Insert(o: Observation, rows: seq<Observation>): seq<Observation> {
    if rows == [] || o.at <= rows[0].at then [o] + rows else [rows[0]] + Insert(o, rows[1..])
  }

  function SortByTime(rows: seq<Observation>): seq<Observation> {
    if rows == [] then [] else Insert(rows[0], SortByTime(rows[1..]))
  }

  function QuoteRows(p: Position, tape: seq<Observation>): seq<Observation> {
    SortByTime(Filtered(p, tape))
  }

  ghost predicate Chronological(rows: seq<Observation>) {
    forall i, j :: 0 <= i < j < |rows| ==> rows[i].at <= rows[j].at
  }

  ghost predicate AllSelected(p: Position, rows: seq<Observation>) {
    forall i :: 0 <= i < |rows| ==> Selected(p, rows[i])
  }

  lemma InsertKeepsOrder(p: Position, o: Observation, rows: seq<Observation>)
    requires Chronological(rows) && AllSelected(p, rows) && Selected(p, o)
    ensures Chronological(Insert(o, rows)) && AllSelected(p, Insert(o, rows))
    ensures multiset(Insert(o, rows)) == multiset(rows) + multiset{o}
  {
    hide Selected;
    if rows != [] && o.at > rows[0].at {
      InsertKeepsOrder(p, o, rows[1..]);
      var rest := Insert(o, rows[1..]);
      assert rows == [rows[0]] + rows[1..];
      forall i | 0 <= i < |rest| ensures rows[0].at <= rest[i].at {
        assert rest[i] in multiset(rest);
        assert rest[i] in multiset(rows[1..]) + multiset{o};
      }
    }
  }

  /** The rows walked are the selected observations, all of them, in recording order. */
  lemma QuoteRowsOrdered(p: Position, tape: seq<Observation>)
    ensures Chronological(QuoteRows(p, tape)) && AllSelected(p, QuoteRows(p, tape))
    ensures multiset(QuoteRows(p, tape)) == multiset(Filtered(p, tape))
  {
    FilteredSelected(p, tape);
    SortOrders(p, Filtered(p, tape));
  }

  lemma FilteredSelected(p: Position, tape: seq<Observation>)
    ensures AllSelected(p, Filtered(p, tape))
  {
  }

  lemma SortOrders(p: Position, rows: seq<Observation>)
    requires AllSelected(p, rows)
    ensures Chronological(SortByTime(rows)) && AllSelected(p, SortByTime(rows))
    ensures multiset(SortByTime(rows)) == multiset(rows)
  {
    hide Selected, Insert;
    if rows != [] {
      SortOrders(p, rows[1..]);
      InsertKeepsOrder(p, rows[0], SortByTime(rows[1..]));
      assert rows == [rows[0]] + rows[1..];
    }
  }

  // ---------------------------------------------------------------- one row

  predicate SameContract(a: Contract, b: Contract) {
    a.expiry == b.expiry && a.lot == b.lot && a.tick == b.tick && a.kind == b.kind && a.strike == b.strike
  }

  /** `_exit_reason`. The trading day is missing from positions the desk itself recorded. */
  function WalkReason(p: Position, day: Option<int>, price: real, underlying: Option<Sample>, now: int): Option<ExitReason> {
    if (day.Some? && day.value != DateOf(now)) || TimeOfDay(now) >= 15 * HOUR + 15 * MINUTE
    then Some(SessionStop)
    else PositionReason(p, price, underlying, now)
  }

  datatype RowResult = Skipped | Gapped(reason: GapReason) | Filled(fill: WalkFill)

  function WalkRow(p: Position, last: Option<int>, day: Option<int>, cal: Calendar, o: Observation): RowResult {
    if !MarketWindow(cal, o.at) then Gapped(OutsideMarketWindow)
    else if !Fresh(Some(o.quote), o.at) then Gapped(StaleQuote)
    else if last == Some(o.quote.stamp) then Skipped
    else if !SameContract(p.contract, o.contract) then Gapped(IdentityMismatch)
    else
      var price := FillPrice(o.quote, p.contract, false);
      if price <= 0.0 then Gapped(NonPositivePrice)
      else
        var reason := WalkReason(p, day, price, o.underlying, o.at);
        if reason.None? then Skipped
        else if ExitQuantity(p, o.quote) <= 0 then Gapped(PartialLiquidity)
        else Filled(WalkFill(reason.value, price, ExitQuantity(p, o.quote), o.at, o.quote.stamp))
  }

  function AfterRow(p: Position, fill: WalkFill): Position {
    p.(quantity := p.quantity - fill.quantity, exitPending := Some(fill.reason))
  }

  /** The fills of a walk over rows in order. */
  function WalkFills(p: Position, last: Option<int>, day: Option<int>, cal: Calendar, rows: seq<Observation>): seq<WalkFill>
    decreases |rows|
  {
    if rows == [] || p.quantity <= 0 then []
    else
      var r := WalkRow(p, last, day, cal, rows[0]);
      if r.Filled?
      then [r.fill] + WalkFills(AfterRow(p, r.fill), Some(r.fill.stamp), day, cal, rows[1..])
      else WalkFills(p, last, day, cal, rows[1..])
  }

  /** The rows a walk passes over with a recorded reason. */
  function WalkGaps(p: Position, last: Option<int>, day: Option<int>, cal: Calendar, rows: seq<Observation>): seq<Gap>
    decreases |rows|
  {
    if rows == [] || p.quantity <= 0 then []
    else
      match WalkRow(p, last, day, cal, rows[0])
      case Filled(fill) => WalkGaps(AfterRow(p, fill), Some(fill.stamp), day, cal, rows[1..])
      case Gapped(reason) => [Gap(rows[0].at, reason)] + WalkGaps(p, last, day, cal, rows[1..])
      case Skipped => WalkGaps(p, last, day, cal, rows[1..])
  }

  function FilledQuantity(fills: seq<WalkFill>): int {
    if fills == [] then 0 else fills[0].quantity + FilledQuantity(fills[1..])
  }

  lemma FilledAppended(fills: seq<WalkFill>, f: WalkFill)
    ensures FilledQuantity(fills + [f]) == FilledQuantity(fills) + f.quantity
  {
    if fills != [] {
      assert (fills + [f])[1..] == fills[1..] + [f];
      FilledAppended(fills[1..], f);
    }
  }

  lemma FilledWholeLots(p: Position, last: Option<int>, day: Option<int>, cal: Calendar, o: Observation)
    ensures
      var r := WalkRow(p, last, day, cal, o);
      r.Filled? ==> 0 < r.fill.quantity <= p.quantity && r.fill.quantity % p.contract.lot == 0
  {
    hide FillPrice, WalkReason, MarketWindow;
  }

  lemma WalkStep(p: Position, last: Option<int>, day: Option<int>, cal: Calendar, rows: seq<Observation>, i: nat)
    requires i < |rows| && p.quantity > 0
    ensures
      var r, rest := WalkRow(p, last, day, cal, rows[i]), rows[i + 1..];
      && WalkFills(p, last, day, cal, rows[i..]) ==
           (if r.Filled? then [r.fill] + WalkFills(AfterRow(p, r.fill), Some(r.fill.stamp), day, cal, rest)
            else WalkFills(p, last, day, cal, rest))
      && WalkGaps(p, last, day, cal, rows[i..]) ==
           (match r
            case Filled(fill) => WalkGaps(AfterRow(p, fill), Some(fill.stamp), day, cal, rest)
            case Gapped(reason) => [Gap(rows[i].at, reason)] + WalkGaps(p, last, day, cal, rest)
            case Skipped => WalkGaps(p, last, day, cal, rest))
  {
    hide WalkRow;
    assert rows[i..][1..] == rows[i + 1..];
  }

  lemma WalkEnds(p: Position, last: Option<int>, day: Option<int>, cal: Calendar, rows: seq<Observation>)
    requires rows == [] || p.quantity <= 0
    ensures WalkFills(p, last, day, cal, rows) == [] && WalkGaps(p, last, day, cal, rows) == []
  {
  }

  /** `walk_exit` as written: one pass that stops when nothing is left. Its fills are those of
      `WalkFills`, and what they sold and the residual make up the position. */
  method ReconstructExit(p: Position, day: Option<int>, cal: Calendar, tape: seq<Observation>) returns (w: Walk)
    requires p.quantity > 0
    ensures w.fills == WalkFills(p, None, day, cal, QuoteRows(p, tape))
    ensures w.gaps == WalkGaps(p, None, day, cal, QuoteRows(p, tape))
    ensures w.residual >= 0 && w.residual + FilledQuantity(w.fills) == p.quantity
    ensures forall i :: 0 <= i < |w.fills| ==> w.fills[i].quantity > 0 && w.fills[i].quantity % p.contract.lot == 0
  {
    hide WalkRow, QuoteRows;
    var rows := QuoteRows(p, tape);
    var position, last := p, None;
    var fills: seq<WalkFill>, gaps: seq<Gap> := [], [];
    var i := 0;
    assert rows[0..] == rows;
    hide WalkFills, WalkGaps;
    while i < |rows| && position.quantity > 0
      invariant 0 <= i <= |rows|
      invariant position.quantity >= 0 && position.contract == p.contract
      invariant position.quantity + FilledQuantity(fills) == p.quantity
      invariant forall k :: 0 <= k < |fills| ==> fills[k].quantity > 0 && fills[k].quantity % p.contract.lot == 0
      invariant WalkFills(p, None, day, cal, rows) == fills + WalkFills(position, last, day, cal, rows[i..])
      invariant WalkGaps(p, None, day, cal, rows) == gaps + WalkGaps(position, last, day, cal, rows[i..])
    {
      var r := WalkRow(position, last, day, cal, rows[i]);
      WalkStep(position, last, day, cal, rows, i);
      FilledWholeLots(position, last, day, cal, rows[i]);
      if r.Filled? {
        FilledAppended(fills, r.fill);
        fills := fills + [r.fill];
        position := AfterRow(position, r.fill);
        last := Some(r.fill.stamp);
      } else if r.Gapped? {
        gaps := gaps + [Gap(rows[i].at, r.reason)];
      }
      i := i + 1;
    }
    WalkEnds(position, last, day, cal, rows[i..]);
    w := Walk(fills, gaps, position.quantity);
  }

  // ---------------------------------------------------------------- the desk over the same rows

  /** The desk's monitor transaction at one observation, worker enabled and no halt. */
  function DeskRow(s: Session, cal: Calendar, o: Observation): Closing {
    var seen := if s.position.Some? then Some(s.position.value.id) else None;
    Monitored(s, Env(o.at, cal, true, false), seen, Some(o.quote), o.underlying)
  }

  function AsWalkFill(f: Fill): WalkFill {
    WalkFill(f.reason, f.price, f.quantity, f.at, f.quote.stamp)
  }

  /** What the desk sells when its monitor sees these observations one after the other. */
  function DeskFills(s: Session, cal: Calendar, rows: seq<Observation>): seq<WalkFill>
    decreases |rows|
  {
    if rows == [] then []
    else
      var closing := DeskRow(s, cal, rows[0]);
      (if closing.fill.Some? then [AsWalkFill(closing.fill.value)] else []) + DeskFills(closing.session, cal, rows[1..])
  }

  /** The session's P&L limit never triggers along the way. */
  predicate NoLimit(s: Session, cal: Calendar, rows: seq<Observation>)
    decreases |rows|
  {
    rows == [] || (
      && (s.position.Some? ==>
            var p := s.position.value;
            !SessionLimitReached(s.limits, MarkedPnl(s, p, FillPrice(rows[0].quote, p.contract, false))))
      && NoLimit(DeskRow(s, cal, rows[0]).session, cal, rows[1..]))
  }

  /** What the walk cannot see: rows past expiry, and, when the position does not carry its trading
      day, rows of another day. */
  predicate Timely(p: Position, sessionDay: int, day: Option<int>, o: Observation) {
    && DateOf(o.at) <= p.contract.expiry
    && sessionDay <= DateOf(o.at)
    && (day == Some(sessionDay) || (day.None? && DateOf(o.at) == sessionDay))
  }

  predicate Comparable(p: Position, sessionDay: int, day: Option<int>, o: Observation) {
    SameContract(p.contract, o.contract) && Timely(p, sessionDay, day, o)
  }

  /** The rows of the contract as the position records it: the quotes the desk would have asked for. */
  function OwnRows(p: Position, rows: seq<Observation>): seq<Observation> {
    if rows == [] then []
    else (if SameContract(p.contract, rows[0].contract) then [rows[0]] else []) + OwnRows(p, rows[1..])
  }

  lemma {:induction false} OwnRowsAre(p: Position, rows: seq<Observation>)
    ensures forall o :: o in OwnRows(p, rows) <==> o in rows && SameContract(p.contract, o.contract)
    ensures Chronological(rows) ==> Chronological(OwnRows(p, rows))
  {
    hide SameContract;
    if rows != [] {
      OwnRowsAre(p, rows[1..]);
      assert rows == [rows[0]] + rows[1..];
      var rest := OwnRows(p, rows[1..]);
      forall i | 0 <= i < |rest| && Chronological(rows) ensures rows[0].at <= rest[i].at {
        assert rest[i] in rows[1..];
      }
    }
  }

  /** Rows of a changed contract are passed over with a gap and leave nothing else behind. */
  lemma {:induction false} WalkSkipsOthers(p: Position, last: Option<int>, day: Option<int>, cal: Calendar, rows: seq<Observation>)
    ensures WalkFills(p, last, day, cal, rows) == WalkFills(p, last, day, cal, OwnRows(p, rows))
    decreases |rows|
  {
    if rows == [] || p.quantity <= 0 {
      WalkEnds(p, last, day, cal, rows);
      WalkEnds(p, last, day, cal, OwnRows(p, rows));
    } else {
      var r, own := WalkRow(p, last, day, cal, rows[0]), OwnRows(p, rows);
      assert r.Filled? ==> SameContract(p.contract, rows[0].contract);
      hide WalkRow, SameContract, WalkFills;
      WalkStep(p, last, day, cal, rows, 0);
      assert rows[0..] == rows && own[0..] == own;
      if SameContract(p.contract, rows[0].contract) {
        assert own == [rows[0]] + OwnRows(p, rows[1..]);
        WalkStep(p, last, day, cal, own, 0);
        assert own[0 + 1..] == OwnRows(p, rows[1..]);
      }
      if r.Filled? {
        WalkSkipsOthers(AfterRow(p, r.fill), Some(r.fill.stamp), day, cal, rows[1..]);
        SameOwnRows(p, AfterRow(p, r.fill), rows[1..]);
      } else {
        WalkSkipsOthers(p, last, day, cal, rows[1..]);
      }
    }
  }

  lemma SameOwnRows(p: Position, q: Position, rows: seq<Observation>)
    requires p.contract == q.contract
    ensures OwnRows(p, rows) == OwnRows(q, rows)
  {
  }

  ghost predicate AllTimely(p: Position, sessionDay: int, day: Option<int>, rows: seq<Observation>) {
    forall i :: 0 <= i < |rows| ==> Timely(p, sessionDay, day, rows[i])
  }

  ghost predicate AllComparable(p: Position, sessionDay: int, day: Option<int>, rows: seq<Observation>) {
    forall i :: 0 <= i < |rows| ==> Comparable(p, sessionDay, day, rows[i])
  }

  /** The walk's position and the desk's differ only in what the walk does not track. */
  predicate SamePath(walk: Position, live: Position) {
    && walk.id == live.id && walk.contract == live.contract && walk.quantity == live.quantity
    && walk.stop == live.stop && walk.target == live.target && walk.enteredAt == live.enteredAt
    && walk.deadline == live.deadline && walk.plan == live.plan && walk.exitPending == live.exitPending
  }

  lemma EndOfDaySticks(day: int, before: int, after: int)
    requires EndOfDay(day, before) && day <= DateOf(before) && before <= after
    ensures EndOfDay(day, after)
  {
  }

  lemma FlatDeskSellsNothing(s: Session, cal: Calendar, rows: seq<Observation>)
    requires s.position.None?
    ensures DeskFills(s, cal, rows) == []
    decreases |rows|
  {
    if rows != [] {
      FlatDeskSellsNothing(DeskRow(s, cal, rows[0]).session, cal, rows[1..]);
    }
  }

  /** The state in which both stand before a row. */
  predicate InStep(s: Session, p: Position, last: Option<int>, now: int) {
    && s.position.Some? && SamePath(p, s.position.value) && s.position.value.lastExitQuote == last
    && p.quantity > 0
    && !s.state.Completed?
    && (s.state.Stopping? ==> EndOfDay(s.day, now))
  }

  /** One row: the desk and the walk sell the same, and stay in step or are both done. */
  lemma RowInStep(s: Session, p: Position, last: Option<int>, day: Option<int>, cal: Calendar, o: Observation)
    requires InStep(s, p, last, o.at) && Comparable(p, s.day, day, o)
    requires !SessionLimitReached(s.limits, MarkedPnl(s, s.position.value, FillPrice(o.quote, p.contract, false)))
    ensures
      var r, closing := WalkRow(p, last, day, cal, o), DeskRow(s, cal, o);
      && (r.Filled? <==> closing.fill.Some?)
      && closing.session.day == s.day
      && (r.Filled? ==> AsWalkFill(closing.fill.value) == r.fill && r.fill.stamp == o.quote.stamp)
      && (r.Filled? && r.fill.quantity == p.quantity ==> closing.session.position.None?)
      && (r.Filled? && r.fill.quantity != p.quantity ==>
            InStep(closing.session, AfterRow(p, r.fill), Some(r.fill.stamp), o.at))
      && (!r.Filled? ==> InStep(closing.session, p, last, o.at))
  {
    hide FillPrice, Proceeds, Quantize8, ExitBasis, MarketWindow, SessionLimitReached, MarkedPnl, UnderlyingExit, ExitQuantity;
    var live := s.position.value;
    assert ExitQuantity(live, o.quote) == ExitQuantity(p, o.quote) by {
      SameExitQuantity(p, live, o.quote);
    }
    var price := FillPrice(o.quote, p.contract, false);
    assert PositionReason(p, price, o.underlying, o.at) == PositionReason(live, price, o.underlying, o.at) by {
      SamePositionReason(p, live, price, o.underlying, o.at);
    }
    hide PositionReason;
  }

  lemma SameExitQuantity(p: Position, live: Position, quote: Quote)
    requires SamePath(p, live)
    ensures ExitQuantity(live, quote) == ExitQuantity(p, quote)
  {
  }

  lemma SamePositionReason(p: Position, live: Position, price: real, underlying: Option<Sample>, now: int)
    requires SamePath(p, live)
    ensures PositionReason(p, price, underlying, now) == PositionReason(live, price, underlying, now)
  {
  }

  lemma {:induction false} WalkFollowsDesk(s: Session, p: Position, last: Option<int>, day: Option<int>, cal: Calendar,
                                           rows: seq<Observation>, now: int)
    requires InStep(s, p, last, now) && s.day <= DateOf(now)
    requires Chronological(rows) && (forall i :: 0 <= i < |rows| ==> now <= rows[i].at)
    requires AllComparable(p, s.day, day, rows) && NoLimit(s, cal, rows)
    ensures WalkFills(p, last, day, cal, rows) == DeskFills(s, cal, rows)
    decreases |rows|
  {
    if rows != [] {
      var o := rows[0];
      if s.state.Stopping? {
        EndOfDaySticks(s.day, now, o.at);
      }
      RowInStep(s, p, last, day, cal, o);
      var r, closing := WalkRow(p, last, day, cal, o), DeskRow(s, cal, o);
      hide WalkRow, DeskRow, FillPrice, MarkedPnl, EndOfDay, DateOf;
      if r.Filled? && r.fill.quantity == p.quantity {
        FlatDeskSellsNothing(closing.session, cal, rows[1..]);
      } else if r.Filled? {
        WalkFollowsDesk(closing.session, AfterRow(p, r.fill), Some(r.fill.stamp), day, cal, rows[1..], o.at);
      } else {
        WalkFollowsDesk(closing.session, p, last, day, cal, rows[1..], o.at);
      }
    }
  }

  /** The reconstruction refines the desk. For a position as the desk opened it, and a tape whose
      rows of that contract are unexpired and of the session's day (or of any later day when the
      position records its day), the walk yields exactly the fills (reason, price, quantity, quote
      stamp) of the monitor run over those recorded quotes with the worker enabled, no halt and no
      session P&L limit, including partial fills and the exit reason a partial fill leaves pending.
      Rows on which the symbol names a changed contract make no difference. */
  lemma WalkRefinesDesk(s: Session, day: Option<int>, cal: Calendar, tape: seq<Observation>)
    requires s.state.Running? && s.position.Some? && s.position.value.quantity > 0
    requires s.position.value.lastExitQuote.None? && DateOf(s.position.value.enteredAt) == s.day
    requires
      var own := OwnRows(s.position.value, QuoteRows(s.position.value, tape));
      AllTimely(s.position.value, s.day, day, own) && NoLimit(s, cal, own)
    ensures WalkFills(s.position.value, None, day, cal, QuoteRows(s.position.value, tape))
      == DeskFills(s, cal, OwnRows(s.position.value, QuoteRows(s.position.value, tape)))
  {
    hide QuoteRows, OwnRows, WalkFills, DeskFills, Timely, SameContract, NoLimit;
    var p := s.position.value;
    var rows := QuoteRows(p, tape);
    var own := OwnRows(p, rows);
    QuoteRowsOrdered(p, tape);
    OwnRowsAre(p, rows);
    WalkSkipsOthers(p, None, day, cal, rows);
    forall i | 0 <= i < |own| ensures p.enteredAt <= own[i].at && Comparable(p, s.day, day, own[i]) {
      assert own[i] in rows;
    }
    WalkFollowsDesk(s, p, None, day, cal, own, p.enteredAt);
  }

  /** Where the reconstruction and the desk part: the ledger's positions do not carry their
      trading day, so on a later day the walk names a session stop only from 15:15, while the desk
      names it at once. The two reasons for a row agree exactly when the day is recorded, or the
      row is of the session's day, or it is past 15:15, or a session stop is already pending. */
  lemma ReasonsAgreeIff(s: Session, p: Position, day: Option<int>, price: real, underlying: Option<Sample>, now: int)
    requires s.state.Stopping? <==> EndOfDay(s.day, now)
    requires day.None? || day == Some(s.day)
    requires !SessionLimitReached(s.limits, MarkedPnl(s, p, price))
    ensures WalkReason(p, day, price, underlying, now) == MonitorReason(s, p, price, underlying, now)
      <==> || day.Some? || DateOf(now) == s.day || TimeOfDay(now) >= 15 * HOUR + 15 * MINUTE
           || p.exitPending == Some(SessionStop)
  {
    hide SessionLimitReached, MarkedPnl, UnderlyingExit;
  }
}
