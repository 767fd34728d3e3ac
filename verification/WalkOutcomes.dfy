/** Which recorded quotes the offline walk looks at, and what it makes of one (`_quote_rows` and
    `walk_exit` in `options_evidence_gates.py`). */
module WalkOutcomes {
  import opened Common
  import opened Rounding
  import opened OptionsRisk
  import opened DeskSession
  import opened DeskExits
  import opened WalkExit

  /** A row of the position's own symbol, recorded from the entry to two days after it, with a quote
      taken since the entry and at most 90 seconds old. */
  predicate Walked(p: Position, o: Observation) {
    && o.contract.symbol == p.contract.symbol && p.enteredAt <= o.at <= p.enteredAt + 172_800_000_000
    && p.enteredAt <= o.quote.stamp <= o.at <= o.quote.stamp + 90_000_000
  }

  /** The walk takes each such row of the tape as often as it was recorded, and no other. */
  lemma {:induction false} RowsWalked(p: Position, tape: seq<Observation>, o: Observation)
    ensures multiset(QuoteRows(p, tape))[o] == if Walked(p, o) then multiset(tape)[o] else 0
  {
    QuoteRowsOrdered(p, tape);
    FilteredCount(p, tape, o);
  }

  lemma {:induction false} FilteredCount(p: Position, tape: seq<Observation>, o: Observation)
    ensures multiset(Filtered(p, tape))[o] == if Walked(p, o) then multiset(tape)[o] else 0
  {
    WalkedIs(p, o);
    hide Selected, Walked;
    if tape != [] {
      FilteredCount(p, tape[1..], o);
      assert tape == [tape[0]] + tape[1..];
    }
  }

  lemma WalkedIs(p: Position, o: Observation)
    ensures Selected(p, o) <==> Walked(p, o)
  {
  }

  /** The walk's session stop: another trading day than the recorded one, or past 15:15. */
  predicate DayOver(day: Option<int>, now: int) {
    (day.Some? && day.value != DateOf(now)) || 915 * MINUTE <= TimeOfDay(now)
  }

  /** What one row comes to, in the order the walk asks: the market is closed, the quote is stale, it
      was sold on already, the contract changed, no price is left, nothing demands an exit, no lot is
      bid; otherwise a sale of the whole lots bid, at the slipped bid, for the first reason that
      applies. */
  lemma RowComesTo(p: Position, last: Option<int>, day: Option<int>, cal: DeskSession.Calendar, o: Observation)
    ensures
      var price := FillPrice(o.quote, p.contract, false);
      var open := DateOf(o.at) in cal && 570 * MINUTE <= TimeOfDay(o.at) < 930 * MINUTE;
      var current := o.quote.stamp <= o.at <= o.quote.stamp + 90_000_000;
      var same := o.contract.expiry == p.contract.expiry && o.contract.lot == p.contract.lot && o.contract.tick == p.contract.tick
                  && o.contract.kind == p.contract.kind && o.contract.strike == p.contract.strike;
      var r := WalkRow(p, last, day, cal, o);
      if !open then r == Gapped(OutsideMarketWindow)
      else if !current then r == Gapped(StaleQuote)
      else if last == Some(o.quote.stamp) then r == Skipped
      else if !same then r == Gapped(IdentityMismatch)
      else if price <= 0.0 then r == Gapped(NonPositivePrice)
      else if r == Skipped then !DayOver(day, o.at) && p.exitPending == None && Leaves(p, price, o.underlying, o.at, None)
      else
        && (DayOver(day, o.at) || p.exitPending.Some? || !Leaves(p, price, o.underlying, o.at, None))
        && (r == Gapped(PartialLiquidity) <==> p.quantity < p.contract.lot || o.quote.bidSize < p.contract.lot)
        && (r != Gapped(PartialLiquidity) ==>
              && r.Filled? && r.fill.price == price && r.fill.at == o.at && r.fill.stamp == o.quote.stamp
              && 0 < r.fill.quantity <= p.quantity && r.fill.quantity <= o.quote.bidSize && r.fill.quantity % p.contract.lot == 0
              && (p.quantity < r.fill.quantity + p.contract.lot || o.quote.bidSize < r.fill.quantity + p.contract.lot)
              && (if DayOver(day, o.at) then r.fill.reason == SessionStop
                  else if p.exitPending.Some? then p.exitPending == Some(r.fill.reason)
                  else Leaves(p, price, o.underlying, o.at, Some(r.fill.reason))))
  {
    hide FillPrice, ExitQuantity, Leaves, PositionReason;
    LotsAvailable(p, o.quote);
    var price := FillPrice(o.quote, p.contract, false);
    if p.exitPending.None? {
      FreeReason(p, price, o.underlying, o.at);
      OneReason(p, price, o.underlying, o.at, PositionReason(p, price, o.underlying, o.at));
    } else {
      PendingReason(p, price, o.underlying, o.at);
    }
  }

  /** Only one reason fits. */
  lemma OneReason(p: Position, price: real, sample: Option<Sample>, now: int, reason: Option<ExitReason>)
    requires Leaves(p, price, sample, now, reason)
    ensures Leaves(p, price, sample, now, None) <==> reason == None
  {
  }
}
