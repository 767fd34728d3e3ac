/** When the desk leaves a position, why, and in what order its reasons count: the monitor's
    decision (`_monitor` and `_close` in `banknifty.py`) stated on prices, times and limits. */
module DeskExits {
  import opened Common
  import opened Rounding
  import opened OptionsRisk
  import opened DeskSession

  // ---------------------------------------------------------------- the demands on an exit

  /** The session has to be flat: its day is over or it is past 15:15, the worker is switched off,
      trading is halted, or it was told to stop before. */
  predicate Flattening(s: Session, env: Env) {
    || s.state.Stopping? || s.day != DateOf(env.now) || TimeOfDay(env.now) >= 915 * MINUTE
    || !env.enabled || env.halted
  }

  /** Selling out at this price would leave the session at its loss limit, or at its profit limit
      when that caps it. */
  predicate LimitHit(s: Session, p: Position, price: real) {
    var pnl := s.cash + Proceeds(price, p.quantity as real) - s.limits.amount;
    || 100.0 * pnl <= -(s.limits.amount * s.limits.lossPct)
    || (s.limits.profitCap && 100.0 * pnl >= s.limits.amount * s.limits.profitPct)
  }

  /** A sample at most three minutes old, taken since the entry, has the underlying at the plan's
      level or on its losing side. */
  predicate Invalidated(p: Position, sample: Option<Sample>, now: int) {
    && sample.Some? && sample.value.at <= now <= sample.value.at + 180_000_000 && p.enteredAt <= sample.value.at
    && (p.plan.kind == CE ==> sample.value.spot <= p.plan.invalidation)
    && (p.plan.kind == PE ==> sample.value.spot >= p.plan.invalidation)
  }

  /** The quote can carry an exit: a verified market day between 9:30 and 15:30, a quote at most 90
      seconds old that was not sold on before, an unexpired contract, a whole lot on the bid, and a
      positive price. */
  predicate Sellable(p: Position, quote: Option<Quote>, env: Env, price: real) {
    && quote.Some? && quote.value.stamp <= env.now <= quote.value.stamp + 90_000_000
    && DateOf(env.now) in env.cal && 570 * MINUTE <= TimeOfDay(env.now) < 930 * MINUTE
    && p.lastExitQuote != Some(quote.value.stamp) && DateOf(env.now) <= p.contract.expiry
    && p.contract.lot <= p.quantity && p.contract.lot <= quote.value.bidSize && price > 0.0
  }

  lemma LotsAvailable(p: Position, quote: Quote)
    ensures ExitQuantity(p, quote) > 0 <==> p.contract.lot <= p.quantity && p.contract.lot <= quote.bidSize
    ensures ExitQuantity(p, quote) <= quote.bidSize
    ensures p.quantity < ExitQuantity(p, quote) + p.contract.lot || quote.bidSize < ExitQuantity(p, quote) + p.contract.lot
  {
    MostLots(MinInt(p.quantity, quote.bidSize), p.contract.lot);
    hide WholeLots;
  }

  lemma MostLots(units: int, lot: int)
    requires lot > 0
    ensures WholeLots(units, lot) > 0 <==> lot <= units
  {
    MulModZero(1, lot);
    WholeLotsGreatest(lot, units, lot);
  }

  lemma SellableIs(p: Position, quote: Option<Quote>, env: Env)
    ensures Closable(p, quote, env.now, env.cal)
      <==> Sellable(p, quote, env, if quote.Some? then FillPrice(quote.value, p.contract, false) else 0.0)
  {
    hide FillPrice, ExitQuantity;
    if quote.Some? {
      LotsAvailable(p, quote.value);
    }
  }

  lemma LimitIs(s: Session, p: Position, price: real)
    ensures SessionLimitReached(s.limits, MarkedPnl(s, p, price)) <==> LimitHit(s, p, price)
  {
    hide Proceeds;
    PercentOf(s.limits.amount, s.limits.lossPct, MarkedPnl(s, p, price));
    PercentOf(s.limits.amount, s.limits.profitPct, MarkedPnl(s, p, price));
  }

  lemma PercentOf(amount: real, percent: real, pnl: real)
    ensures pnl <= -amount * percent / 100.0 <==> 100.0 * pnl <= -(amount * percent)
    ensures pnl >= amount * percent / 100.0 <==> 100.0 * pnl >= amount * percent
  {
    assert -amount * percent == -(amount * percent);
  }

  // ---------------------------------------------------------------- the decision

  /** The reasons a free position leaves for, one a line, each only when none above applies. */
  predicate Leaves(p: Position, price: real, sample: Option<Sample>, now: int, reason: Option<ExitReason>) {
    && (reason == Some(StopLoss) <==> price <= p.stop)
    && (reason == Some(TakeProfit) <==> p.stop < price && p.target <= price)
    && (reason == Some(UnderlyingInvalidation) <==> p.stop < price < p.target && Invalidated(p, sample, now))
    && (reason == Some(PlaybookTimeExit) <==>
          p.stop < price < p.target && !Invalidated(p, sample, now) && p.deadline <= now)
    && (reason == None <==> p.stop < price < p.target && !Invalidated(p, sample, now) && now < p.deadline)
  }

  lemma FreeReason(p: Position, price: real, sample: Option<Sample>, now: int)
    requires p.exitPending.None?
    ensures Leaves(p, price, sample, now, PositionReason(p, price, sample, now))
  {
    InvalidatedIs(p, sample, now);
    hide UnderlyingExit, Invalidated;
  }

  lemma InvalidatedIs(p: Position, sample: Option<Sample>, now: int)
    ensures UnderlyingExit(p, sample, now) <==> Invalidated(p, sample, now)
  {
  }

  function ReasonOf(fill: Option<Fill>): Option<ExitReason> {
    if fill.Some? then Some(fill.value.reason) else None
  }

  /** The monitor sells exactly when the quote can carry an exit and a reason demands one. A session
      that has to be flat, or is at its limit, sells for a session stop; a reason that an earlier
      partial exit left pending comes next; then the stop, the target, the underlying and the time. */
  lemma MonitorSellsIff(s: Session, env: Env, quote: Option<Quote>, sample: Option<Sample>)
    requires !s.state.Completed? && s.position.Some?
    ensures
      var p := s.position.value;
      var price := if quote.Some? then FillPrice(quote.value, p.contract, false) else 0.0;
      var fill := Monitored(s, env, Some(p.id), quote, sample).fill;
      if !Sellable(p, quote, env, price) then fill.None?
      else if Flattening(s, env) || LimitHit(s, p, price) then ReasonOf(fill) == Some(SessionStop)
      else if p.exitPending.Some? then ReasonOf(fill) == p.exitPending
      else Leaves(p, price, sample, env.now, ReasonOf(fill))
  {
    hide FillPrice, Proceeds, MarkedPnl, Closable, Sellable, Leaves, PositionReason, SessionLimitReached, LimitHit, SettleFlat,
         AfterFill, UnderlyingExit;
    var p := s.position.value;
    SellableIs(p, quote, env);
    if quote.Some? {
      SellableFresh(p, quote, env);
      var price := FillPrice(quote.value, p.contract, false);
      LimitIs(s, p, price);
      StoppedSameMoney(s, p, price);
      if p.exitPending.None? {
        FreeReason(p, price, sample, env.now);
      } else {
        PendingReason(p, price, sample, env.now);
      }
    } else {
      NotSellable(p, env);
    }
  }

  lemma SellableFresh(p: Position, quote: Option<Quote>, env: Env)
    ensures Closable(p, quote, env.now, env.cal) ==> Fresh(quote, env.now)
  {
  }

  lemma NotSellable(p: Position, env: Env)
    ensures !Sellable(p, None, env, 0.0)
  {
  }

  lemma PendingReason(p: Position, price: real, sample: Option<Sample>, now: int)
    requires p.exitPending.Some?
    ensures PositionReason(p, price, sample, now) == p.exitPending
  {
  }

  lemma StoppedSameMoney(s: Session, p: Position, price: real)
    ensures MarkedPnl(s.(state := Stopping), p, price) == MarkedPnl(s, p, price)
  {
  }

  // ---------------------------------------------------------------- the session afterwards

  /** The part of the remaining cost that belongs to some of the units. */
  function Share(p: Position, quantity: int): real
    requires p.quantity != 0
  {
    p.costRemaining * quantity as real / p.quantity as real
  }

  /** A session that has to be flat is stopping, and completed once it is flat; no other is. */
  lemma MonitorStops(s: Session, env: Env, quote: Option<Quote>, sample: Option<Sample>)
    requires !s.state.Completed? && s.position.Some?
    ensures
      var after := Monitored(s, env, Some(s.position.value.id), quote, sample).session;
      && after.day == s.day && after.limits == s.limits && after.entries == s.entries && after.resumes == s.resumes
      && (after.state.Stopping? <==> Flattening(s, env) && after.position.Some?)
      && (after.state.Completed? <==> Flattening(s, env) && after.position.None?)
  {
    hide FillPrice, MarkedPnl, MonitorReason, Closable, FillFor, Proceeds, ExitBasis;
  }

  /** A position that is not sold keeps everything; while its quote is fresh the session shows what
      selling out would leave, and otherwise what it showed before. */
  lemma HeldKeeps(s: Session, env: Env, quote: Option<Quote>, sample: Option<Sample>)
    requires !s.state.Completed? && s.position.Some?
    requires Monitored(s, env, Some(s.position.value.id), quote, sample).fill.None?
    ensures
      var p := s.position.value;
      var after := Monitored(s, env, Some(p.id), quote, sample).session;
      && after.position == s.position && after.cash == s.cash && after.realized == s.realized && after.lastExit == s.lastExit
      && after.pnl == (if quote.Some? && 0 <= env.now - quote.value.stamp <= 90_000_000
                       then s.cash + Proceeds(FillPrice(quote.value, p.contract, false), p.quantity as real) - s.limits.amount
                       else s.pnl)
  {
    hide FillPrice, MonitorReason, Closable, FillFor, Proceeds, AfterFill;
  }

  /** A sale takes whole lots, as many as bid and position allow, at the slipped price. It closes the
      position when nothing is left; otherwise its reason stays pending on what remains. */
  lemma SaleLeaves(s: Session, env: Env, quote: Option<Quote>, sample: Option<Sample>)
    requires !s.state.Completed? && s.position.Some?
    requires Monitored(s, env, Some(s.position.value.id), quote, sample).fill.Some?
    ensures
      var p := s.position.value;
      var closing := Monitored(s, env, Some(p.id), quote, sample);
      var after, fill := closing.session, closing.fill.value;
      && quote.Some? && SoldOn(p, quote.value, env.now, fill)
      && after.cash == s.cash + Proceeds(fill.price, fill.quantity as real) && after.realized == s.realized + fill.pnl
      && fill.closed == (fill.quantity == p.quantity) == after.position.None?
      && (fill.closed ==> after.pnl == after.realized && after.lastExit == Some(env.now))
      && (!fill.closed ==>
            && after.lastExit == s.lastExit && p.quantity != 0
            && after.position == Some(p.(quantity := p.quantity - fill.quantity,
                                         costRemaining := p.costRemaining - Share(p, fill.quantity),
                                         lastExitQuote := Some(quote.value.stamp), exitPending := Some(fill.reason))))
  {
    hide FillPrice, Proceeds, MonitorReason, Quantize8, MarketWindow, ExitQuantity, ExitBasis, Share, SoldOn, MarkedPnl;
    var p := s.position.value;
    assert Closable(p, quote, env.now, env.cal);
    var fill := Monitored(s, env, Some(p.id), quote, sample).fill.value;
    SoldOnIs(p, quote.value, fill.reason, env.now);
    if ExitQuantity(p, quote.value) != p.quantity {
      BasisIsShare(p, ExitQuantity(p, quote.value));
    }
  }

  predicate SoldOn(p: Position, quote: Quote, now: int, fill: Fill) {
    && fill.quote == quote && fill.positionId == p.id && fill.at == now && fill.price == FillPrice(quote, p.contract, false)
    && 0 < fill.quantity <= p.quantity && fill.quantity <= quote.bidSize && fill.quantity % p.contract.lot == 0
    && (p.quantity < fill.quantity + p.contract.lot || quote.bidSize < fill.quantity + p.contract.lot)
  }

  lemma SoldOnIs(p: Position, quote: Quote, reason: ExitReason, now: int)
    requires ExitQuantity(p, quote) > 0
    ensures p.quantity != 0 && SoldOn(p, quote, now, FillFor(p, quote, reason, now))
  {
    hide FillPrice, Proceeds, Quantize8, ExitBasis;
    LotsAvailable(p, quote);
    hide ExitQuantity;
  }

  lemma BasisIsShare(p: Position, quantity: int)
    requires p.quantity != 0 && quantity != p.quantity
    ensures ExitBasis(p, quantity) == Share(p, quantity)
  {
  }

  /** A quote fetched for a position that is gone, or for none, sells nothing. */
  lemma OtherPositionHeld(s: Session, env: Env, seen: Option<nat>, quote: Option<Quote>, sample: Option<Sample>)
    requires s.position.None? || seen != Some(s.position.value.id)
    ensures
      var closing := Monitored(s, env, seen, quote, sample);
      && closing.fill.None? && closing.session.position == s.position
      && closing.session.cash == s.cash && closing.session.realized == s.realized
      && (s.position.None? && !s.state.Completed? ==>
            closing.session.pnl == s.realized && (closing.session.state.Completed? <==> Flattening(s, env)))
  {
  }
}
