/** One paper session of the Bank Nifty desk: its state and what each locked transaction does
    to it (`_close`, `_monitor`, `_apply` and `settle_expired_position` in `banknifty.py`).
    The functions say what one transaction makes of the session; the `Desk` class performs them. */
module DeskSession {
  import opened Common
  import opened Rounding
  import opened OptionsRisk
  import opened OptionsSizing

  // ---------------------------------------------------------------- clock

  /** Days the exchange calendar verifies as regular sessions. */
  type Calendar = set<int>

  predicate MarketWindow(cal: Calendar, t: int) {
    DateOf(t) in cal && 9 * HOUR + 30 * MINUTE <= TimeOfDay(t) < 15 * HOUR + 30 * MINUTE
  }

  predicate EntryWindow(cal: Calendar, t: int) {
    DateOf(t) in cal && 9 * HOUR + 30 * MINUTE <= TimeOfDay(t) < 15 * HOUR
  }

  predicate Fresh(quote: Option<Quote>, now: int) {
    quote.Some? && 0 <= now - quote.value.stamp <= 90 * SECOND
  }

  // ---------------------------------------------------------------- state

  const ENTRY_CAP: int := 10
  const COOLDOWN: int := 300 * SECOND

  datatype SessionState = Running | Stopping | Completed

  datatype ExitReason = SessionStop | StopLoss | TakeProfit | UnderlyingInvalidation | PlaybookTimeExit

  /** An observation of the underlying. */
  datatype Sample = Sample(at: int, spot: real)

  /** The frozen entry plan, as far as execution reads it. `quantity` came out of `QuantityFor`
      when the plan was selected, so it is whole lots of its contract. */
  datatype Plan = Plan(kind: OptionKind, invalidation: real, quantity: int, maxFill: real, profile: Profile)

  datatype Position = Position(id: nat, contract: Listed, quantity: int, entry: real, costRemaining: real,
                               stop: real, target: real, enteredAt: int, deadline: int, plan: Plan,
                               exitPending: Option<ExitReason>, lastExitQuote: Option<int>)

  datatype Session = Session(day: int, limits: ApprovedLimits, cash: real, realized: real, pnl: real,
                             entries: int, resumes: int, position: Option<Position>, state: SessionState,
                             lastExit: Option<int>)

  function NewSession(day: int, limits: ApprovedLimits): Session {
    Session(day, limits, limits.amount, 0.0, 0.0, 0, 0, None, Running, None)
  }

  /** What the worker knows when it holds the lock. */
  datatype Env = Env(now: int, cal: Calendar, enabled: bool, halted: bool)

  // ---------------------------------------------------------------- closing

  /** One recorded paper exit. */
  datatype Fill = Fill(positionId: nat, quantity: int, price: real, reason: ExitReason, pnl: real,
                       quote: Quote, closed: bool, at: int)

  datatype Closing = Closing(session: Session, fill: Option<Fill>)

  /** Whole lots the displayed bid depth takes. */
  function ExitQuantity(p: Position, quote: Quote): (q: int)
    ensures q <= p.quantity && q % p.contract.lot == 0
  {
    WholeLots(MinInt(p.quantity, quote.bidSize), p.contract.lot)
  }

  /** Whether this position leaves on this quote now, were it to leave at all. */
  predicate Closable(p: Position, quote: Option<Quote>, now: int, cal: Calendar) {
    && MarketWindow(cal, now) && Fresh(quote, now)
    && DateOf(now) <= p.contract.expiry
    && p.lastExitQuote != Some(quote.value.stamp)
    && ExitQuantity(p, quote.value) > 0
    && FillPrice(quote.value, p.contract, false) > 0.0
  }

  /** The share of the remaining entry cost that `quantity` units carry away. */
  function ExitBasis(p: Position, quantity: int): real
    requires p.quantity != 0
  {
    if quantity == p.quantity then p.costRemaining else p.costRemaining * quantity as real / p.quantity as real
  }

  function FillFor(p: Position, quote: Quote, reason: ExitReason, now: int): Fill
    requires p.quantity != 0
  {
    var quantity := ExitQuantity(p, quote);
    var price := FillPrice(quote, p.contract, false);
    Fill(p.id, quantity, price, reason, Quantize8(Proceeds(price, quantity as real) - ExitBasis(p, quantity)),
         quote, quantity == p.quantity, now)
  }

  function AfterFill(s: Session, p: Position, fill: Fill): Session
    requires p.quantity != 0
  {
    var realized := s.realized + fill.pnl;
    var s := s.(cash := s.cash + Proceeds(fill.price, fill.quantity as real), realized := realized);
    var left := p.(quantity := p.quantity - fill.quantity,
                   costRemaining := p.costRemaining - ExitBasis(p, fill.quantity),
                   lastExitQuote := Some(fill.quote.stamp));
    if left.quantity == 0 then
      s.(position := None, lastExit := Some(fill.at), pnl := realized,
         state := if s.state.Stopping? then Completed else s.state)
    else
      s.(position := Some(left.(exitPending := Some(fill.reason))))
  }

  function Closed(s: Session, quote: Option<Quote>, reason: ExitReason, now: int, cal: Calendar): Closing {
    if s.position.None? || !Closable(s.position.value, quote, now, cal) then Closing(s, None)
    else
      var fill := FillFor(s.position.value, quote.value, reason, now);
      Closing(AfterFill(s, s.position.value, fill), Some(fill))
  }

  // ---------------------------------------------------------------- monitoring

  predicate UnderlyingExit(p: Position, underlying: Option<Sample>, now: int) {
    && underlying.Some?
    && 0 <= now - underlying.value.at <= 180 * SECOND
    && p.enteredAt <= underlying.value.at
    && (if p.plan.kind.CE? then underlying.value.spot <= p.plan.invalidation
        else underlying.value.spot >= p.plan.invalidation)
  }

  /** The exit rules below the session stop, in the desk's order. */
  function PositionReason(p: Position, price: real, underlying: Option<Sample>, now: int): Option<ExitReason> {
    if p.exitPending.Some? then p.exitPending
    else if price <= p.stop then Some(StopLoss)
    else if price >= p.target then Some(TakeProfit)
    else if UnderlyingExit(p, underlying, now) then Some(UnderlyingInvalidation)
    else if now >= p.deadline then Some(PlaybookTimeExit)
    else None
  }

  predicate EndOfDay(day: int, now: int) {
    day != DateOf(now) || TimeOfDay(now) >= 15 * HOUR + 15 * MINUTE
  }

  function MustStop(s: Session, env: Env): bool {
    EndOfDay(s.day, env.now) || !env.enabled || env.halted
  }

  /** Net P&L if the whole position left at this price. */
  function MarkedPnl(s: Session, p: Position, price: real): real {
    s.cash + Proceeds(price, p.quantity as real) - s.limits.amount
  }

  function SettleFlat(s: Session): Session {
    if s.position.Some? then s
    else s.(pnl := s.realized, state := if s.state.Stopping? then Completed else s.state)
  }

  function MonitorReason(s: Session, p: Position, price: real, underlying: Option<Sample>, now: int): Option<ExitReason> {
    if s.state.Stopping? || SessionLimitReached(s.limits, MarkedPnl(s, p, price)) then Some(SessionStop)
    else PositionReason(p, price, underlying, now)
  }

  /** The second, locked half of `_monitor`. `seen` is the position whose quote was fetched
      before the lock was taken. */
  function Monitored(s: Session, env: Env, seen: Option<nat>, quote: Option<Quote>, underlying: Option<Sample>): Closing {
    if s.state.Completed? then Closing(s, None)
    else
      var s := if MustStop(s, env) then s.(state := Stopping) else s;
      if s.position.Some? && seen == Some(s.position.value.id) && Fresh(quote, env.now) then
        var p := s.position.value;
        var price := FillPrice(quote.value, p.contract, false);
        var reason := MonitorReason(s, p, price, underlying, env.now);
        var s := s.(pnl := MarkedPnl(s, p, price));
        if reason.None? then Closing(SettleFlat(s), None)
        else
          var closing := Closed(s, quote, reason.value, env.now, env.cal);
          Closing(SettleFlat(closing.session), closing.fill)
      else
        Closing(SettleFlat(s), None)
  }

  function Stopped(s: Session): Session {
    if s.state.Completed? then s else s.(state := if s.position.Some? then Stopping else Completed)
  }

  // ---------------------------------------------------------------- entry

  /** What a call's recorded snapshot says about one BUY: the plan chosen from it, the
      plan's contract, the budget at scan time, and whether the checks that do not depend on the
      session's money pass (plan identity and expiry, playbook, calendar, underlying bounds). */
  datatype Snapshot = Snapshot(day: int, budget: Budget, contract: Listed, plan: Plan, spotAt: int, authority: bool)

  /** Everything else the entry transaction learns about a BUY. */
  datatype Purchase = Purchase(snapshot: Snapshot, quote: Option<Quote>, strategyNamed: bool, chartSetup: bool, calendarClear: bool)

  datatype EntryError = SessionBlocksEntry | Cooldown | StaleInputs | SessionLimit | ExpiryDay | NoChartSetup
                      | CalendarBlocked | PlanUnauthorized | QuoteRejected | NoLongerFits
                      | BadExitLevels(error: ExitError) | RewardShort

  const MAX_SPREAD: real := 0.02

  /** `quote_quality_failures` is empty. */
  predicate QuoteOk(quote: Quote, now: int) {
    && 0 <= now - quote.stamp <= 90 * SECOND
    && 0.0 < quote.bid <= quote.ask
    && (quote.ask - quote.bid) / quote.ask <= MAX_SPREAD
  }

  /** `validate_plan`: the exit levels of the plan on this quote under this budget, or why not. */
  function ValidatePlan(snapshot: Snapshot, limits: ApprovedLimits, cash: real, realized: real, quote: Quote, now: int)
    : Result<Levels, EntryError>
  {
    var plan, contract := snapshot.plan, snapshot.contract;
    if !snapshot.authority then Err(PlanUnauthorized)
    else if !QuoteOk(quote, now) then Err(QuoteRejected)
    else
      var fill := FillPrice(quote, contract, true);
      if fill > plan.maxFill then Err(QuoteRejected)
      else if plan.quantity <= 0 || plan.quantity > QuantityFor(Budget(limits, cash, realized), contract, quote)
      then Err(NoLongerFits)
      else
        var levels := ExitLevelsFor(limits, plan.profile, fill, plan.quantity, contract);
        if levels.Err? then Err(BadExitLevels(levels.error))
        else if levels.value.netReward <= 0.0 || levels.value.netRewardR < plan.profile.rewardR then Err(RewardShort)
        else Ok(levels.value)
  }

  function EntryRefusal(s: Session, request: Purchase, env: Env): Option<EntryError> {
    if s.position.Some? || !EntryWindow(env.cal, env.now) || env.halted || !env.enabled
       || s.entries >= ENTRY_CAP || !request.strategyNamed then Some(SessionBlocksEntry)
    else if s.lastExit.Some? && env.now - s.lastExit.value < COOLDOWN then Some(Cooldown)
    else if !Fresh(request.quote, env.now) || !(0 <= env.now - request.snapshot.spotAt <= 180 * SECOND)
    then Some(StaleInputs)
    else if SessionLimitReached(s.limits, s.realized) then Some(SessionLimit)
    else if request.snapshot.contract.expiry <= s.day then Some(ExpiryDay)
    else if !request.chartSetup then Some(NoChartSetup)
    else if !request.calendarClear then Some(CalendarBlocked)
    else None
  }

  function OpenPosition(id: nat, snapshot: Snapshot, quote: Quote, levels: Levels, now: int): Position {
    var plan, contract := snapshot.plan, snapshot.contract;
    var fill := FillPrice(quote, contract, true);
    Position(id, contract, plan.quantity, fill, EntryTotal(fill, plan.quantity as real), levels.stop, levels.target,
             now, now + levels.maxHold * MINUTE, plan, None, None)
  }

  /** The BUY branch of `_apply`. */
  function Entered(s: Session, id: nat, request: Purchase, env: Env): Result<Session, EntryError> {
    var refusal := EntryRefusal(s, request, env);
    if refusal.Some? then Err(refusal.value)
    else
      var levels := ValidatePlan(request.snapshot, s.limits, s.cash, s.realized, request.quote.value, env.now);
      if levels.Err? then Err(levels.error)
      else
        var p := OpenPosition(id, request.snapshot, request.quote.value, levels.value, env.now);
        Ok(s.(cash := s.cash - p.costRemaining, position := Some(p), entries := s.entries + 1))
  }

  // ---------------------------------------------------------------- settlement of an expired residual

  /** What settlement pays: the attested price on the remaining units, less its costs. */
  function SettlementNet(p: Position, price: real, costs: real): real {
    price * p.quantity as real - costs
  }

  function SettlementPnl(p: Position, price: real, costs: real): real {
    SettlementNet(p, price, costs) - p.costRemaining
  }

  function Settled(s: Session, p: Position, price: real, costs: real): Session {
    var realized := s.realized + SettlementPnl(p, price, costs);
    s.(cash := s.cash + SettlementNet(p, price, costs), realized := realized, pnl := realized,
       position := None, state := Completed)
  }
}
