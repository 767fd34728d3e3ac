/** What one locked transaction keeps about a session's money. */
module DeskLedger {
  import opened Common
  import opened Rounding
  import opened OptionsRisk
  import opened OptionsSizing
  import opened DeskSession

  function OpenCost(s: Session): real {
    if s.position.Some? then s.position.value.costRemaining else 0.0
  }

  /** What quantizing exit P&L has added up to: cash and open cost against capital and P&L. */
  function Drift(s: Session): real {
    s.cash + OpenCost(s) - s.limits.amount - s.realized
  }

  predicate PositionSound(p: Position, day: int) {
    p.quantity > 0 && p.quantity % p.contract.lot == 0 && p.contract.expiry > day
  }

  /** The session's books after `exits` recorded exits: the money balances to half a unit in the
      eighth decimal per exit, an open position is positive whole lots of an unexpired contract,
      at most ten entries were made, a completed session is flat, and a flat session's P&L is
      its realized P&L. */
  predicate Sound(s: Session, exits: nat) {
    && -(exits as real) * HALF_UNIT <= Drift(s) <= exits as real * HALF_UNIT
    && (s.position.Some? ==> PositionSound(s.position.value, s.day))
    && 0 <= s.entries <= ENTRY_CAP
    && (s.state.Completed? ==> s.position.None?)
    && (s.position.None? ==> s.pnl == s.realized)
  }

  lemma NewSessionSound(day: int, limits: ApprovedLimits, exits: nat)
    ensures Sound(NewSession(day, limits), exits)
  {
  }

  lemma SoundWeakens(s: Session, few: nat, many: nat)
    requires Sound(s, few) && few <= many
    ensures Sound(s, many)
  {
  }

  lemma LotsRemain(total: int, sold: int, lot: int)
    requires lot > 0 && total % lot == 0 && sold % lot == 0
    ensures (total - sold) % lot == 0
  {
    var a, b := total / lot, sold / lot;
    assert total - sold == (a - b) * lot;
    MulModZero(a - b, lot);
  }

  /** A fill moves the books by its quantization error alone. */
  lemma FillMovesDrift(s: Session, quote: Quote, reason: ExitReason, now: int)
    requires s.position.Some? && s.position.value.quantity > 0 && ExitQuantity(s.position.value, quote) > 0
    ensures
      var fill := FillFor(s.position.value, quote, reason, now);
      -HALF_UNIT <= Drift(AfterFill(s, s.position.value, fill)) - Drift(s) <= HALF_UNIT
  {
    var p := s.position.value;
    var quantity := ExitQuantity(p, quote);
    hide Proceeds, Quantize8, ExitBasis, ExitQuantity, FillPrice;
    var price := FillPrice(quote, p.contract, false);
    QuantizeError(Proceeds(price, quantity as real) - ExitBasis(p, quantity));
    WholeBasis(p);
  }

  lemma WholeBasis(p: Position)
    requires p.quantity != 0
    ensures ExitBasis(p, p.quantity) == p.costRemaining
  {
  }

  lemma FillKeepsSound(s: Session, quote: Quote, reason: ExitReason, now: int, exits: nat)
    requires Sound(s, exits) && s.position.Some? && ExitQuantity(s.position.value, quote) > 0
    ensures Sound(AfterFill(s, s.position.value, FillFor(s.position.value, quote, reason, now)), exits + 1)
  {
    var p := s.position.value;
    FillMovesDrift(s, quote, reason, now);
    LotsRemain(p.quantity, ExitQuantity(p, quote), p.contract.lot);
    hide Drift, Proceeds, Quantize8, ExitBasis, FillPrice;
  }

  function Exits(closing: Closing): nat {
    if closing.fill.Some? then 1 else 0
  }

  lemma ClosedKeepsSound(s: Session, quote: Option<Quote>, reason: ExitReason, now: int, cal: Calendar, exits: nat)
    requires Sound(s, exits)
    ensures
      var closing := Closed(s, quote, reason, now, cal);
      Sound(closing.session, exits + Exits(closing))
  {
    hide Sound, FillFor, AfterFill;
    if s.position.Some? && Closable(s.position.value, quote, now, cal) {
      FillKeepsSound(s, quote.value, reason, now, exits);
    }
  }

  lemma MonitorKeepsSound(s: Session, env: Env, seen: Option<nat>, quote: Option<Quote>, underlying: Option<Sample>, exits: nat)
    requires Sound(s, exits)
    ensures
      var closing := Monitored(s, env, seen, quote, underlying);
      Sound(closing.session, exits + Exits(closing))
  {
    hide Closed, FillPrice, MarkedPnl, MonitorReason, UnderlyingExit, MustStop;
    if !s.state.Completed? {
      var s1 := if MustStop(s, env) then s.(state := Stopping) else s;
      if s1.position.Some? && seen == Some(s1.position.value.id) && Fresh(quote, env.now) {
        var p := s1.position.value;
        var price := FillPrice(quote.value, p.contract, false);
        var reason := MonitorReason(s1, p, price, underlying, env.now);
        var s2 := s1.(pnl := MarkedPnl(s1, p, price));
        if reason.Some? {
          ClosedKeepsSound(s2, quote, reason.value, env.now, env.cal, exits);
        }
      }
    }
  }

  lemma StoppedKeepsSound(s: Session, exits: nat)
    requires Sound(s, exits)
    ensures Sound(Stopped(s), exits)
  {
  }

  /** `select_plans` takes a plan's quantity from `QuantityFor`, hence whole lots. */
  predicate WholeLotPlan(snapshot: Snapshot) {
    snapshot.plan.quantity % snapshot.contract.lot == 0
  }

  lemma EntryKeepsSound(s: Session, id: nat, request: Purchase, env: Env, exits: nat)
    requires Sound(s, exits) && s.state.Running? && WholeLotPlan(request.snapshot)
    requires Entered(s, id, request, env).Ok?
    ensures Sound(Entered(s, id, request, env).value, exits)
  {
    hide ExitLevelsFor, FillPrice, EntryTotal, QuantityFor, QuoteOk, SessionLimitReached, EntryWindow;
  }

  lemma SettlementKeepsSound(s: Session, price: real, costs: real, exits: nat)
    requires Sound(s, exits) && s.position.Some?
    ensures Sound(Settled(s, s.position.value, price, costs), exits)
  {
  }

  // ---------------------------------------------------------------- what an accepted entry is worth

  /** Accepted exit levels always carry the reward the profile asks for, so the check that
      `validate_plan` repeats after computing them never fails. */
  lemma RewardNeverShort(limits: Limits, profile: Profile, fill: real, quantity: int, contract: Contract)
    requires ExitLevelsFor(limits, profile, fill, quantity, contract).Ok?
    ensures
      var levels := ExitLevelsFor(limits, profile, fill, quantity, contract).value;
      levels.netReward > 0.0 && levels.netRewardR >= profile.rewardR
  {
    TargetMeetsDemands(limits, profile, fill, quantity, contract);
    NetRiskPositive(limits, profile, fill, quantity, contract);
    hide NetReward, NetRisk, TargetFor;
    LeDiv(profile.rewardR, NetReward(fill, quantity, TargetFor(limits, profile, fill, quantity, contract)),
          NetRisk(limits, profile, fill, quantity, contract));
  }

  /** Whatever plan the model picks, an accepted entry spends at most a quarter of the capital
      and no more than the cash in hand, leaves the cash non-negative, sets a stop whose net loss
      exceeds the remaining risk budget by less than a tick per unit, and a target whose net gain
      is at least the required multiple of that loss. */
  lemma EntryIsBounded(s: Session, id: nat, request: Purchase, env: Env)
    requires WholeLotPlan(request.snapshot) && Entered(s, id, request, env).Ok?
    ensures
      var after := Entered(s, id, request, env).value;
      var p := after.position.value;
      var budget := Budget(s.limits, s.cash, s.realized);
      var risk := p.costRemaining - Proceeds(p.stop, p.quantity as real);
      && after.position.Some? && s.position.None?
      && p.costRemaining == EntryTotal(p.entry, p.quantity as real)
      && p.costRemaining <= s.limits.amount * ALLOCATION_FRACTION
      && 0.0 <= after.cash == s.cash - p.costRemaining
      && 0.0 < risk < RiskBudget(budget) + p.contract.tick * p.quantity as real
      && Proceeds(p.target, p.quantity as real) - p.costRemaining >= request.snapshot.plan.profile.rewardR * risk
  {
    hide FillPrice, EntryTotal, Proceeds, QuantityFor, RiskBudget, StopFor, TargetFor, QuoteOk, SessionLimitReached,
         CostShare, TargetTick, TargetFloor, EntryWindow;
    var snapshot, quote := request.snapshot, request.quote.value;
    PlanIsBounded(snapshot, s.limits, s.cash, s.realized, quote, env.now);
  }

  lemma PlanIsBounded(snapshot: Snapshot, limits: ApprovedLimits, cash: real, realized: real, quote: Quote, now: int)
    requires WholeLotPlan(snapshot) && ValidatePlan(snapshot, limits, cash, realized, quote, now).Ok?
    ensures
      var levels := ValidatePlan(snapshot, limits, cash, realized, quote, now).value;
      var fill, units := FillPrice(quote, snapshot.contract, true), snapshot.plan.quantity as real;
      var risk := EntryTotal(fill, units) - Proceeds(levels.stop, units);
      && EntryTotal(fill, units) <= limits.amount * ALLOCATION_FRACTION
      && EntryTotal(fill, units) <= cash
      && 0.0 < risk < RiskBudget(Budget(limits, cash, realized)) + snapshot.contract.tick * units
      && Proceeds(levels.target, units) - EntryTotal(fill, units) >= snapshot.plan.profile.rewardR * risk
  {
    hide FillPrice, EntryTotal, Proceeds, QuantityFor, RiskBudget, StopFor, TargetFor, CostShare, TargetTick, TargetFloor;
    var plan, contract := snapshot.plan, snapshot.contract;
    var fill := FillPrice(quote, contract, true);
    BuyFillPositive(quote, contract);
    SizedEntryIsBounded(Budget(limits, cash, realized), contract, quote, plan.quantity, plan.profile);
    TargetMeetsDemands(limits, plan.profile, fill, plan.quantity, contract);
    NetRiskPositive(limits, plan.profile, fill, plan.quantity, contract);
  }

  // ---------------------------------------------------------------- the gate before the paid call

  datatype GateReason = OnePositionActive | DailyEntryCap | SessionPnlLimit | PostExitCooldown | NoEligiblePlan | CalendarBlocker

  /** `remaining` of `entry_gate`: whole seconds of cooldown left, truncating as `int` does. */
  function CooldownRemaining(s: Session, now: int): int {
    if s.lastExit.None? then 0
    else
      var elapsed := now - s.lastExit.value;
      var seconds := if elapsed >= 0 then elapsed / SECOND else -((-elapsed) / SECOND);
      MaxInt(0, COOLDOWN / SECOND - seconds)
  }

  /** `entry_gate` in `options_policy.py`. */
  function GateReasons(s: Session, now: int, plans: bool, calendarBlocked: bool): set<GateReason> {
    (if s.position.Some? then {OnePositionActive} else {}) +
    (if s.entries >= ENTRY_CAP then {DailyEntryCap} else {}) +
    (if SessionLimitReached(s.limits, s.realized) then {SessionPnlLimit} else {}) +
    (if CooldownRemaining(s, now) != 0 then {PostExitCooldown} else {}) +
    (if !plans && s.position.None? then {NoEligiblePlan} else {}) +
    (if calendarBlocked && s.position.None? then {CalendarBlocker} else {})
  }

  /** The gate that decides whether to pay for a call and the checks that later authorize the
      entry agree: on the same session and instant, with a plan and a clear calendar, the gate is
      open exactly when no position, entry cap, cooldown or P&L limit refuses the entry. */
  lemma GateAgreesWithEntry(s: Session, request: Purchase, env: Env)
    requires EntryWindow(env.cal, env.now) && env.enabled && !env.halted && request.strategyNamed
    requires Fresh(request.quote, env.now) && 0 <= env.now - request.snapshot.spotAt <= 180 * SECOND
    requires request.snapshot.contract.expiry > s.day && request.chartSetup
    ensures GateReasons(s, env.now, true, !request.calendarClear) == {} <==> EntryRefusal(s, request, env).None?
  {
    CooldownInSeconds(s, env.now);
    var reasons := GateReasons(s, env.now, true, !request.calendarClear);
    if reasons == {} {
      assert OnePositionActive !in reasons && DailyEntryCap !in reasons && SessionPnlLimit !in reasons;
      assert PostExitCooldown !in reasons && CalendarBlocker !in reasons;
    }
  }

  lemma CooldownInSeconds(s: Session, now: int)
    ensures CooldownRemaining(s, now) != 0 <==> s.lastExit.Some? && now - s.lastExit.value < COOLDOWN
  {
  }
}
