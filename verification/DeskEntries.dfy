/** When the desk buys, and what it then holds: the BUY branch of `_apply` in `banknifty.py` with
    `validate_plan`, stated on the session, the clock, the quote and the plan. */
module DeskEntries {
  import opened Common
  import opened Rounding
  import opened OptionsRisk
  import opened OptionsSizing
  import opened DeskSession
  import opened DeskLedger
  import opened DeskExits
  import opened Desk
  import CallLedger

  /** The session and the worker allow an entry at all: flat, under the cap of ten, five minutes
      after the last exit, not at a P&L limit, on a verified market day between 9:30 and 15:00,
      enabled and not halted. */
  predicate SessionOpen(s: Session, env: Env) {
    && s.position.None? && s.entries < 10 && env.enabled && !env.halted
    && DateOf(env.now) in env.cal && 570 * MINUTE <= TimeOfDay(env.now) < 900 * MINUTE
    && (s.lastExit.Some? ==> s.lastExit.value + 300_000_000 <= env.now)
    && -(s.limits.amount * s.limits.lossPct) < 100.0 * s.realized
    && (s.limits.profitCap ==> 100.0 * s.realized < s.limits.amount * s.limits.profitPct)
  }

  /** The inputs are current: quote at most 90 seconds and spot at most three minutes old, neither
      from the future, a two-sided quote no wider than two percent of its ask. */
  predicate InputsCurrent(request: Purchase, env: Env) {
    && request.quote.Some? && request.quote.value.stamp <= env.now <= request.quote.value.stamp + 90_000_000
    && request.snapshot.spotAt <= env.now <= request.snapshot.spotAt + 180_000_000
    && 0.0 < request.quote.value.bid <= request.quote.value.ask
    && 50.0 * (request.quote.value.ask - request.quote.value.bid) <= request.quote.value.ask
  }

  /** Plan, setup and calendar authorize the contract, which outlives the day. */
  predicate Authorized(s: Session, request: Purchase) {
    && request.strategyNamed && request.chartSetup && request.calendarClear && request.snapshot.authority
    && s.day < request.snapshot.contract.expiry
  }

  /** The plan's quantity fits today's session on this quote, at a price the plan still accepts. */
  predicate PlanFits(s: Session, request: Purchase)
    requires request.quote.Some? && request.quote.value.ask > 0.0
  {
    var plan, contract, quote := request.snapshot.plan, request.snapshot.contract, request.quote.value;
    && FillPrice(quote, contract, true) <= plan.maxFill
    && 0 < plan.quantity <= QuantityFor(Budget(s.limits, s.cash, s.realized), contract, quote)
  }

  /** A playbook's exits can be placed: a stop between zero and all of the fill, a target above it, a
      multiple of at least one, one to 120 minutes to hold, and costs within the share allowed. */
  predicate ExitsPlaced(s: Session, request: Purchase)
    requires request.quote.Some?
  {
    var plan, contract := request.snapshot.plan, request.snapshot.contract;
    var profile, fill := plan.profile, FillPrice(request.quote.value, contract, true);
    && fill > 0.0 && plan.quantity > 0
    && 0.0 < profile.stopPct && 0.0 < profile.targetPct && 1.0 <= profile.rewardR && 1 <= profile.maxHold <= 120
    && var target := TargetFor(s.limits, profile, fill, plan.quantity, contract);
       target != fill && RoundTripCost(fill, plan.quantity, target)
                           <= profile.maxCostShare * ((target - fill) * plan.quantity as real)
  }

  lemma SpreadIs(bid: real, ask: real)
    requires ask > 0.0
    ensures (ask - bid) / ask <= MAX_SPREAD <==> 50.0 * (ask - bid) <= ask
  {
    LeDiv(MAX_SPREAD, ask - bid, ask);
  }

  lemma RefusalNoneIff(s: Session, request: Purchase, env: Env)
    ensures EntryRefusal(s, request, env).None? <==>
      && SessionOpen(s, env) && request.strategyNamed && request.chartSetup && request.calendarClear
      && s.day < request.snapshot.contract.expiry
      && request.quote.Some? && request.quote.value.stamp <= env.now <= request.quote.value.stamp + 90_000_000
      && request.snapshot.spotAt <= env.now <= request.snapshot.spotAt + 180_000_000
  {
    PercentOf(s.limits.amount, s.limits.lossPct, s.realized);
    PercentOf(s.limits.amount, s.limits.profitPct, s.realized);
  }

  lemma LevelsOkIff(limits: ApprovedLimits, profile: Profile, fill: real, quantity: int, contract: Listed)
    ensures
      ExitLevelsFor(limits, profile, fill, quantity, contract).Ok? <==>
        && fill > 0.0 && quantity > 0
        && 0.0 < profile.stopPct && 0.0 < profile.targetPct && 1.0 <= profile.rewardR && 1 <= profile.maxHold <= 120
        && var target := TargetFor(limits, profile, fill, quantity, contract);
           target != fill && RoundTripCost(fill, quantity, target) <= profile.maxCostShare * ((target - fill) * quantity as real)
  {
    hide TargetFor, RoundTripCost, ProfileAccepted, CostShare, ExitLevelsFor;
    ProfileIs(limits, profile, fill, quantity, contract);
    if ProfileAccepted(limits, profile, fill, quantity, contract) {
      LevelsWhenAccepted(limits, profile, fill, quantity, contract);
      var target := TargetFor(limits, profile, fill, quantity, contract);
      ShareAtMost(fill, quantity, target, profile.maxCostShare, (target - fill) * quantity as real);
    } else {
      NoLevels(limits, profile, fill, quantity, contract);
    }
  }

  lemma LevelsWhenAccepted(limits: ApprovedLimits, profile: Profile, fill: real, quantity: int, contract: Listed)
    requires ProfileAccepted(limits, profile, fill, quantity, contract)
    ensures
      var target := TargetFor(limits, profile, fill, quantity, contract);
      && (target - fill) * quantity as real > 0.0
      && (ExitLevelsFor(limits, profile, fill, quantity, contract).Ok? <==> CostShare(fill, quantity, target) <= profile.maxCostShare)
  {
    hide TargetFor, NetRisk, NetReward, StopFor, ProfileAccepted, CostShare, RoundTripCost;
    TargetMeetsDemands(limits, profile, fill, quantity, contract);
  }

  lemma NoLevels(limits: ApprovedLimits, profile: Profile, fill: real, quantity: int, contract: Listed)
    requires !ProfileAccepted(limits, profile, fill, quantity, contract)
    ensures ExitLevelsFor(limits, profile, fill, quantity, contract).Err?
  {
    hide ProfileAccepted;
  }

  lemma ProfileIs(limits: ApprovedLimits, profile: Profile, fill: real, quantity: int, contract: Listed)
    ensures ProfileAccepted(limits, profile, fill, quantity, contract) <==>
      && fill > 0.0 && quantity > 0
      && 0.0 < profile.stopPct && 0.0 < profile.targetPct && 1.0 <= profile.rewardR && 1 <= profile.maxHold <= 120
  {
  }

  lemma ShareAtMost(fill: real, quantity: int, target: real, most: real, gross: real)
    requires gross == (target - fill) * quantity as real && gross > 0.0
    ensures target != fill
    ensures CostShare(fill, quantity, target) <= most <==> RoundTripCost(fill, quantity, target) <= most * gross
  {
    hide RoundTripCost;
    LeDiv(most, RoundTripCost(fill, quantity, target), gross);
  }

  lemma PlanValidIff(s: Session, request: Purchase, env: Env)
    requires request.quote.Some?
    ensures
      var quote := request.quote.value;
      ValidatePlan(request.snapshot, s.limits, s.cash, s.realized, quote, env.now).Ok? <==>
        && request.snapshot.authority && quote.stamp <= env.now <= quote.stamp + 90_000_000
        && 0.0 < quote.bid <= quote.ask && 50.0 * (quote.ask - quote.bid) <= quote.ask
        && PlanFits(s, request) && ExitsPlaced(s, request)
  {
    hide ExitLevelsFor, FillPrice, QuantityFor, TargetFor, RoundTripCost;
    var snapshot, quote := request.snapshot, request.quote.value;
    var fill := FillPrice(quote, snapshot.contract, true);
    LevelsOkIff(s.limits, snapshot.plan.profile, fill, snapshot.plan.quantity, snapshot.contract);
    if quote.ask > 0.0 {
      SpreadIs(quote.bid, quote.ask);
    }
    if ExitLevelsFor(s.limits, snapshot.plan.profile, fill, snapshot.plan.quantity, snapshot.contract).Ok? {
      RewardNeverShort(s.limits, snapshot.plan.profile, fill, snapshot.plan.quantity, snapshot.contract);
    }
  }

  /** The desk accepts a BUY exactly when the session is open for one, the inputs are current, the
      plan is authorized, fits, and can place its exits. A halt or a disabled worker refuses any. */
  lemma EntryAcceptedIff(s: Session, id: nat, request: Purchase, env: Env)
    ensures Entered(s, id, request, env).Ok? <==>
      && SessionOpen(s, env) && InputsCurrent(request, env) && Authorized(s, request)
      && PlanFits(s, request) && ExitsPlaced(s, request)
  {
    hide ValidatePlan, EntryRefusal, PlanFits, ExitsPlaced, SessionOpen, OpenPosition;
    RefusalNoneIff(s, request, env);
    if request.quote.Some? {
      PlanValidIff(s, request, env);
    }
  }

  /** What an accepted BUY leaves: one entry more, the cost with its fees out of the cash, and the
      plan's units at the slipped ask, with the stop under it, the least target that pays, and the
      playbook's time; nothing else of the session changes. */
  lemma EntryLeaves(s: Session, id: nat, request: Purchase, env: Env)
    requires Entered(s, id, request, env).Ok?
    ensures
      var plan, contract := request.snapshot.plan, request.snapshot.contract;
      var fill := FillPrice(request.quote.value, contract, true);
      var cost := EntryTotal(fill, plan.quantity as real);
      var after := Entered(s, id, request, env).value;
      && request.quote.Some? && fill > 0.0 && plan.quantity > 0
      && after == s.(cash := s.cash - cost, entries := s.entries + 1, position := after.position)
      && after.position == Some(Position(id, contract, plan.quantity, fill, cost,
                                         StopFor(s.limits, plan.profile, fill, contract),
                                         TargetFor(s.limits, plan.profile, fill, plan.quantity, contract),
                                         env.now, env.now + plan.profile.maxHold * 60_000_000, plan, None, None))
  {
    hide FillPrice, StopFor, TargetFor, EntryTotal, EntryRefusal, ValidatePlan;
    assert request.quote.Some? by {
      RefusalNoneIff(s, request, env);
    }
    LevelsAre(request.snapshot, s.limits, s.cash, s.realized, request.quote.value, env.now);
  }

  lemma LevelsAre(snapshot: Snapshot, limits: ApprovedLimits, cash: real, realized: real, quote: Quote, now: int)
    requires ValidatePlan(snapshot, limits, cash, realized, quote, now).Ok?
    ensures
      var plan, contract := snapshot.plan, snapshot.contract;
      var fill, levels := FillPrice(quote, contract, true), ValidatePlan(snapshot, limits, cash, realized, quote, now).value;
      && fill > 0.0 && plan.quantity > 0 && levels.maxHold == plan.profile.maxHold
      && levels.stop == StopFor(limits, plan.profile, fill, contract)
      && levels.target == TargetFor(limits, plan.profile, fill, plan.quantity, contract)
  {
    hide FillPrice, StopFor, TargetFor, QuantityFor, NetRisk, NetReward, CostShare, RoundTripCost, QuoteOk;
  }

  /** On the whole desk: a BUY changes anything only when the latest session is running on the day of
      its scan, its call holds a BUY that was never applied, and the entry is accepted; it then takes
      effect on session, call and log together. */
  lemma BuyTakesEffectIff(st: State, callId: nat, request: Purchase, env: Env)
    requires DistinctDays(st.sessions)
    ensures
      var latest := Latest(st.sessions);
      var open := latest.Some? && st.sessions[latest.value].day == request.snapshot.day && st.sessions[latest.value].state == Running;
      var decided := callId < |st.calls| && st.calls[callId].state == CallLedger.Completed && st.calls[callId].action == Some(CallLedger.Buy);
      var after := Step(st, Op.Buy(callId, request, env));
      if !open || !decided || Entered(st.sessions[latest.value], callId, request, env).Err? then after == st
      else
        && request.quote.Some? && Entered(st.sessions[latest.value], callId, request, env).value.position.Some?
        && after.sessions == st.sessions[latest.value := Entered(st.sessions[latest.value], callId, request, env).value]
        && after.calls == st.calls[callId := st.calls[callId].(state := CallLedger.Applied)]
        && after.events == st.events + [PaperEntry(request.snapshot.day, Entered(st.sessions[latest.value], callId, request, env).value.position.value,
                                                   request.quote.value, request.snapshot)]
  {
    hide Entered, Latest, Save, DistinctDays;
    var latest := Latest(st.sessions);
    if latest.Some? && Entered(st.sessions[latest.value], callId, request, env).Ok? {
      EntryLeaves(st.sessions[latest.value], callId, request, env);
      SaveUpdates(st.sessions, latest.value, Entered(st.sessions[latest.value], callId, request, env).value);
    }
  }
}
