/** When sizing accepts a plan and when the risk engine and the policy approve one, with every refusal
    (`sizing.py`, `risk.py`, `risk_policy.py`), stated on the book, the limits and the prices. */
module RiskOutcomes {
  import opened Common
  import opened Rounding
  import opened Simulator
  import opened SimulatorLedger
  import opened SizingChain
  import opened OrderOutcomes

  // ---------------------------------------------------------------- the sizing plan

  /** The raw price rounded away from zero slack: up or down to a whole tick. */
  ghost predicate RoundsTo(x: real, up: bool, tick: real, price: real) {
    (exists k: int :: price == Ticks(k, tick)) && if up then x <= price < x + tick else price <= x < price + tick
  }

  lemma RoundedIs(x: real, up: bool, tick: real)
    requires tick > 0.0
    ensures RoundsTo(x, up, tick, RoundedPrice(x, tick, up))
  {
    var k := if up then CeilInt(x / tick) else FloorInt(x / tick);
    assert RoundedPrice(x, tick, up) == Ticks(k, tick);
    hide CeilTick, FloorTick, Ticks;
    CeilTickLeast(x, tick, 0);
    FloorTickGreatest(x, tick, 0);
  }

  /** The plan's prices: the quote rounded against the trader; the stop a distance beyond it; the
      target the demanded reach away. */
  lemma PlanPricesAre(i: SizingInput, rules: SizingRules)
    requires i.tick > 0.0 && (rules.stopMethod.Atr? ==> i.atr.Some?)
    ensures
      var p := PricesFor(i, rules);
      var distance, reach := StopDistanceFor(i, rules, p.entry), Reach(p.entry, p.stop, rules.rewardMultiple);
      && RoundsTo(i.reference, i.long, i.tick, p.entry)
      && RoundsTo(if i.long then p.entry - distance else p.entry + distance, !i.long, i.tick, p.stop)
      && RoundsTo(if i.long then p.entry + reach else p.entry - reach, i.long, i.tick, p.target)
  {
    PricesParts(i, rules);
    hide RoundedPrice, RoundsTo, Reach, StopDistanceFor, PricesFor;
    var p := PricesFor(i, rules);
    var distance, reach := StopDistanceFor(i, rules, p.entry), Reach(p.entry, p.stop, rules.rewardMultiple);
    RoundedIs(i.reference, i.long, i.tick);
    RoundedIs(if i.long then p.entry - distance else p.entry + distance, !i.long, i.tick);
    RoundedIs(if i.long then p.entry + reach else p.entry - reach, i.long, i.tick);
  }

  lemma PricesParts(i: SizingInput, rules: SizingRules)
    requires i.tick > 0.0 && (rules.stopMethod.Atr? ==> i.atr.Some?)
    ensures
      var p := PricesFor(i, rules);
      var distance, reach := StopDistanceFor(i, rules, p.entry), Reach(p.entry, p.stop, rules.rewardMultiple);
      && p.entry == RoundedPrice(i.reference, i.tick, i.long)
      && p.stop == RoundedPrice(if i.long then p.entry - distance else p.entry + distance, i.tick, !i.long)
      && p.target == RoundedPrice(if i.long then p.entry + reach else p.entry - reach, i.tick, i.long)
  {
    hide RoundedPrice, Reach, StopDistanceFor;
  }

  /** The distance comes from the average true range or from a fraction of the entry, ... */
  lemma DistanceIs(i: SizingInput, rules: SizingRules, entry: real)
    requires rules.stopMethod.Atr? ==> i.atr.Some?
    ensures StopDistanceFor(i, rules, entry) == if rules.stopMethod.Atr? then i.atr.value * rules.stopMultiplier else entry * rules.stopFraction
  {
  }

  /** ... and the reach is the reward multiple of the distance that rounding left. */
  lemma ReachIs(entry: real, stop: real, multiple: real)
    ensures Reach(entry, stop, multiple) == (if entry >= stop then entry - stop else stop - entry) * multiple
  {
  }

  predicate Ordered(p: Prices, long: bool) {
    && p.entry > 0.0 && p.stop > 0.0 && p.target > 0.0
    && (long ==> p.stop < p.entry < p.target) && (!long ==> p.target < p.entry < p.stop)
  }

  /** What one unit loses at the stop, and gains at the target, with the cost allowance. */
  function LossAt(p: Prices, long: bool, cost: real): real {
    (if long then p.entry - p.stop else p.stop - p.entry) + cost
  }

  function GainAt(p: Prices, long: bool, cost: real): real {
    (if long then p.target - p.entry else p.entry - p.target) - cost
  }

  /** A plan is accepted exactly for usable inputs with consistent costs, a stop that can be placed,
      ordered prices, the demanded reward for the risk, and room for one lot in the budget, the
      capital and the count. */
  lemma PlanAcceptedIff(i: SizingInput, rules: SizingRules)
    ensures PlanFor(i, rules).reasons == [] <==>
      && i.identified && 0 < i.lot && 0.0 < i.reference && 0.0 < i.equity && 0.0 < i.capital && 0.0 < i.tick
      && 0.0 <= i.entryCost <= i.roundTripCost
      && (rules.stopMethod.Atr? ==> i.atr.Some? && 0.0 < i.atr.value)
      && var p := PricesFor(i, rules);
         && Ordered(p, i.long)
         && rules.minimumRewardRisk * LossAt(p, i.long, i.roundTripCost) <= GainAt(p, i.long, i.roundTripCost)
         && i.lot as real * LossAt(p, i.long, i.roundTripCost) <= i.equity * Min(rules.riskFraction, rules.maximumRiskFraction)
         && i.lot as real * (p.entry + i.entryCost) <= i.capital && i.lot <= rules.maximumQuantity
  {
    PlanAcceptedParts(i, rules);
    hide PricesFor, LotsWithin, PlanFor, UnitLoss, UnitReward, LossAt, GainAt, Cap, RiskBudgetOf;
    if i.tick > 0.0 && (rules.stopMethod.Atr? ==> i.atr.Some?) {
      var p := PricesFor(i, rules);
      if InputUsable(i) && PricesOrdered(p, i.long) {
        UnitsAre(p, i);
        LotFits(p, i, rules);
        RewardAtLeast(rules.minimumRewardRisk, UnitReward(p, i), UnitLoss(p, i));
        BudgetOf(i, rules);
      }
    }
  }

  lemma BudgetOf(i: SizingInput, rules: SizingRules)
    ensures RiskBudgetOf(i, rules) == i.equity * Min(rules.riskFraction, rules.maximumRiskFraction)
  {
  }

  lemma RewardAtLeast(least: real, reward: real, loss: real)
    requires loss > 0.0
    ensures reward / loss >= least <==> least * loss <= reward
  {
    LeDiv(least, reward, loss);
  }

  lemma PlanAcceptedParts(i: SizingInput, rules: SizingRules)
    ensures PlanFor(i, rules).reasons == [] <==>
      && InputUsable(i) && i.entryCost <= i.roundTripCost && (rules.stopMethod.Atr? ==> i.atr.Some? && i.atr.value > 0.0)
      && var p := PricesFor(i, rules);
         && PricesOrdered(p, i.long) && UnitReward(p, i) / UnitLoss(p, i) >= rules.minimumRewardRisk
         && LotsWithin(Cap(p, i, rules), i.lot) > 0
  {
    hide PricesFor, LotsWithin, UnitReward, RiskBudgetOf;
  }

  lemma UnitsAre(p: Prices, i: SizingInput)
    requires PricesOrdered(p, i.long) && i.roundTripCost >= 0.0
    ensures UnitLoss(p, i) == LossAt(p, i.long, i.roundTripCost) > 0.0 && UnitReward(p, i) == GainAt(p, i.long, i.roundTripCost)
  {
  }

  lemma LotFits(p: Prices, i: SizingInput, rules: SizingRules)
    requires InputUsable(i) && PricesOrdered(p, i.long)
    ensures UnitLoss(p, i) > 0.0
    ensures LotsWithin(Cap(p, i, rules), i.lot) > 0 <==>
      && i.lot as real * UnitLoss(p, i) <= RiskBudgetOf(i, rules)
      && i.lot as real * (p.entry + i.entryCost) <= i.capital && i.lot <= rules.maximumQuantity
  {
    UnitsAre(p, i);
    hide RiskBudgetOf, UnitLoss, LotsWithin;
    LeDiv(i.lot as real, RiskBudgetOf(i, rules), UnitLoss(p, i));
    LeDiv(i.lot as real, i.capital, p.entry + i.entryCost);
    OneLotWithin(Cap(p, i, rules), i.lot);
  }

  lemma OneLotWithin(cap: real, lot: int)
    requires lot > 0
    ensures LotsWithin(cap, lot) > 0 <==> lot as real <= cap
    ensures LotsWithin(cap, lot) % lot == 0
  {
    MulModZero(1, lot);
    LotsWithinGreatest(lot, cap, lot);
    if 0 < LotsWithin(cap, lot) < lot {
      DivUnique(LotsWithin(cap, lot), lot, 0);
    }
  }

  // ---------------------------------------------------------------- the risk engine

  /** The share of the equity risked per trade, halved from the throttle on. */
  predicate RiskedPerTrade(config: RiskConfig, b: Book, base: real) {
    base == if b.highWatermark > 0.0 && b.highWatermark - b.equity >= config.throttle * b.highWatermark
            then b.equity * config.riskPerTrade / 2.0 else b.equity * config.riskPerTrade
  }

  predicate Halted(config: RiskConfig, b: Book) {
    b.highWatermark > 0.0 && b.highWatermark - b.equity >= config.halt * b.highWatermark
  }

  lemma DrawdownAtLeast(b: Book, share: real)
    requires share > 0.0
    ensures Drawdown(b) >= share <==> b.highWatermark > 0.0 && b.highWatermark - b.equity >= share * b.highWatermark
  {
    if b.highWatermark > 0.0 {
      LeDiv(share, b.highWatermark - b.equity, b.highWatermark);
    }
  }

  /** The most whole lots whose loss fits the budget. */
  predicate MostLots(q: int, unit: real, budget: real, lot: int)
    requires lot > 0
  {
    && q % lot == 0
    && q as real * unit <= budget < (q + lot) as real * unit
  }

  lemma EngineLots(budget: real, unit: real, lot: int)
    requires unit > 0.0 && lot > 0
    ensures MostLots(LotsWithin(budget / unit, lot), unit, budget, lot)
  {
    var q := LotsWithin(budget / unit, lot);
    OneLotWithin(budget / unit, lot);
    NextLot(q, lot);
    LotsWithinGreatest(q, budget / unit, lot);
    LotsWithinGreatest(q + lot, budget / unit, lot);
    LeDiv(q as real, budget, unit);
    LeDiv((q + lot) as real, budget, unit);
  }

  lemma NextLot(q: int, lot: int)
    requires lot > 0 && q % lot == 0
    ensures (q + lot) % lot == 0
  {
    MulModZero(q / lot + 1, lot);
    assert (q / lot + 1) * lot == q + lot;
  }

  /** Open risk is the sum over the positions, in whatever order they are taken. */
  lemma {:induction false} OpenRiskSums(one: seq<Holding>, other: seq<Holding>)
    ensures OpenRisk(one + other) == OpenRisk(one) + OpenRisk(other)
    ensures |other| == 1 ==> OpenRisk(other) == other[0].openRisk
    decreases |other|
  {
    if other == [] {
      assert one + other == one;
    } else {
      OpenRiskSums(one, other[..|other| - 1]);
      assert (one + other)[..|one + other| - 1] == one + other[..|other| - 1];
    }
  }

  /** The engine's budget, its size, and each of its refusals with the condition it stands for; it
      approves exactly when none holds. */
  lemma EngineRefusesIff(config: RiskConfig, b: Book, entry: real, stop: real, cost: real, lot: int)
    requires lot > 0
    ensures
      var a := Engine(config, b, entry, stop, cost, lot);
      var unit := (if entry >= stop then entry - stop else stop - entry) + cost;
      && RiskedPerTrade(config, b, a.budget)
      && (NonPositiveEquity in a.reasons <==> b.equity <= 0.0)
      && (MaximumPositions in a.reasons <==> config.maximumPositions <= |b.positions|)
      && (DrawdownHalt in a.reasons <==> Halted(config, b))
      && (DailyLossLimit in a.reasons <==> b.daily + a.budget * config.dailyLimitR <= 0.0)
      && (WeeklyLossLimit in a.reasons <==> b.weekly + a.budget * config.weeklyLimitR <= 0.0)
      && (InvalidUnitRisk in a.reasons <==> unit <= 0.0)
      && (RiskBelowMinimumLot in a.reasons <==> unit > 0.0 && a.budget < lot as real * unit)
      && (MaximumOpenRisk in a.reasons <==> b.equity * config.maximumOpenRisk < OpenRisk(b.positions) + a.loss)
      && (MaximumCorrelatedRisk in a.reasons <==> b.equity * config.maximumCorrelatedRisk < b.correlated + a.loss)
      && (a.approved <==> a.reasons == [])
      && (a.approved ==> MostLots(a.quantity, unit, a.budget, lot) && a.loss == a.quantity as real * unit)
      && (!a.approved ==> a.quantity == 0)
  {
    hide OpenRisk, BaseRisk, BookReasons, UnitRisk, EngineQuantity, Engine, MostLots, RiskedPerTrade, Halted;
    var base, unit := BaseRisk(config, b), UnitRisk(entry, stop, cost);
    BudgetIs(config, b);
    BookRefusesIff(config, b, base);
    UnitIs(entry, stop, cost);
    SizedLots(config, b, unit, lot);
    Commute(unit, EngineQuantity(config, b, unit, lot) as real);
    EngineParts(config, b, entry, stop, cost, lot);
  }

  /** What the engine adds to the book's refusals. */
  lemma EngineParts(config: RiskConfig, b: Book, entry: real, stop: real, cost: real, lot: int)
    requires lot > 0
    ensures
      var a, base, unit := Engine(config, b, entry, stop, cost, lot), BaseRisk(config, b), UnitRisk(entry, stop, cost);
      var quantity := EngineQuantity(config, b, unit, lot);
      && a.budget == base && a.loss == unit * quantity as real
      && (a.approved <==> a.reasons == []) && a.quantity == (if a.approved then quantity else 0)
      && (forall r :: r in a.reasons <==>
            || r in BookReasons(config, b, base)
            || (r == InvalidUnitRisk && unit <= 0.0) || (r == RiskBelowMinimumLot && unit > 0.0 && quantity < lot)
            || (r == MaximumOpenRisk && OpenRisk(b.positions) + a.loss > b.equity * config.maximumOpenRisk)
            || (r == MaximumCorrelatedRisk && b.correlated + a.loss > b.equity * config.maximumCorrelatedRisk))
  {
    hide OpenRisk, BaseRisk, BookReasons, UnitRisk, EngineQuantity;
  }

  lemma UnitIs(entry: real, stop: real, cost: real)
    ensures UnitRisk(entry, stop, cost) == (if entry >= stop then entry - stop else stop - entry) + cost
  {
  }

  lemma SizedLots(config: RiskConfig, b: Book, unit: real, lot: int)
    requires lot > 0
    ensures unit > 0.0 ==> MostLots(EngineQuantity(config, b, unit, lot), unit, BaseRisk(config, b), lot)
    ensures unit > 0.0 ==> (EngineQuantity(config, b, unit, lot) < lot <==> BaseRisk(config, b) < lot as real * unit)
  {
    hide LotsWithin, BaseRisk, MostLots;
    if unit > 0.0 {
      EngineLots(BaseRisk(config, b), unit, lot);
      OneLotWithin(BaseRisk(config, b) / unit, lot);
      LeDiv(lot as real, BaseRisk(config, b), unit);
      AtLeastOneLot(LotsWithin(BaseRisk(config, b) / unit, lot), lot);
    }
  }

  lemma BookRefusesIff(config: RiskConfig, b: Book, base: real)
    ensures
      forall r :: r in BookReasons(config, b, base) <==>
        || (r == NonPositiveEquity && b.equity <= 0.0)
        || (r == MaximumPositions && config.maximumPositions <= |b.positions|)
        || (r == DrawdownHalt && Halted(config, b))
        || (r == DailyLossLimit && b.daily + base * config.dailyLimitR <= 0.0)
        || (r == WeeklyLossLimit && b.weekly + base * config.weeklyLimitR <= 0.0)
  {
    hide Drawdown, Halted;
    assert Halted(config, b) <==> Drawdown(b) >= config.halt by {
      HaltedIs(config, b);
    }
    var daily, weekly := base * config.dailyLimitR, base * config.weeklyLimitR;
    assert BookReasons(config, b, base) ==
      If(b.equity <= 0.0, NonPositiveEquity) + If(|b.positions| >= config.maximumPositions, MaximumPositions)
      + If(Drawdown(b) >= config.halt, DrawdownHalt) + If(b.daily <= -daily, DailyLossLimit) + If(b.weekly <= -weekly, WeeklyLossLimit);
    hide BookReasons;
  }

  lemma HaltedIs(config: RiskConfig, b: Book)
    ensures Halted(config, b) <==> Drawdown(b) >= config.halt
  {
    hide Drawdown;
    DrawdownAtLeast(b, config.halt);
  }

  lemma AtLeastOneLot(q: int, lot: int)
    requires lot > 0 && q % lot == 0
    ensures q > 0 <==> q >= lot
  {
    if 0 < q < lot {
      DivUnique(q, lot, 0);
    }
  }

  lemma BudgetIs(config: RiskConfig, b: Book)
    ensures RiskedPerTrade(config, b, BaseRisk(config, b))
  {
    hide Drawdown;
    DrawdownAtLeast(b, config.throttle);
  }

  /** The policy's refusals on top: it approves exactly an engine approval, behind open gates and on a
      sound book, of at least one permitted lot whose loss stays within the per-trade maximum; it
      permits the engine's lots up to its own limit. */
  lemma PolicyApprovesIff(config: RiskConfig, b: Book, entry: real, stop: real, cost: real, lot: int, most: int, gatesOpen: bool)
    requires lot > 0
    ensures
      var a := Policy(config, b, entry, stop, cost, lot, most, gatesOpen);
      var engine := Engine(config, b, entry, stop, cost, lot);
      var permitted := WholeLots(MinInt(engine.quantity, most), lot);
      && (a.approved <==>
            && gatesOpen && 0.0 < b.highWatermark && 0.0 <= b.correlated && 0.0 <= cost
            && (forall k :: 0 <= k < |b.positions| ==> 0 < b.positions[k].quantity)
            && engine.approved && lot <= engine.quantity && lot <= most
            && permitted as real * UnitRisk(entry, stop, cost) <= b.equity * config.maximumRiskPerTrade)
      && (a.approved ==> a.quantity == permitted && a.budget == engine.budget && a.loss == permitted as real * UnitRisk(entry, stop, cost))
      && (!a.approved ==> a.quantity == 0)
  {
    hide Engine, UnitRisk, WholeLots;
    EngineApproves(config, b, entry, stop, cost, lot);
    PermittedLots(MinInt(Engine(config, b, entry, stop, cost, lot).quantity, most), lot);
    Commute(UnitRisk(entry, stop, cost), WholeLots(MinInt(Engine(config, b, entry, stop, cost, lot).quantity, most), lot) as real);
  }

  lemma PermittedLots(units: int, lot: int)
    requires lot > 0
    ensures WholeLots(units, lot) > 0 <==> lot <= units
  {
    MulModZero(1, lot);
    WholeLotsGreatest(lot, units, lot);
    AtLeastOneLot(WholeLots(units, lot), lot);
  }
}
