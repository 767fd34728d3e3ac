/** From a sized plan through the risk engine and policy to the simulator's fill gate
    (`sizing.py`, `risk.py`, the numeric part of `risk_policy.py`, and their use in
    `unified_backtest.py`). */
module SizingChain {
  import opened Common
  import opened Rounding
  import opened Simulator
  import opened SimulatorLedger

  // ---------------------------------------------------------------- plan calculation

  datatype StopMethod = Atr | Fraction

  datatype RuleSet = RuleSet(stopMethod: StopMethod, stopMultiplier: real, stopFraction: real, rewardMultiple: real,
                             minimumRewardRisk: real, riskFraction: real, maximumRiskFraction: real, maximumQuantity: int)
  {
    /** What the original's constructor demands. */
    predicate Valid() {
      && stopMultiplier > 0.0 && 0.0 < stopFraction < 1.0 && rewardMultiple > 0.0 && minimumRewardRisk > 0.0
      && 0.0 < riskFraction <= maximumRiskFraction < 1.0 && maximumQuantity > 0
    }
  }

  type SizingRules = r: RuleSet | r.Valid() witness RuleSet(Atr, 2.0, 0.01, 2.0, 1.5, 0.005, 0.01, 1000)

  datatype SizingInput = SizingInput(identified: bool, long: bool, reference: real, equity: real, capital: real,
                                     tick: real, lot: int, atr: Option<real>, roundTripCost: real, entryCost: real)

  datatype Reason = InvalidInput | InconsistentCosts | AtrUnavailable | InvalidGeometry | InsufficientReward | BelowMinimumLot

  datatype Prices = Prices(entry: real, stop: real, target: real)

  /** A calculated plan; `prices` and `budget` are present once the inputs were usable. */
  datatype Plan = Plan(quantity: int, prices: Option<Prices>, budget: real, plannedLoss: real, reasons: seq<Reason>)

  function RoundedPrice(x: real, tick: real, up: bool): real
    requires tick > 0.0
  {
    if up then CeilTick(x, tick) else FloorTick(x, tick)
  }

  predicate InputUsable(i: SizingInput) {
    && i.identified && i.lot > 0 && i.reference > 0.0 && i.equity > 0.0 && i.capital > 0.0 && i.tick > 0.0
    && i.roundTripCost >= 0.0 && i.entryCost >= 0.0
  }

  function StopDistanceFor(i: SizingInput, rules: SizingRules, entry: real): real
    requires rules.stopMethod.Atr? ==> i.atr.Some?
  {
    if rules.stopMethod.Atr? then i.atr.value * rules.stopMultiplier else entry * rules.stopFraction
  }

  function PricesFor(i: SizingInput, rules: SizingRules): Prices
    requires i.tick > 0.0 && (rules.stopMethod.Atr? ==> i.atr.Some?)
  {
    var entry := RoundedPrice(i.reference, i.tick, i.long);
    var distance := StopDistanceFor(i, rules, entry);
    var stop := RoundedPrice(if i.long then entry - distance else entry + distance, i.tick, !i.long);
    var reach := Reach(entry, stop, rules.rewardMultiple);
    Prices(entry, stop, RoundedPrice(if i.long then entry + reach else entry - reach, i.tick, i.long))
  }

  function Reach(entry: real, stop: real, multiple: real): real {
    Abs(entry - stop) * multiple
  }

  predicate PricesOrdered(p: Prices, long: bool) {
    && p.entry > 0.0 && p.stop > 0.0 && p.target > 0.0
    && (if long then p.stop < p.entry < p.target else p.target < p.entry < p.stop)
  }

  /** Planned loss of one unit: the distance to the stop and the cost allowance. */
  function UnitLoss(p: Prices, i: SizingInput): real {
    Abs(p.entry - p.stop) + i.roundTripCost
  }

  function UnitReward(p: Prices, i: SizingInput): real {
    Abs(p.target - p.entry) - i.roundTripCost
  }

  function RiskBudgetOf(i: SizingInput, rules: SizingRules): real {
    i.equity * Min(rules.riskFraction, rules.maximumRiskFraction)
  }

  function LotsWithin(cap: real, lot: int): int
    requires lot > 0
  {
    WholeLots(FloorInt(cap), lot)
  }

  function Cap(p: Prices, i: SizingInput, rules: SizingRules): real
    requires UnitLoss(p, i) > 0.0 && p.entry + i.entryCost > 0.0
  {
    Min(RiskBudgetOf(i, rules) / UnitLoss(p, i),
        Min(i.capital / (p.entry + i.entryCost), rules.maximumQuantity as real))
  }

  /** `calculate_plan`. */
  function PlanFor(i: SizingInput, rules: SizingRules): (plan: Plan)
    ensures plan.reasons == [] ==> plan.prices.Some?
  {
    if !InputUsable(i) then Plan(0, None, 0.0, 0.0, [InvalidInput])
    else if i.entryCost > i.roundTripCost then Plan(0, None, 0.0, 0.0, [InconsistentCosts])
    else if rules.stopMethod.Atr? && (i.atr.None? || i.atr.value <= 0.0) then Plan(0, None, 0.0, 0.0, [AtrUnavailable])
    else
      var p := PricesFor(i, rules);
      var budget := RiskBudgetOf(i, rules);
      if !PricesOrdered(p, i.long) then Plan(0, Some(p), budget, 0.0, [InvalidGeometry])
      else
        var quantity := LotsWithin(Cap(p, i, rules), i.lot);
        var reasons :=
          (if UnitReward(p, i) / UnitLoss(p, i) < rules.minimumRewardRisk then [InsufficientReward] else []) +
          (if quantity <= 0 then [BelowMinimumLot] else []);
        if reasons != [] then Plan(0, Some(p), budget, 0.0, reasons)
        else Plan(quantity, Some(p), budget, UnitLoss(p, i) * quantity as real, [])
  }

  /** `calculate_plan` as written: one result filled in step by step, reasons appended. */
  method CalculatePlan(i: SizingInput, rules: SizingRules) returns (plan: Plan)
    ensures plan == PlanFor(i, rules)
    ensures plan.quantity > 0 <==> plan.reasons == []
  {
    hide PricesFor, Cap, LotsWithin, RiskBudgetOf;
    plan := Plan(0, None, 0.0, 0.0, []);
    var reasons: seq<Reason> := [];
    if !InputUsable(i) {
      reasons := reasons + [InvalidInput];
    } else if i.entryCost > i.roundTripCost {
      reasons := reasons + [InconsistentCosts];
    } else if rules.stopMethod.Atr? && (i.atr.None? || i.atr.value <= 0.0) {
      reasons := reasons + [AtrUnavailable];
    } else {
      var p := PricesFor(i, rules);
      plan := plan.(prices := Some(p), budget := RiskBudgetOf(i, rules));
      if !PricesOrdered(p, i.long) {
        reasons := reasons + [InvalidGeometry];
      } else {
        if UnitReward(p, i) / UnitLoss(p, i) < rules.minimumRewardRisk {
          reasons := reasons + [InsufficientReward];
        }
        var quantity := LotsWithin(Cap(p, i, rules), i.lot);
        if quantity <= 0 {
          reasons := reasons + [BelowMinimumLot];
        }
        if reasons == [] {
          plan := plan.(quantity := quantity, plannedLoss := UnitLoss(p, i) * quantity as real);
        }
      }
    }
    plan := plan.(reasons := reasons);
  }

  lemma LotsWithinGreatest(q: int, cap: real, lot: int)
    requires lot > 0 && q % lot == 0
    ensures q <= LotsWithin(cap, lot) <==> q as real <= cap
  {
    WholeLotsGreatest(q, FloorInt(cap), lot);
  }

  /** An accepted plan holds the most whole lots that keep the planned loss within the risk
      budget, the entry within the capital and the count within its limit; no larger number of
      whole lots does. */
  lemma PlanIsLargest(i: SizingInput, rules: SizingRules, q: int)
    requires PlanFor(i, rules).reasons == [] && q > 0 && q % i.lot == 0
    ensures
      var plan := PlanFor(i, rules);
      var p := plan.prices.value;
      && q as real * UnitLoss(p, i) <= plan.budget
      && q as real * (p.entry + i.entryCost) <= i.capital
      && q <= rules.maximumQuantity
      <==> q <= plan.quantity
  {
    hide PricesFor, RiskBudgetOf, LotsWithin, UnitReward;
    var p := PricesFor(i, rules);
    LotsWithinGreatest(q, Cap(p, i, rules), i.lot);
    LeDiv(q as real, RiskBudgetOf(i, rules), UnitLoss(p, i));
    LeDiv(q as real, i.capital, p.entry + i.entryCost);
    hide UnitLoss, PricesOrdered;
  }

  // ---------------------------------------------------------------- risk engine and policy

  datatype RiskValues = RiskValues(riskPerTrade: real, maximumRiskPerTrade: real, maximumOpenRisk: real,
                                   maximumCorrelatedRisk: real, dailyLimitR: real, weeklyLimitR: real,
                                   throttle: real, halt: real, maximumPositions: int)
  {
    /** What the original's constructor demands. */
    predicate Valid() {
      && 0.0 < riskPerTrade <= maximumRiskPerTrade < 1.0 && 0.0 < maximumOpenRisk < 1.0 && 0.0 < maximumCorrelatedRisk < 1.0
      && 0.0 < throttle < halt < 1.0 && dailyLimitR > 0.0 && weeklyLimitR > 0.0 && maximumPositions >= 1
    }
  }

  type RiskConfig = r: RiskValues | r.Valid() witness RiskValues(0.01, 0.02, 0.1, 0.1, 3.0, 6.0, 0.1, 0.2, 5)

  datatype Holding = Holding(quantity: int, openRisk: real)

  datatype Book = Book(equity: real, highWatermark: real, daily: real, weekly: real, positions: seq<Holding>, correlated: real)

  datatype RiskReason = NonPositiveEquity | MaximumPositions | DrawdownHalt | DailyLossLimit | WeeklyLossLimit
                      | InvalidUnitRisk | RiskBelowMinimumLot | MaximumOpenRisk | MaximumCorrelatedRisk
                      | GateClosed | NoPermittedQuantity | MaximumTradeRisk | InvalidProposalOrPortfolio

  datatype Assessment = Assessment(approved: bool, quantity: int, budget: real, loss: real, reasons: seq<RiskReason>)

  function Drawdown(b: Book): real {
    if b.highWatermark <= 0.0 then 0.0 else Max(0.0, (b.highWatermark - b.equity) / b.highWatermark)
  }

  function BaseRisk(config: RiskConfig, b: Book): real {
    var base := b.equity * config.riskPerTrade;
    if Drawdown(b) >= config.throttle then base / 2.0 else base
  }

  function OpenRisk(positions: seq<Holding>): real {
    if positions == [] then 0.0 else OpenRisk(positions[..|positions| - 1]) + positions[|positions| - 1].openRisk
  }

  function UnitRisk(entry: real, stop: real, cost: real): real {
    Abs(entry - stop) + cost
  }

  function EngineQuantity(config: RiskConfig, b: Book, unit: real, lot: int): int
    requires lot > 0
  {
    if unit <= 0.0 then 0 else LotsWithin(BaseRisk(config, b) / unit, lot)
  }

  function If<T>(c: bool, x: T): seq<T> {
    if c then [x] else []
  }

  /** Refusals that depend on the book alone. */
  function BookReasons(config: RiskConfig, b: Book, base: real): seq<RiskReason> {
    If(b.equity <= 0.0, NonPositiveEquity) + If(|b.positions| >= config.maximumPositions, MaximumPositions)
    + If(Drawdown(b) >= config.halt, DrawdownHalt)
    + If(b.daily <= -(base * config.dailyLimitR), DailyLossLimit)
    + If(b.weekly <= -(base * config.weeklyLimitR), WeeklyLossLimit)
  }

  /** `RiskEngine.evaluate`. */
  function Engine(config: RiskConfig, b: Book, entry: real, stop: real, cost: real, lot: int): Assessment
    requires lot > 0
  {
    var base, unit := BaseRisk(config, b), UnitRisk(entry, stop, cost);
    var quantity := EngineQuantity(config, b, unit, lot);
    var loss := unit * quantity as real;
    var reasons := BookReasons(config, b, base)
      + (if unit <= 0.0 then [InvalidUnitRisk] else If(quantity < lot, RiskBelowMinimumLot))
      + If(OpenRisk(b.positions) + loss > b.equity * config.maximumOpenRisk, MaximumOpenRisk)
      + If(b.correlated + loss > b.equity * config.maximumCorrelatedRisk, MaximumCorrelatedRisk);
    Assessment(reasons == [], if reasons == [] then quantity else 0, base, loss, reasons)
  }

  /** The engine as written. */
  method Evaluate(config: RiskConfig, b: Book, entry: real, stop: real, cost: real, lot: int) returns (a: Assessment)
    requires lot > 0
    ensures a == Engine(config, b, entry, stop, cost, lot)
  {
    hide Drawdown, LotsWithin, UnitRisk, BookReasons, OpenRisk, BaseRisk;
    var base := ThrottledRisk(config, b);
    var reasons := ScreenBook(config, b, base);
    var unit, quantity := UnitRisk(entry, stop, cost), 0;
    if unit <= 0.0 {
      reasons := reasons + [InvalidUnitRisk];
    } else {
      quantity := LotsWithin(base / unit, lot);
      if quantity < lot {
        reasons := reasons + [RiskBelowMinimumLot];
      }
    }
    var loss := unit * quantity as real;
    var openRisk := SumOpenRisk(b.positions);
    if openRisk + loss > b.equity * config.maximumOpenRisk {
      reasons := reasons + [MaximumOpenRisk];
    }
    if b.correlated + loss > b.equity * config.maximumCorrelatedRisk {
      reasons := reasons + [MaximumCorrelatedRisk];
    }
    a := Assessment(reasons == [], if reasons == [] then quantity else 0, base, loss, reasons);
  }

  method ThrottledRisk(config: RiskConfig, b: Book) returns (base: real)
    ensures base == BaseRisk(config, b)
  {
    hide Drawdown;
    base := b.equity * config.riskPerTrade;
    if Drawdown(b) >= config.throttle {
      base := base / 2.0;
    }
  }

  method ScreenBook(config: RiskConfig, b: Book, base: real) returns (reasons: seq<RiskReason>)
    ensures reasons == BookReasons(config, b, base)
  {
    hide Drawdown;
    reasons := [];
    if b.equity <= 0.0 {
      reasons := reasons + [NonPositiveEquity];
    }
    if |b.positions| >= config.maximumPositions {
      reasons := reasons + [MaximumPositions];
    }
    if Drawdown(b) >= config.halt {
      reasons := reasons + [DrawdownHalt];
    }
    if b.daily <= -(base * config.dailyLimitR) {
      reasons := reasons + [DailyLossLimit];
    }
    if b.weekly <= -(base * config.weeklyLimitR) {
      reasons := reasons + [WeeklyLossLimit];
    }
  }

  method SumOpenRisk(positions: seq<Holding>) returns (sum: real)
    ensures sum == OpenRisk(positions)
  {
    sum := 0.0;
    for k := 0 to |positions|
      invariant sum == OpenRisk(positions[..k])
    {
      assert positions[..k + 1][..k] == positions[..k];
      sum := sum + positions[k].openRisk;
    }
    assert positions[..|positions|] == positions;
  }

  /** What the engine approves risks no more than the throttled per-trade budget, and neither the
      book's open risk nor its correlated risk passes its share of the equity. */
  lemma EngineBounds(config: RiskConfig, b: Book, entry: real, stop: real, cost: real, lot: int)
    requires lot > 0 && Engine(config, b, entry, stop, cost, lot).approved
    ensures
      var a := Engine(config, b, entry, stop, cost, lot);
      && lot <= a.quantity && a.quantity % lot == 0
      && UnitRisk(entry, stop, cost) > 0.0
      && a.quantity as real * UnitRisk(entry, stop, cost) <= a.budget == BaseRisk(config, b)
      && OpenRisk(b.positions) + a.loss <= b.equity * config.maximumOpenRisk
      && b.correlated + a.loss <= b.equity * config.maximumCorrelatedRisk
  {
    hide BaseRisk, Drawdown, UnitRisk, OpenRisk;
    var unit := UnitRisk(entry, stop, cost);
    var a := Engine(config, b, entry, stop, cost, lot);
    assert unit > 0.0 && a.quantity == EngineQuantity(config, b, unit, lot);
    LotsWithinGreatest(a.quantity, BaseRisk(config, b) / unit, lot);
    LeDiv(a.quantity as real, BaseRisk(config, b), unit);
  }

  /** The numeric part of `DeterministicRiskPolicy.evaluate`; `gatesOpen` stands for the
      emergency, calendar and freshness gates, which only add reasons. */
  function Policy(config: RiskConfig, b: Book, entry: real, stop: real, cost: real, lot: int,
                  maximumQuantity: int, gatesOpen: bool): Assessment
    requires lot > 0
  {
    if b.highWatermark <= 0.0 || b.correlated < 0.0 || cost < 0.0 || (exists k :: 0 <= k < |b.positions| && b.positions[k].quantity <= 0)
    then Assessment(false, 0, 0.0, 0.0, If(!gatesOpen, GateClosed) + [InvalidProposalOrPortfolio])
    else
      var base := Engine(config, b, entry, stop, cost, lot);
      var quantity := WholeLots(MinInt(base.quantity, maximumQuantity), lot);
      var loss := UnitRisk(entry, stop, cost) * quantity as real;
      var reasons := If(!gatesOpen, GateClosed) + base.reasons + If(quantity <= 0, NoPermittedQuantity)
        + If(loss > b.equity * config.maximumRiskPerTrade, MaximumTradeRisk);
      Assessment(reasons == [], if reasons == [] then quantity else 0, base.budget, loss, reasons)
  }

  lemma PolicyWithinEngine(config: RiskConfig, b: Book, entry: real, stop: real, cost: real, lot: int,
                           maximumQuantity: int, gatesOpen: bool)
    requires lot > 0 && Policy(config, b, entry, stop, cost, lot, maximumQuantity, gatesOpen).approved
    ensures
      var a := Policy(config, b, entry, stop, cost, lot, maximumQuantity, gatesOpen);
      && 0 < a.quantity <= maximumQuantity && a.quantity % lot == 0
      && a.quantity as real * UnitRisk(entry, stop, cost) <= a.budget
      && a.loss <= b.equity * config.maximumRiskPerTrade
  {
    hide Engine, UnitRisk;
    var base := Engine(config, b, entry, stop, cost, lot);
    var a := Policy(config, b, entry, stop, cost, lot, maximumQuantity, gatesOpen);
    assert base.reasons == [];
    EngineApproves(config, b, entry, stop, cost, lot);
    EngineBounds(config, b, entry, stop, cost, lot);
    MulLe(a.quantity as real, base.quantity as real, UnitRisk(entry, stop, cost));
  }

  lemma EngineApproves(config: RiskConfig, b: Book, entry: real, stop: real, cost: real, lot: int)
    requires lot > 0
    ensures
      var a := Engine(config, b, entry, stop, cost, lot);
      a.approved <==> a.reasons == []
  {
    hide BaseRisk, UnitRisk, EngineQuantity, Drawdown, OpenRisk;
  }

  // ---------------------------------------------------------------- the decision core

  /** The allowance `process` adds per unit: entry and exit slippage and fees, and two ticks. */
  function CostAllowance(mark: real, rules: FillRules, tick: real): real {
    mark * (rules.slippage + rules.fee) * 4.0 + tick * 2.0
  }

  /** One decision, from the quote through sizing and risk: the plan and the assessment. */
  datatype Decision = Decision(input: SizingInput, plan: Plan, risk: Assessment)

  /** How `process` ties its parts together: the same equity and allowance enter sizing and risk,
      the plan caps the policy's quantity, and only an approval of exactly the planned quantity is
      submitted. */
  predicate Submittable(d: Decision, sizing: SizingRules, config: RiskConfig, b: Book, rules: FillRules,
                        instrument: Tradable, policyCap: int, gatesOpen: bool)
  {
    var i := d.input;
    && d.plan == PlanFor(i, sizing) && d.plan.reasons == []
    && i.tick == instrument.tick && i.lot == instrument.lot
    && i.roundTripCost == CostAllowance(i.reference, rules, i.tick)
    && i.entryCost == i.reference * rules.fee && i.equity == b.equity
    && d.risk == Policy(config, b, d.plan.prices.value.entry, d.plan.prices.value.stop, i.roundTripCost, i.lot,
                        MinInt(policyCap, d.plan.quantity), gatesOpen)
    && d.risk.approved && d.risk.quantity == d.plan.quantity
  }

  /** The order `process` submits, pending in the simulator. */
  predicate OrderOf(o: Order, d: Decision, instrument: Tradable)
    requires d.plan.prices.Some?
  {
    && o.instrument == instrument && o.long == d.input.long && o.quantity == d.plan.quantity
    && o.stop == d.plan.prices.value.stop && o.target == d.plan.prices.value.target
    && o.budget == d.risk.budget
  }

  lemma ProductLe(a: real, b: real, u: real, v: real)
    requires 0.0 <= a <= b && 0.0 <= u <= v
    ensures a * u <= b * v
  {
    MulLe(a, b, u);
    MulLe(u, v, b);
  }

  /** One long unit: the fill is at most a slipped ask plus a tick, the projected stop at least a
      slipped stop less a tick, and their distance with both fees fits the allowance. */
  lemma LongUnitRisk(rules: FillRules, ask: real, entry: real, stop: real, tick: real, fill: real, projected: real)
    requires 0.0 < tick && ask <= entry < ask + tick && tick <= stop <= entry - tick
    requires fill < ask + ask * rules.slippage + tick && stop - stop * rules.slippage - tick < projected <= stop
    ensures fill - projected + fill * rules.fee + projected * rules.fee <= entry - stop + CostAllowance(ask, rules, tick)
  {
    MulLe(stop, ask, rules.slippage);
    MulLe(0.0, ask, rules.slippage);
    AllowanceParts(ask, rules, tick);
    hide CostAllowance;
    LongFees(ask, tick, stop, fill, projected, ask * rules.slippage, stop * rules.slippage, rules.fee);
  }

  lemma AllowanceParts(mark: real, rules: FillRules, tick: real)
    ensures CostAllowance(mark, rules, tick) == (mark * rules.slippage + mark * rules.fee) * 4.0 + tick * 2.0
  {
    assert mark * (rules.slippage + rules.fee) == mark * rules.slippage + mark * rules.fee;
  }

  lemma LongFees(ask: real, tick: real, stop: real, fill: real, projected: real, slippage: real, stopSlip: real, fee: real)
    requires 0.0 <= fee < 1.0 && 0.0 < tick <= ask && stop <= ask && 0.0 <= slippage && stopSlip <= slippage
    requires fill < ask + slippage + tick && stop - stopSlip - tick < projected <= stop
    ensures fill - projected + fill * fee + projected * fee <= ask - stop + (slippage + ask * fee) * 4.0 + tick * 2.0
  {
    MulLe(projected, ask, fee);
    MulLe(fill, ask + slippage + tick, fee);
    Distribute(ask, slippage, tick, fee);
    MulLe(tick, ask, fee);
    MulLe(0.0, tick, fee);
    MulLe(fee, 1.0, slippage);
    LongSum(ask, stop, tick, fill, projected, slippage, ask * fee, stopSlip, fill * fee, projected * fee, slippage * fee, tick * fee);
  }

  lemma LongSum(ask: real, stop: real, tick: real, fill: real, projected: real, slippage: real, fees: real,
                stopSlip: real, fillFee: real, stopFee: real, cross: real, tickFee: real)
    requires fill < ask + slippage + tick && stop - stopSlip - tick < projected
    requires stopSlip <= slippage && stopFee <= fees && fillFee <= fees + cross + tickFee && tickFee <= fees && cross <= slippage
    requires slippage >= 0.0 && tickFee >= 0.0
    ensures fill - projected + fillFee + stopFee <= ask - stop + (slippage + fees) * 4.0 + tick * 2.0
  {
  }

  /** One short unit, when the stop is at most twice the bid. */
  lemma ShortUnitRisk(rules: FillRules, bid: real, entry: real, stop: real, tick: real, fill: real, projected: real)
    requires rules.fee <= 0.5 && 0.0 < tick && tick <= entry <= bid < entry + tick && entry < stop <= 2.0 * bid
    requires bid - bid * rules.slippage - tick < fill <= bid && stop <= projected < stop + stop * rules.slippage + tick
    ensures projected - fill + fill * rules.fee + projected * rules.fee <= stop - entry + CostAllowance(bid, rules, tick)
  {
    MulLe(stop, bid + bid, rules.slippage);
    Distribute(bid, bid, 0.0, rules.slippage);
    MulLe(0.0, bid, rules.slippage);
    AllowanceParts(bid, rules, tick);
    hide CostAllowance;
    ShortFees(bid, tick, stop, fill, projected, bid * rules.slippage, stop * rules.slippage, rules.fee);
  }

  lemma ShortFees(bid: real, tick: real, stop: real, fill: real, projected: real, slippage: real, stopSlip: real, fee: real)
    requires 0.0 <= fee <= 0.5 && 0.0 < tick <= bid && stop <= 2.0 * bid && 0.0 <= slippage && stopSlip <= 2.0 * slippage
    requires bid - slippage - tick < fill <= bid && projected < stop + stopSlip + tick
    ensures projected - fill + fill * fee + projected * fee <= stop - bid + (slippage + bid * fee) * 4.0 + tick * 2.0
  {
    MulLe(fill, bid, fee);
    ShortStopFee(bid, slippage, projected, fee);
    MulLe(fee, 0.5, slippage);
    ShortSum(bid, stop, tick, fill, projected, slippage, bid * fee, stopSlip, fill * fee, projected * fee, slippage * fee);
  }

  lemma ShortSum(bid: real, stop: real, tick: real, fill: real, projected: real, slippage: real, fees: real,
                 stopSlip: real, fillFee: real, stopFee: real, cross: real)
    requires bid - slippage - tick < fill && projected < stop + stopSlip + tick
    requires stopSlip <= 2.0 * slippage && fillFee <= fees && stopFee <= 3.0 * fees + 2.0 * cross && 2.0 * cross <= slippage
    ensures projected - fill + fillFee + stopFee <= stop - bid + (slippage + fees) * 4.0 + tick * 2.0
  {
  }

  lemma ShortStopFee(bid: real, slippage: real, projected: real, fee: real)
    requires projected <= 3.0 * bid + 2.0 * slippage && fee >= 0.0
    ensures projected * fee <= 3.0 * (bid * fee) + 2.0 * (slippage * fee)
  {
    MulLe(projected, 3.0 * bid + 2.0 * slippage, fee);
  }

  lemma Distribute(a: real, b: real, c: real, u: real)
    ensures (a + b + c) * u == a * u + b * u + c * u
  {
  }

  // ---------------------------------------------------------------- the chain

  /** Rounded plan prices sit within a tick of what they round and, when all are positive, at
      least a tick from zero and from each other. */
  lemma PlanPriceBounds(i: SizingInput, sizing: SizingRules)
    requires InputUsable(i) && (sizing.stopMethod.Atr? ==> i.atr.Some?)
    requires PricesOrdered(PricesFor(i, sizing), i.long)
    ensures
      var p := PricesFor(i, sizing);
      if i.long then i.reference <= p.entry < i.reference + i.tick && i.tick <= p.stop <= p.entry - i.tick
      else i.tick <= p.entry <= i.reference < p.entry + i.tick && p.entry + i.tick <= p.stop
  {
    hide RoundedPrice, StopDistanceFor, Reach;
    var p := PricesFor(i, sizing);
    RoundedNear(i.reference, i.tick, i.long);
    var raw := RawStop(i, sizing);
    assert p.stop == RoundedPrice(raw, i.tick, !i.long);
    hide PricesFor, RawStop;
    RoundedApart(i.reference, i.tick, i.long, raw, !i.long);
  }

  /** The stop before it is rounded. */
  function RawStop(i: SizingInput, sizing: SizingRules): real
    requires i.tick > 0.0 && (sizing.stopMethod.Atr? ==> i.atr.Some?)
  {
    var entry := PricesFor(i, sizing).entry;
    if i.long then entry - StopDistanceFor(i, sizing, entry) else entry + StopDistanceFor(i, sizing, entry)
  }

  lemma RoundedApart(x: real, tick: real, xUp: bool, y: real, yUp: bool)
    requires tick > 0.0 && RoundedPrice(x, tick, xUp) > 0.0 && RoundedPrice(y, tick, yUp) > 0.0
    ensures
      var a, b := RoundedPrice(x, tick, xUp), RoundedPrice(y, tick, yUp);
      a >= tick && b >= tick && (a > b ==> a >= b + tick) && (b > a ==> b >= a + tick)
  {
    hide RoundedPrice;
    var a, b := RoundedTick(x, tick, xUp), RoundedTick(y, tick, yUp);
    var p, q := RoundedPrice(x, tick, xUp), RoundedPrice(y, tick, yUp);
    hide RoundedTick;
    TicksApart(a, 0, tick, p, 0.0);
    TicksApart(b, 0, tick, q, 0.0);
    TicksApart(a, b, tick, p, q);
    TicksApart(b, a, tick, q, p);
  }

  function RoundedTick(x: real, tick: real, up: bool): (k: int)
    requires tick > 0.0
    ensures RoundedPrice(x, tick, up) == k as real * tick
  {
    if up then CeilInt(x / tick) else FloorInt(x / tick)
  }

  lemma RoundedNear(x: real, tick: real, up: bool)
    requires tick > 0.0
    ensures if up then x <= RoundedPrice(x, tick, up) < x + tick else RoundedPrice(x, tick, up) <= x < RoundedPrice(x, tick, up) + tick
  {
    FloorTickGreatest(x, tick, 0);
    CeilTickLeast(x, tick, 0);
  }

  lemma TicksApart(a: int, b: int, tick: real, x: real, y: real)
    requires tick > 0.0 && x == a as real * tick && y == b as real * tick
    ensures x > y ==> x >= y + tick
  {
    if a > b {
      MulLe(1.0, (a - b) as real, tick);
    } else {
      MulLe((a - b) as real, 0.0, tick);
    }
    assert (a - b) as real * tick == x - y by {
      Distribute((a - b) as real, b as real, 0.0, tick);
    }
  }

  /** Long plans, and short plans whose stop is at most twice the entry under a fee of at most one
      half: where the allowance on the entry price covers the slippage and fees of the stop. */
  predicate CostsCovered(long: bool, p: Prices, rules: FillRules) {
    long || (p.stop <= 2.0 * p.entry && rules.fee <= 0.5)
  }

  /** A reward multiple of at least one keeps a short's stop within twice its entry, because its
      target would otherwise not be positive. */
  lemma ShortStopBounded(i: SizingInput, sizing: SizingRules)
    requires InputUsable(i) && (sizing.stopMethod.Atr? ==> i.atr.Some?) && !i.long && sizing.rewardMultiple >= 1.0
    requires PricesOrdered(PricesFor(i, sizing), false)
    ensures
      var p := PricesFor(i, sizing);
      p.stop <= 2.0 * p.entry
  {
    hide RoundedPrice, StopDistanceFor, Reach;
    var p := PricesFor(i, sizing);
    ReachBound(p.entry, p.stop, sizing.rewardMultiple, i.tick);
  }

  lemma ReachBound(entry: real, stop: real, multiple: real, tick: real)
    requires tick > 0.0 && stop > entry && multiple >= 1.0
    requires RoundedPrice(entry - Reach(entry, stop, multiple), tick, false) > 0.0
    ensures stop <= 2.0 * entry
  {
    hide RoundedPrice;
    RoundedNear(entry - Reach(entry, stop, multiple), tick, false);
    MulLe(1.0, multiple, Abs(entry - stop));
  }

  /** Distance from fill to projected stop with both fees: what the fill gate charges one unit. */
  function GateUnit(rules: FillRules, fill: real, projected: real): real {
    Abs(fill - projected) + fill * rules.fee + projected * rules.fee
  }

  /** The per-unit risk the fill gate will measure is covered by the unit risk sizing and the
      risk engine budgeted. */
  lemma UnitRiskCovered(i: SizingInput, sizing: SizingRules, rules: FillRules, instrument: Tradable, tick: Tick)
    requires InputUsable(i) && (sizing.stopMethod.Atr? ==> i.atr.Some?)
    requires PricesOrdered(PricesFor(i, sizing), i.long) && CostsCovered(i.long, PricesFor(i, sizing), rules)
    requires i.tick == instrument.tick && tick.instrument == instrument
    requires i.reference == if i.long then tick.ask else tick.bid
    ensures
      var p := PricesFor(i, sizing);
      var fill := ExecPrice(rules, tick, i.long);
      && GateUnit(rules, fill, ProjectedStop(rules, instrument, i.long, p.stop))
           <= UnitRisk(p.entry, p.stop, CostAllowance(i.reference, rules, i.tick))
      && (if i.long then p.stop < fill else fill < p.stop)
  {
    hide PricesFor, ExecPrice, ProjectedStop, CostAllowance, GateUnit, UnitRisk;
    var p := PricesFor(i, sizing);
    PlanPriceBounds(i, sizing);
    hide PricesOrdered, InputUsable;
    if i.long {
      LongUnitCovered(rules, tick, p.entry, p.stop);
    } else {
      ShortUnitCovered(rules, tick, p.entry, p.stop);
    }
  }

  lemma LongUnitCovered(rules: FillRules, tick: Tick, entry: real, stop: real)
    requires tick.ask <= entry < tick.ask + tick.instrument.tick && tick.instrument.tick <= stop <= entry - tick.instrument.tick
    ensures
      var fill := ExecPrice(rules, tick, true);
      && GateUnit(rules, fill, ProjectedStop(rules, tick.instrument, true, stop))
           <= UnitRisk(entry, stop, CostAllowance(tick.ask, rules, tick.instrument.tick))
      && stop < fill
  {
    hide ExecPrice, ProjectedStop, CostAllowance, Abs;
    var fill, projected := ExecPrice(rules, tick, true), ProjectedStop(rules, tick.instrument, true, stop);
    FillNear(rules, tick, true);
    ProjectedNear(rules, tick.instrument, true, stop);
    LongUnitRisk(rules, tick.ask, entry, stop, tick.instrument.tick, fill, projected);
    AbsOrdered(entry, stop);
    AbsOrdered(fill, projected);
  }

  lemma ShortUnitCovered(rules: FillRules, tick: Tick, entry: real, stop: real)
    requires rules.fee <= 0.5 && tick.instrument.tick <= entry <= tick.bid < entry + tick.instrument.tick
    requires entry + tick.instrument.tick <= stop <= 2.0 * entry
    ensures
      var fill := ExecPrice(rules, tick, false);
      && GateUnit(rules, fill, ProjectedStop(rules, tick.instrument, false, stop))
           <= UnitRisk(entry, stop, CostAllowance(tick.bid, rules, tick.instrument.tick))
      && fill < stop
  {
    hide ExecPrice, ProjectedStop, CostAllowance, Abs;
    var fill, projected := ExecPrice(rules, tick, false), ProjectedStop(rules, tick.instrument, false, stop);
    FillNear(rules, tick, false);
    ProjectedNear(rules, tick.instrument, false, stop);
    ShortUnitRisk(rules, tick.bid, entry, stop, tick.instrument.tick, fill, projected);
    AbsOrdered(stop, entry);
    AbsOrdered(projected, fill);
  }

  lemma AbsOrdered(a: real, b: real)
    requires a >= b
    ensures Abs(a - b) == a - b && Abs(b - a) == a - b
  {
  }

  lemma FillNear(rules: FillRules, tick: Tick, buy: bool)
    requires if buy then tick.ask > 0.0 else tick.bid > 0.0
    ensures
      var fill := ExecPrice(rules, tick, buy);
      if buy then tick.ask <= fill < tick.ask + tick.ask * rules.slippage + tick.instrument.tick
      else tick.bid - tick.bid * rules.slippage - tick.instrument.tick < fill <= tick.bid
  {
    hide CeilTick, FloorTick, Slipped;
    if buy {
      var raw := Slipped(rules, tick.ask, true);
      CeilTickLeast(raw, tick.instrument.tick, 0);
      SlippedBy(rules, tick.ask, true);
      SlippedSide(rules, tick.ask, true);
    } else {
      var raw := Slipped(rules, tick.bid, false);
      FloorTickGreatest(raw, tick.instrument.tick, 0);
      SlippedBy(rules, tick.bid, false);
      SlippedSide(rules, tick.bid, false);
    }
  }

  lemma SlippedBy(rules: FillRules, price: real, up: bool)
    ensures Slipped(rules, price, up) == if up then price + price * rules.slippage else price - price * rules.slippage
  {
  }

  lemma ProjectedNear(rules: FillRules, instrument: Tradable, long: bool, stop: real)
    requires stop > 0.0
    ensures
      var projected := ProjectedStop(rules, instrument, long, stop);
      if long then stop - stop * rules.slippage - instrument.tick < projected <= stop
      else stop <= projected < stop + stop * rules.slippage + instrument.tick
  {
    hide CeilTick, FloorTick, Slipped;
    ProjectedBeyondStop(rules, instrument, long, stop);
    var raw := Slipped(rules, stop, !long);
    SlippedBy(rules, stop, !long);
    if long {
      FloorTickGreatest(raw, instrument.tick, 0);
    } else {
      CeilTickLeast(raw, instrument.tick, 0);
    }
  }

  // ---------------------------------------------------------------- the fill gate

  lemma FillRiskPerUnit(rules: FillRules, instrument: Tradable, long: bool, quantity: int, stop: real, fill: real)
    ensures FillRisk(rules, instrument, long, quantity, stop, fill)
         == GateUnit(rules, fill, ProjectedStop(rules, instrument, long, stop)) * quantity as real
  {
    hide Abs, ProjectedStop;
    var projected, q := ProjectedStop(rules, instrument, long, stop), quantity as real;
    Distribute(Abs(fill - projected), fill * rules.fee, projected * rules.fee, q);
    Swap(fill, q, rules.fee);
    Swap(projected, q, rules.fee);
  }

  lemma Swap(a: real, b: real, c: real)
    ensures a * b * c == a * c * b
  {
  }

  /** An accepted plan's target lies farther from the entry than the whole cost allowance. */
  lemma TargetClearsCosts(i: SizingInput, sizing: SizingRules)
    requires PlanFor(i, sizing).reasons == []
    ensures
      var p := PlanFor(i, sizing).prices.value;
      && InputUsable(i) && (sizing.stopMethod.Atr? ==> i.atr.Some?) && p == PricesFor(i, sizing) && PricesOrdered(p, i.long)
      && Abs(p.target - p.entry) > i.roundTripCost
  {
    hide PricesFor, Cap, LotsWithin, RiskBudgetOf, Abs;
    var p := PricesFor(i, sizing);
    LossPositive(p, i);
    assert UnitReward(p, i) / UnitLoss(p, i) >= sizing.minimumRewardRisk;
    LeDiv(sizing.minimumRewardRisk, UnitReward(p, i), UnitLoss(p, i));
    ProductPositive(sizing.minimumRewardRisk, UnitLoss(p, i));
  }

  lemma LossPositive(p: Prices, i: SizingInput)
    requires InputUsable(i) && PricesOrdered(p, i.long)
    ensures UnitLoss(p, i) > 0.0
  {
  }

  /** On the quote that priced it, an accepted plan always fills at a positive price between its
      stop and its target. */
  lemma GeometryHolds(i: SizingInput, sizing: SizingRules, rules: FillRules, tick: Tick)
    requires PlanFor(i, sizing).reasons == []
    requires i.tick == tick.instrument.tick && i.reference == if i.long then tick.ask else tick.bid
    requires i.roundTripCost == CostAllowance(i.reference, rules, i.tick)
    ensures
      var p := PlanFor(i, sizing).prices.value;
      var fill := ExecPrice(rules, tick, i.long);
      fill > 0.0 && if i.long then p.stop < fill < p.target else p.target < fill < p.stop
  {
    hide PlanFor, PricesFor, CostAllowance, ExecPrice;
    TargetClearsCosts(i, sizing);
    PlanPriceBounds(i, sizing);
    var p := PlanFor(i, sizing).prices.value;
    var fill := ExecPrice(rules, tick, i.long);
    hide Abs;
    if i.long {
      FillNear(rules, tick, true);
      AllowanceExceedsSlip(tick.ask, rules, i.tick);
      AbsOrdered(p.target, p.entry);
      FillClearsTarget(tick.ask, p.entry, p.target, fill, tick.ask * rules.slippage, i.tick, i.roundTripCost);
    } else {
      FillNear(rules, tick, false);
      AllowanceExceedsSlip(tick.bid, rules, i.tick);
      AbsOrdered(p.entry, p.target);
      FillClearsTarget(-tick.bid, -p.entry, -p.target, -fill, tick.bid * rules.slippage, i.tick, i.roundTripCost);
    }
  }

  lemma FillClearsTarget(mark: real, entry: real, target: real, fill: real, slip: real, tick: real, allowance: real)
    requires mark <= entry && fill < mark + slip + tick && target - entry > allowance >= slip + tick
    ensures fill < target
  {
  }

  lemma AllowanceExceedsSlip(mark: real, rules: FillRules, tick: real)
    requires mark > 0.0 && tick > 0.0
    ensures CostAllowance(mark, rules, tick) >= mark * rules.slippage + tick
  {
    AllowanceParts(mark, rules, tick);
    hide CostAllowance;
    MulLe(0.0, mark, rules.slippage);
    MulLe(0.0, mark, rules.fee);
  }

  // ---------------------------------------------------------------- when the risk half passes

  /** What the fill gate will charge one unit fits what sizing and risk charged it: a comparison of
      the plan, the quote and the fill rules, made before anything is submitted. */
  predicate RiskGateFits(i: SizingInput, p: Prices, rules: FillRules, tick: Tick) {
    GateUnit(rules, ExecPrice(rules, tick, i.long), ProjectedStop(rules, tick.instrument, i.long, p.stop))
      <= UnitRisk(p.entry, p.stop, i.roundTripCost)
  }

  /** The plan was accepted with the costs the decision core adds. */
  predicate Charged(i: SizingInput, sizing: SizingRules, rules: FillRules, instrument: Tradable) {
    && PlanFor(i, sizing).reasons == []
    && i.tick == instrument.tick && i.lot == instrument.lot
    && i.roundTripCost == CostAllowance(i.reference, rules, i.tick) && i.entryCost == i.reference * rules.fee
  }

  /** This quote priced the plan. */
  predicate PricedBy(i: SizingInput, tick: Tick) {
    i.reference == if i.long then tick.ask else tick.bid
  }

  /** However the risk engine is configured and whatever the book, no order submitted for this plan
      exceeds its approved budget when this quote fills it. */
  ghost predicate RiskNeverRefuses(i: SizingInput, sizing: SizingRules, rules: FillRules, tick: Tick)
    requires PlanFor(i, sizing).reasons == []
  {
    forall d: Decision, config, b, policyCap, gatesOpen ::
      d.input == i && Submittable(d, sizing, config, b, rules, tick.instrument, policyCap, gatesOpen) ==>
        FillRisk(rules, tick.instrument, i.long, d.plan.quantity, PlanFor(i, sizing).prices.value.stop, ExecPrice(rules, tick, i.long))
          <= d.risk.budget
  }

  /** On any quote, the one that priced the plan or a later one, the risk half of the fill gate passes
      every submitted order of the plan if and only if the per-unit comparison holds: where it fails,
      some configuration and book approve exactly the planned quantity with no slack, and the fill
      exceeds that budget. */
  lemma RiskHalfIff(i: SizingInput, sizing: SizingRules, rules: FillRules, tick: Tick)
    requires Charged(i, sizing, rules, tick.instrument)
    ensures RiskNeverRefuses(i, sizing, rules, tick) <==> RiskGateFits(i, PlanFor(i, sizing).prices.value, rules, tick)
  {
    hide PlanFor, Submittable, FillRisk, ExecPrice, RiskGateFits;
    if RiskGateFits(i, PlanFor(i, sizing).prices.value, rules, tick) {
      forall d: Decision, config, b, policyCap, gatesOpen
        | d.input == i && Submittable(d, sizing, config, b, rules, tick.instrument, policyCap, gatesOpen)
        ensures FillRisk(rules, tick.instrument, i.long, d.plan.quantity, PlanFor(i, sizing).prices.value.stop, ExecPrice(rules, tick, i.long))
                  <= d.risk.budget
      {
        SubmittedPlan(d, sizing, config, b, rules, tick.instrument, policyCap, gatesOpen);
        SubmittedWithinBudget(d, sizing, config, b, rules, policyCap, gatesOpen, tick);
      }
    } else {
      var q := PlanFor(i, sizing).quantity;
      TightRefused(i, sizing, rules, tick);
      assert Submittable(TightDecision(i, sizing), sizing, TightConfig(TightShare(i, sizing)), TightBook(i), rules, tick.instrument, q, true);
    }
  }

  lemma SubmittedPlan(d: Decision, sizing: SizingRules, config: RiskConfig, b: Book, rules: FillRules,
                      instrument: Tradable, policyCap: int, gatesOpen: bool)
    requires Submittable(d, sizing, config, b, rules, instrument, policyCap, gatesOpen)
    ensures d.plan == PlanFor(d.input, sizing) && d.plan.prices.Some?
  {
    hide PlanFor, Policy;
  }

  lemma SubmittedWithinBudget(d: Decision, sizing: SizingRules, config: RiskConfig, b: Book, rules: FillRules,
                              policyCap: int, gatesOpen: bool, tick: Tick)
    requires Submittable(d, sizing, config, b, rules, tick.instrument, policyCap, gatesOpen)
    requires RiskGateFits(d.input, d.plan.prices.value, rules, tick)
    ensures FillRisk(rules, tick.instrument, d.input.long, d.plan.quantity, d.plan.prices.value.stop, ExecPrice(rules, tick, d.input.long))
              <= d.risk.budget
  {
    hide PlanFor, Policy, CostAllowance, ExecPrice, GateUnit, UnitRisk, ProjectedStop, FillRisk;
    var i, p := d.input, d.plan.prices.value;
    var fill := ExecPrice(rules, tick, i.long);
    UsableInput(i, sizing);
    PolicyWithinEngine(config, b, p.entry, p.stop, i.roundTripCost, i.lot, MinInt(policyCap, d.plan.quantity), gatesOpen);
    FillRiskPerUnit(rules, tick.instrument, i.long, d.plan.quantity, p.stop, fill);
    MulLe(GateUnit(rules, fill, ProjectedStop(rules, tick.instrument, i.long, p.stop)),
          UnitRisk(p.entry, p.stop, i.roundTripCost), d.plan.quantity as real);
  }

  lemma UsableInput(i: SizingInput, sizing: SizingRules)
    requires PlanFor(i, sizing).reasons == []
    ensures InputUsable(i) && PlanFor(i, sizing).quantity > 0 && PlanFor(i, sizing).quantity % i.lot == 0
  {
    hide PricesFor, Cap, RiskBudgetOf, UnitLoss, UnitReward;
  }

  // ---------------------------------------------------------------- a book without slack

  /** The planned quantity's unit risk as a share of the equity: less than all of it, because the
      plan kept its loss within a fraction of the equity. */
  function TightShare(i: SizingInput, sizing: SizingRules): real
    requires PlanFor(i, sizing).reasons == [] && i.equity > 0.0
  {
    var p := PlanFor(i, sizing).prices.value;
    PlanFor(i, sizing).quantity as real * UnitRisk(p.entry, p.stop, i.roundTripCost) / i.equity
  }

  function TightConfig(share: real): RiskConfig
    requires 0.0 < share < 1.0
  {
    RiskValues(share, share, share, share, 1.0, 1.0, 0.1, 0.2, 1)
  }

  function TightBook(i: SizingInput): Book {
    Book(i.equity, i.equity, 0.0, 0.0, [], 0.0)
  }

  function TightDecision(i: SizingInput, sizing: SizingRules): Decision
    requires PlanFor(i, sizing).reasons == []
  {
    TightShareInRange(i, sizing);
    var plan := PlanFor(i, sizing);
    var p := plan.prices.value;
    Decision(i, plan, Policy(TightConfig(TightShare(i, sizing)), TightBook(i), p.entry, p.stop, i.roundTripCost, i.lot,
                             plan.quantity, true))
  }

  lemma TightShareInRange(i: SizingInput, sizing: SizingRules)
    requires PlanFor(i, sizing).reasons == []
    ensures InputUsable(i) && PlanFor(i, sizing).quantity > 0 && PlanFor(i, sizing).quantity % i.lot == 0
    ensures 0.0 < TightShare(i, sizing) < 1.0
    ensures
      var p := PlanFor(i, sizing).prices.value;
      && UnitRisk(p.entry, p.stop, i.roundTripCost) > 0.0
      && i.equity * TightShare(i, sizing) == PlanFor(i, sizing).quantity as real * UnitRisk(p.entry, p.stop, i.roundTripCost)
  {
    hide PlanFor, UnitRisk;
    UsableInput(i, sizing);
    UnitRiskPositive(i, sizing);
    LossBelowEquity(i, sizing);
    var p, q := PlanFor(i, sizing).prices.value, PlanFor(i, sizing).quantity as real;
    var loss := q * UnitRisk(p.entry, p.stop, i.roundTripCost);
    ProductPositive(q, UnitRisk(p.entry, p.stop, i.roundTripCost));
    assert TightShare(i, sizing) == loss / i.equity;
    hide TightShare;
    ShareOfEquity(loss, i.equity);
  }

  lemma LossBelowEquity(i: SizingInput, sizing: SizingRules)
    requires PlanFor(i, sizing).reasons == []
    ensures
      var plan := PlanFor(i, sizing);
      var p := plan.prices.value;
      plan.quantity as real * UnitRisk(p.entry, p.stop, i.roundTripCost) < i.equity
  {
    hide PlanFor, RiskBudgetOf, PricesFor, Cap;
    UsableInput(i, sizing);
    PlanIsLargest(i, sizing, PlanFor(i, sizing).quantity);
    BudgetBelowEquity(i, sizing);
  }

  lemma BudgetBelowEquity(i: SizingInput, sizing: SizingRules)
    requires PlanFor(i, sizing).reasons == []
    ensures i.equity > 0.0 && PlanFor(i, sizing).budget < i.equity
  {
    hide PricesFor, Cap, LotsWithin, UnitLoss, UnitReward;
    MulLt(Min(sizing.riskFraction, sizing.maximumRiskFraction), 1.0, i.equity);
  }

  lemma ShareOfEquity(x: real, equity: real)
    requires equity > 0.0
    ensures equity * (x / equity) == x
    ensures 0.0 < x < equity ==> 0.0 < x / equity < 1.0
  {
    LeDiv(0.0, x, equity);
    LeDiv(1.0, x, equity);
  }

  /** A book and configuration whose every limit is met exactly by the planned quantity approve it
      with a budget of exactly its unit risk. */
  lemma TightApproval(share: real, equity: real, entry: real, stop: real, cost: real, lot: int, q: int)
    requires lot > 0 && q > 0 && q % lot == 0 && equity > 0.0 && cost >= 0.0 && UnitRisk(entry, stop, cost) > 0.0
    requires 0.0 < share < 1.0 && equity * share == q as real * UnitRisk(entry, stop, cost)
    ensures
      var a := Policy(TightConfig(share), Book(equity, equity, 0.0, 0.0, [], 0.0), entry, stop, cost, lot, q, true);
      a.approved && a.quantity == q && a.budget == q as real * UnitRisk(entry, stop, cost)
  {
    hide UnitRisk, Engine;
    var b := Book(equity, equity, 0.0, 0.0, [], 0.0);
    TightEngine(share, equity, entry, stop, cost, lot, q);
    WholeLotsGreatest(q, q, lot);
    hide WholeLots;
    assert MinInt(q, q) == q;
  }

  lemma TightEngine(share: real, equity: real, entry: real, stop: real, cost: real, lot: int, q: int)
    requires lot > 0 && q > 0 && q % lot == 0 && equity > 0.0 && UnitRisk(entry, stop, cost) > 0.0
    requires 0.0 < share < 1.0 && equity * share == q as real * UnitRisk(entry, stop, cost)
    ensures
      var e := Engine(TightConfig(share), Book(equity, equity, 0.0, 0.0, [], 0.0), entry, stop, cost, lot);
      e.reasons == [] && e.quantity == q && e.budget == q as real * UnitRisk(entry, stop, cost)
  {
    hide UnitRisk, Engine, EngineQuantity, BookReasons, BaseRisk;
    var config, b := TightConfig(share), Book(equity, equity, 0.0, 0.0, [], 0.0);
    var unit := UnitRisk(entry, stop, cost);
    NoDrawdown(config, b);
    TightQuantity(config, b, unit, lot, q);
    LotsAtLeastOne(q, lot);
    QuietBook(config, b);
    Commute(unit, q as real);
    EngineQuiet(config, b, entry, stop, cost, lot, unit * q as real);
  }

  lemma TightQuantity(config: RiskConfig, b: Book, unit: real, lot: int, q: int)
    requires lot > 0 && q % lot == 0 && unit > 0.0 && BaseRisk(config, b) == q as real * unit
    ensures EngineQuantity(config, b, unit, lot) == q
  {
    hide LotsWithin, BaseRisk;
    ExactLots(q, unit, lot);
  }

  lemma EngineQuiet(config: RiskConfig, b: Book, entry: real, stop: real, cost: real, lot: int, loss: real)
    requires lot > 0 && b.positions == [] && b.correlated == 0.0 && UnitRisk(entry, stop, cost) > 0.0
    requires BookReasons(config, b, BaseRisk(config, b)) == []
    requires EngineQuantity(config, b, UnitRisk(entry, stop, cost), lot) >= lot
    requires loss == UnitRisk(entry, stop, cost) * EngineQuantity(config, b, UnitRisk(entry, stop, cost), lot) as real
    requires loss <= b.equity * config.maximumOpenRisk && loss <= b.equity * config.maximumCorrelatedRisk
    ensures
      var e := Engine(config, b, entry, stop, cost, lot);
      && e.reasons == [] && e.budget == BaseRisk(config, b)
      && e.quantity == EngineQuantity(config, b, UnitRisk(entry, stop, cost), lot)
  {
    hide UnitRisk, EngineQuantity, BookReasons, BaseRisk;
    assert OpenRisk([]) == 0.0;
  }

  lemma Commute(a: real, b: real)
    ensures a * b == b * a
  {
  }

  lemma LotsAtLeastOne(q: int, lot: int)
    requires lot > 0 && q > 0 && q % lot == 0
    ensures q >= lot
  {
    if q < lot {
      DivUnique(q, lot, 0);
    }
  }

  lemma QuietBook(config: RiskConfig, b: Book)
    requires b.equity == b.highWatermark > 0.0 && b.daily == b.weekly == 0.0 && b.positions == []
    ensures BookReasons(config, b, BaseRisk(config, b)) == []
  {
    NoDrawdown(config, b);
    ProductPositive(b.equity, config.riskPerTrade);
    ProductPositive(BaseRisk(config, b), config.dailyLimitR);
    ProductPositive(BaseRisk(config, b), config.weeklyLimitR);
    hide BaseRisk, Drawdown;
  }

  lemma NoDrawdown(config: RiskConfig, b: Book)
    requires b.equity == b.highWatermark > 0.0
    ensures Drawdown(b) == 0.0 && BaseRisk(config, b) == b.equity * config.riskPerTrade
  {
  }

  lemma ExactLots(q: int, unit: real, lot: int)
    requires lot > 0 && q % lot == 0 && unit > 0.0
    ensures LotsWithin(q as real * unit / unit, lot) == q
  {
    var cap := q as real * unit / unit;
    LeDiv(q as real, q as real * unit, unit);
    assert cap == q as real;
    LotsWithinGreatest(q, cap, lot);
  }

  lemma TightRefused(i: SizingInput, sizing: SizingRules, rules: FillRules, tick: Tick)
    requires Charged(i, sizing, rules, tick.instrument) && !RiskGateFits(i, PlanFor(i, sizing).prices.value, rules, tick)
    ensures i.equity > 0.0 && 0.0 < TightShare(i, sizing) < 1.0
    ensures
      var d := TightDecision(i, sizing);
      && Submittable(d, sizing, TightConfig(TightShare(i, sizing)), TightBook(i), rules, tick.instrument,
                     PlanFor(i, sizing).quantity, true)
      && d.input == i
      && FillRisk(rules, tick.instrument, i.long, d.plan.quantity, PlanFor(i, sizing).prices.value.stop, ExecPrice(rules, tick, i.long))
           > d.risk.budget
  {
    hide PlanFor, Policy, CostAllowance, ExecPrice, GateUnit, ProjectedStop, FillRisk, UnitRisk, TightShare;
    TightShareInRange(i, sizing);
    var p, q := PlanFor(i, sizing).prices.value, PlanFor(i, sizing).quantity;
    var unit := UnitRisk(p.entry, p.stop, i.roundTripCost);
    TightApproval(TightShare(i, sizing), i.equity, p.entry, p.stop, i.roundTripCost, i.lot, q);
    var fill := ExecPrice(rules, tick, i.long);
    FillRiskPerUnit(rules, tick.instrument, i.long, q, p.stop, fill);
    MulLt(unit, GateUnit(rules, fill, ProjectedStop(rules, tick.instrument, i.long, p.stop)), q as real);
    Commute(unit, q as real);
  }

  lemma UnitRiskPositive(i: SizingInput, sizing: SizingRules)
    requires PlanFor(i, sizing).reasons == []
    ensures
      var p := PlanFor(i, sizing).prices.value;
      UnitRisk(p.entry, p.stop, i.roundTripCost) > 0.0
  {
    hide PlanFor, PricesFor;
    TargetClearsCosts(i, sizing);
  }

  lemma MulLt(a: real, b: real, u: real)
    requires a < b && u > 0.0
    ensures a * u < b * u
  {
  }

  // ---------------------------------------------------------------- the order in the simulator

  /** A quote of the same instrument that is no worse for the trader than the priced one. */
  predicate NoWorse(long: bool, priced: Tick, later: Tick) {
    later.instrument == priced.instrument && if long then later.ask <= priced.ask else later.bid >= priced.bid
  }

  predicate InsideStop(long: bool, stop: real, fill: real) {
    if long then stop < fill else fill < stop
  }

  lemma FillNoWorse(rules: FillRules, long: bool, priced: Tick, later: Tick)
    requires NoWorse(long, priced, later)
    ensures
      var was, now := ExecPrice(rules, priced, long), ExecPrice(rules, later, long);
      if long then now <= was else now >= was
  {
    hide Slipped, CeilTick, FloorTick;
    if long {
      SlippedMonotone(rules, later.ask, priced.ask, true);
      CeilTickMonotone(Slipped(rules, later.ask, true), Slipped(rules, priced.ask, true), priced.instrument.tick);
    } else {
      SlippedMonotone(rules, priced.bid, later.bid, false);
      FloorTickMonotone(Slipped(rules, priced.bid, false), Slipped(rules, later.bid, false), priced.instrument.tick);
    }
  }

  /** A better fill that is still inside the stop risks no more per unit. */
  lemma GateUnitFalls(rules: FillRules, instrument: Tradable, long: bool, stop: real, was: real, now: real)
    requires stop > 0.0 && InsideStop(long, stop, was) && InsideStop(long, stop, now)
    requires if long then now <= was else now >= was
    ensures GateUnit(rules, now, ProjectedStop(rules, instrument, long, stop))
         <= GateUnit(rules, was, ProjectedStop(rules, instrument, long, stop))
  {
    hide ProjectedStop, GateUnit;
    var projected := ProjectedStop(rules, instrument, long, stop);
    ProjectedBeyondStop(rules, instrument, long, stop);
    GateUnitIs(rules, was, projected, was * rules.fee, projected * rules.fee);
    GateUnitIs(rules, now, projected, now * rules.fee, projected * rules.fee);
    if long {
      MulLe(now, was, rules.fee);
    } else {
      ShortGain(was, now, rules.fee, was * rules.fee, now * rules.fee);
    }
  }

  lemma GateUnitIs(rules: FillRules, fill: real, projected: real, fillFee: real, stopFee: real)
    requires fillFee == fill * rules.fee && stopFee == projected * rules.fee
    ensures GateUnit(rules, fill, projected) == (if fill >= projected then fill - projected else projected - fill) + fillFee + stopFee
  {
  }

  /** A higher short fill brings in more than its fee grows. */
  lemma ShortGain(was: real, now: real, fee: real, wasFee: real, nowFee: real)
    requires was <= now && fee < 1.0 && wasFee == was * fee && nowFee == now * fee
    ensures nowFee - wasFee <= now - was
  {
    MulLe(fee, 1.0, now - was);
    assert (now - was) * fee == nowFee - wasFee;
    assert fee * (now - was) == (now - was) * fee;
  }

  /** The comparison carries over from the quote that priced the plan to every later quote that is no
      worse, as long as the price has not reached the stop. */
  lemma LaterQuoteFits(i: SizingInput, sizing: SizingRules, rules: FillRules, priced: Tick, later: Tick)
    requires Charged(i, sizing, rules, priced.instrument) && PricedBy(i, priced) && NoWorse(i.long, priced, later)
    requires RiskGateFits(i, PlanFor(i, sizing).prices.value, rules, priced)
    requires InsideStop(i.long, PlanFor(i, sizing).prices.value.stop, ExecPrice(rules, later, i.long))
    ensures RiskGateFits(i, PlanFor(i, sizing).prices.value, rules, later)
  {
    hide PlanFor, CostAllowance, ExecPrice, GateUnit, UnitRisk, ProjectedStop, PricesFor;
    var p := PlanFor(i, sizing).prices.value;
    GeometryHolds(i, sizing, rules, priced);
    StopPositive(i, sizing);
    FillNoWorse(rules, i.long, priced, later);
    GateUnitFalls(rules, priced.instrument, i.long, p.stop, ExecPrice(rules, priced, i.long), ExecPrice(rules, later, i.long));
  }

  lemma StopPositive(i: SizingInput, sizing: SizingRules)
    requires PlanFor(i, sizing).reasons == []
    ensures PlanFor(i, sizing).prices.value.stop > 0.0
  {
    hide PlanFor, PricesFor;
    TargetClearsCosts(i, sizing);
  }

  /** A submitted order on the quote that priced it or any later one no worse: its geometry fails only
      if the price has reached the stop, which the priced quote's has not; and where the per-unit
      comparison held at pricing, it is admitted exactly when the price is inside the stop and the
      cash suffices. */
  lemma OnlyCashCanRefuse(d: Decision, sizing: SizingRules, config: RiskConfig, b: Book, rules: FillRules,
                          instrument: Tradable, policyCap: int, gatesOpen: bool, o: Order, priced: Tick, later: Tick, cash: real)
    requires Submittable(d, sizing, config, b, rules, instrument, policyCap, gatesOpen) && OrderOf(o, d, instrument)
    requires priced.instrument == instrument && PricedBy(d.input, priced) && NoWorse(o.long, priced, later)
    ensures
      var fill := ExecPrice(rules, later, o.long);
      && (Geometry(o, fill) <==> InsideStop(o.long, o.stop, fill))
      && (later == priced ==> InsideStop(o.long, o.stop, fill))
      && (InsideStop(o.long, o.stop, fill) || !o.long ==> fill > 0.0)
      && (RiskGateFits(d.input, d.plan.prices.value, rules, priced) ==>
            (EntryAdmitted(rules, o, instrument, cash, fill) <==>
                InsideStop(o.long, o.stop, fill) && fill * o.quantity as real + fill * o.quantity as real * rules.fee <= cash))
  {
    hide PlanFor, Policy, CostAllowance, ExecPrice, FillRisk, RiskGateFits;
    GeometryHolds(d.input, sizing, rules, priced);
    StopPositive(d.input, sizing);
    FillNoWorse(rules, o.long, priced, later);
    if RiskGateFits(d.input, d.plan.prices.value, rules, priced) && InsideStop(o.long, o.stop, ExecPrice(rules, later, o.long)) {
      LaterQuoteFits(d.input, sizing, rules, priced, later);
      SubmittedWithinBudget(d, sizing, config, b, rules, policyCap, gatesOpen, later);
    }
  }

  /** The same on the simulator's step: while pending, on such a quote no older than the submission
      and before its session ends, the order opens when the price is inside the stop and the cash
      suffices, and is rejected otherwise. */
  lemma SubmittedOrderFills(d: Decision, sizing: SizingRules, config: RiskConfig, b: Book, rules: FillRules,
                            instrument: Tradable, policyCap: int, gatesOpen: bool, o: Order, priced: Tick, later: Tick,
                            cash: real, realized: real)
    requires Submittable(d, sizing, config, b, rules, instrument, policyCap, gatesOpen) && OrderOf(o, d, instrument)
    requires priced.instrument == instrument && PricedBy(d.input, priced) && NoWorse(o.long, priced, later)
    requires o.status.Pending? && o.submittedAt <= later.quotedAt && later.receivedAt < o.sessionEnd && later.ask > 0.0
    ensures
      var fill := ExecPrice(rules, later, o.long);
      var touched := Touch(rules, cash, realized, o, later);
      && touched.Ok?
      && (RiskGateFits(d.input, d.plan.prices.value, rules, priced) ==>
            touched.value.order.status ==
              if InsideStop(o.long, o.stop, fill) && fill * o.quantity as real + fill * o.quantity as real * rules.fee <= cash
              then Open else Rejected)
  {
    hide ExecPrice, EntryAdmitted, Geometry, FillRisk, PlanFor, Policy, CostAllowance, RiskGateFits, InsideStop;
    OnlyCashCanRefuse(d, sizing, config, b, rules, instrument, policyCap, gatesOpen, o, priced, later, cash);
    if o.long {
      FillNear(rules, later, true);
    }
  }

  /** Every accepted long plan meets the comparison, and every short whose stop is at most twice its
      entry under a fee of at most one half, whatever the quote. */
  lemma CoveredPlansFit(i: SizingInput, sizing: SizingRules, rules: FillRules, tick: Tick)
    requires Charged(i, sizing, rules, tick.instrument) && PricedBy(i, tick)
    requires CostsCovered(i.long, PlanFor(i, sizing).prices.value, rules)
    ensures RiskGateFits(i, PlanFor(i, sizing).prices.value, rules, tick)
  {
    hide PlanFor, PricesFor, CostAllowance, ExecPrice, GateUnit, UnitRisk, ProjectedStop, CostsCovered;
    TargetClearsCosts(i, sizing);
    UnitRiskCovered(i, sizing, rules, tick.instrument, tick);
  }

  // ---------------------------------------------------------------- a short the comparison rules out

  /** A short whose stop lies ten times above its entry: the allowance, four times the slippage of
      the entry price, cannot cover the slippage of the stop. */
  const WIDE_RULES: FillRules := RuleValues(0.1, 0.0, 0)
  const WIDE_SIZING: SizingRules := RuleSet(Atr, 1.0, 0.01, 0.1, 0.03, 0.096, 0.096, 10)
  const WIDE_INSTRUMENT: Tradable := Instrument("X", 1, 1.0)
  const WIDE_INPUT := SizingInput(true, false, 10.0, 1000.0, 1000.0, 1.0, 1, Some(90.0), 6.0, 0.0)
  const WIDE_PLAN := Plan(1, Some(Prices(10.0, 100.0, 1.0)), 96.0, 96.0, [])
  const WIDE_CONFIG: RiskConfig := RiskValues(0.096, 0.1, 0.5, 0.5, 3.0, 6.0, 0.1, 0.2, 5)
  const WIDE_BOOK := Book(1000.0, 1000.0, 0.0, 0.0, [], 0.0)
  const WIDE_RISK := Assessment(true, 1, 96.0, 96.0, [])
  const WIDE_QUOTE := Tick(0, 0, WIDE_INSTRUMENT, 10.0, 11.0)

  lemma WidePlan()
    ensures PlanFor(WIDE_INPUT, WIDE_SIZING) == WIDE_PLAN
  {
    var p := PricesFor(WIDE_INPUT, WIDE_SIZING);
    assert FloorTick(10.0, 1.0) == 10.0;
    assert CeilTick(100.0, 1.0) == 100.0;
    assert FloorTick(1.0, 1.0) == 1.0;
    assert p == Prices(10.0, 100.0, 1.0);
    assert Cap(p, WIDE_INPUT, WIDE_SIZING) == 1.0;
  }

  lemma WideRisk()
    ensures Policy(WIDE_CONFIG, WIDE_BOOK, 10.0, 100.0, 6.0, 1, MinInt(10, 1), true) == WIDE_RISK
  {
    assert BaseRisk(WIDE_CONFIG, WIDE_BOOK) == 96.0;
    assert UnitRisk(10.0, 100.0, 6.0) == 96.0;
    assert EngineQuantity(WIDE_CONFIG, WIDE_BOOK, 96.0, 1) == 1;
  }

  lemma WideSubmittable()
    ensures Submittable(Decision(WIDE_INPUT, WIDE_PLAN, WIDE_RISK), WIDE_SIZING, WIDE_CONFIG, WIDE_BOOK, WIDE_RULES,
                        WIDE_INSTRUMENT, 10, true)
  {
    hide PlanFor, Policy, CostAllowance;
    WidePlan();
    WideRisk();
    WideAllowance();
  }

  lemma WideAllowance()
    ensures CostAllowance(10.0, WIDE_RULES, 1.0) == 6.0
  {
  }

  lemma WidePrices()
    ensures ExecPrice(WIDE_RULES, WIDE_QUOTE, false) == 9.0
    ensures ProjectedStop(WIDE_RULES, WIDE_INSTRUMENT, false, 100.0) == 110.0
  {
    assert FloorTick(9.0, 1.0) == 9.0;
    assert CeilTick(110.0, 1.0) == 110.0;
  }

  /** Where the comparison fails, the risk half of the fill gate refuses a submitted short on the
      very quote that priced it: here the fill would risk 101 against an approved budget of 96. */
  lemma UncoveredShortRefused(o: Order)
    requires OrderOf(o, Decision(WIDE_INPUT, WIDE_PLAN, WIDE_RISK), WIDE_INSTRUMENT)
    ensures Submittable(Decision(WIDE_INPUT, WIDE_PLAN, WIDE_RISK), WIDE_SIZING, WIDE_CONFIG, WIDE_BOOK, WIDE_RULES,
                        WIDE_INSTRUMENT, 10, true)
    ensures
      var fill := ExecPrice(WIDE_RULES, WIDE_QUOTE, false);
      && Geometry(o, fill) && FillRisk(WIDE_RULES, WIDE_INSTRUMENT, false, o.quantity, o.stop, fill) == 101.0 > o.budget
      && (forall cash :: !EntryAdmitted(WIDE_RULES, o, WIDE_INSTRUMENT, cash, fill))
      && !RiskGateFits(WIDE_INPUT, WIDE_PLAN.prices.value, WIDE_RULES, WIDE_QUOTE)
  {
    hide Submittable, ExecPrice, ProjectedStop;
    WideSubmittable();
    WidePrices();
  }
}
