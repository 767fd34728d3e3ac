/** What an option entry's size stands for (`quantity_for` and `sizing_diagnostics` in
    `options_risk.py`), in money: capital, cash, fees, the percentage stop and the day's P&L. */
module SizingOutcomes {
  import opened Rounding
  import opened OptionsRisk
  import opened OptionsSizing

  /** What the day may still lose: the session's loss percentage of the capital and its P&L so far. */
  predicate WithinDay(b: Budget, loss: real) {
    loss <= 0.0 || 100.0 * loss <= b.limits.amount * b.limits.lossPct + 100.0 * b.realized
  }

  /** Entry cost and loss at the percentage stop of some units, both fees on the entry's notional. */
  function CostOf(fill: real, units: int): real {
    fill * units as real + Fees(fill * units as real, Buy)
  }

  function LossOf(limits: Limits, fill: real, units: int): real {
    fill * units as real * (limits.stopPct / 100.0) + Fees(fill * units as real, Buy) + Fees(fill * units as real, Sell)
  }

  /** A number of whole lots is at most the size exactly when its cost fits a quarter of the capital and
      the cash, its loss at the stop a hundredth of the capital and the day, and its units both depths
      and less than the freeze size. */
  lemma SizeMeans(b: Budget, contract: Contract, quote: Quote, units: int)
    requires Sizable(b, contract, quote) && units > 0 && units % contract.lot == 0
    ensures
      var fill := FillPrice(quote, contract, true);
      units <= QuantityFor(b, contract, quote) <==>
        && 4.0 * CostOf(fill, units) <= b.limits.amount && CostOf(fill, units) <= b.cash
        && 100.0 * LossOf(b.limits, fill, units) <= b.limits.amount && WithinDay(b, LossOf(b.limits, fill, units))
        && units <= quote.askSize && units <= quote.bidSize && units < contract.freeze
  {
    var fill := FillPrice(quote, contract, true);
    hide FillPrice, QuantityFor, Fits, LossOf, CostOf, WithinDay;
    BuyFillPositive(quote, contract);
    FitsMeans(b, contract, quote, units, fill);
    QuantityIsLargestFit(b, contract, quote, units);
  }

  lemma FitsMeans(b: Budget, contract: Contract, quote: Quote, units: int, fill: real)
    requires b.limits.Valid() && contract.Valid() && units > 0 && fill == FillPrice(quote, contract, true) && fill > 0.0
    ensures Fits(b, contract, quote, units) <==>
      && 4.0 * CostOf(fill, units) <= b.limits.amount && CostOf(fill, units) <= b.cash
      && 100.0 * LossOf(b.limits, fill, units) <= b.limits.amount && WithinDay(b, LossOf(b.limits, fill, units))
      && units <= quote.askSize && units <= quote.bidSize && units < contract.freeze
  {
    hide FillPrice, RiskUnit, RiskBudget, Allocation, WithinDay, EntryTotal, CostOf, LossOf;
    TotalIsCost(fill, units);
    AllocationIs(b, CostOf(fill, units));
    LossIs(b.limits, fill, units);
    BudgetIs(b, LossOf(b.limits, fill, units));
  }

  lemma TotalIsCost(fill: real, units: int)
    ensures EntryTotal(fill, units as real) == CostOf(fill, units)
  {
  }

  lemma AllocationIs(b: Budget, cost: real)
    ensures cost <= Allocation(b) <==> 4.0 * cost <= b.limits.amount && cost <= b.cash
  {
  }

  lemma LossIs(limits: Limits, fill: real, units: int)
    ensures units as real * RiskUnit(limits, fill) + 2.0 * FIXED_ORDER_COST == LossOf(limits, fill, units)
    ensures fill > 0.0 && units > 0 && limits.Valid() ==> LossOf(limits, fill, units) > 0.0
  {
    var notional, stop := fill * units as real, limits.stopPct / 100.0;
    FeesClosedForm(notional, Buy);
    FeesClosedForm(notional, Sell);
    UnitsTimes(fill, units as real, stop, BUY_VARIABLE_RATE, SELL_VARIABLE_RATE);
    hide Fees;
    if fill > 0.0 && units > 0 && limits.Valid() {
      ScaleLe(0.0, fill, units as real);
      ScaleLe(0.0, stop, notional);
    }
  }

  lemma UnitsTimes(fill: real, units: real, stop: real, buy: real, sell: real)
    ensures units * (fill * (stop + buy + sell)) == fill * units * stop + buy * (fill * units) + sell * (fill * units)
  {
    assert fill * (stop + buy + sell) == fill * stop + fill * buy + fill * sell;
  }

  lemma BudgetIs(b: Budget, loss: real)
    ensures loss > 0.0 ==> (loss <= RiskBudget(b) <==> 100.0 * loss <= b.limits.amount && WithinDay(b, loss))
  {
    var share := b.limits.amount * b.limits.lossPct;
    assert b.limits.amount * (b.limits.lossPct / 100.0) == share / 100.0;
  }

  // ---------------------------------------------------------------- the explanation

  /** A budget does not cover its fixed order costs. */
  predicate Starved(b: Budget) {
    || b.limits.amount / 4.0 <= FIXED_ORDER_COST || b.cash <= FIXED_ORDER_COST
    || b.limits.amount / 100.0 <= 2.0 * FIXED_ORDER_COST
    || b.limits.amount * b.limits.lossPct / 100.0 + b.realized <= 2.0 * FIXED_ORDER_COST
  }

  /** The fee reserve is named exactly when nothing can be bought and some budget is used up by fees. */
  lemma FeeReserveMeans(b: Budget, contract: Contract, quote: Quote, raw: int)
    requires Sizable(b, contract, quote) && IsLeastCapacity(b, contract, quote, raw)
    ensures (exists code :: code in LIMIT_CODES && FeeLimited(b, contract, quote, raw, code)) <==> raw == 0 && Starved(b)
  {
    hide Capacity, IsLeastCapacity;
    forall code | code in LIMIT_CODES && HasFixedCost(code) && BudgetOf(b, code) <= FixedOf(code)
      ensures Capacity(b, contract, quote, code) == 0
    {
      FeeLimitedIsZero(b, contract, quote, code);
    }
    BudgetsAre(b);
    hide BudgetOf, FixedOf, HasFixedCost;
    if raw == 0 && Starved(b) {
      StarvedCode(b, contract, quote, raw);
    }
  }

  lemma BudgetsAre(b: Budget)
    ensures
      forall code :: HasFixedCost(code) && BudgetOf(b, code) <= FixedOf(code) ==> Starved(b)
  {
    var share := b.limits.amount * b.limits.lossPct;
    assert b.limits.amount * (b.limits.lossPct / 100.0) == share / 100.0;
  }

  lemma StarvedCode(b: Budget, contract: Contract, quote: Quote, raw: int)
    requires Sizable(b, contract, quote) && raw == 0 && Starved(b)
    requires forall code :: code in LIMIT_CODES && HasFixedCost(code) && BudgetOf(b, code) <= FixedOf(code) ==> Capacity(b, contract, quote, code) == 0
    ensures exists code :: code in LIMIT_CODES && FeeLimited(b, contract, quote, raw, code)
  {
    hide Capacity;
    var share := b.limits.amount * b.limits.lossPct;
    assert b.limits.amount * (b.limits.lossPct / 100.0) == share / 100.0;
    var code :=
      if b.limits.amount / 4.0 <= FIXED_ORDER_COST then CapitalAllocation
      else if b.cash <= FIXED_ORDER_COST then AvailableCash
      else if b.limits.amount / 100.0 <= 2.0 * FIXED_ORDER_COST then PlannedRiskBudget else DailyRiskBudget;
    assert code in LIMIT_CODES && HasFixedCost(code) && BudgetOf(b, code) <= FixedOf(code);
    assert FeeLimited(b, contract, quote, raw, code);
  }
}
