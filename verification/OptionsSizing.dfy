/** Whole-lot sizing of an option entry and the explanation the desk gives for it
    (`quantity_for` and `sizing_diagnostics` in `options_risk.py`). */
module OptionsSizing {
  import opened Rounding
  import opened OptionsRisk

  /** Sizing is asked only about listed contracts, quotes with a positive ask and validated limits;
      on anything else the original divides by zero. */
  predicate Sizable(b: Budget, contract: Contract, quote: Quote) {
    b.limits.Valid() && contract.Valid() && quote.ask > 0.0
  }

  function EntryUnit(fill: real): real {
    fill * (1.0 + BUY_VARIABLE_RATE)
  }

  function RiskUnit(limits: Limits, fill: real): real {
    fill * (limits.stopPct / 100.0 + BUY_VARIABLE_RATE + SELL_VARIABLE_RATE)
  }

  function PremiumAllocation(b: Budget): real {
    b.limits.amount * ALLOCATION_FRACTION
  }

  function PlannedRisk(b: Budget): real {
    b.limits.amount * PLANNED_RISK_FRACTION
  }

  function RemainingDailyRisk(b: Budget): real {
    Max(0.0, b.limits.amount * (b.limits.lossPct / 100.0) + b.realized)
  }

  function Allocation(b: Budget): real {
    Min(PremiumAllocation(b), b.cash)
  }

  function RiskBudget(b: Budget): real {
    Min(PlannedRisk(b), RemainingDailyRisk(b))
  }

  lemma UnitsPositive(b: Budget, contract: Contract, quote: Quote)
    requires Sizable(b, contract, quote)
    ensures
      var fill := FillPrice(quote, contract, true);
      fill > 0.0 && EntryUnit(fill) > 0.0 && RiskUnit(b.limits, fill) > 0.0
  {
    BuyFillPositive(quote, contract);
  }

  /** Units the premium allocation pays for. */
  function EntryCapacity(b: Budget, fill: real): int
    requires fill > 0.0
  {
    FloorInt(Max(0.0, Allocation(b) - FIXED_ORDER_COST) / EntryUnit(fill))
  }

  /** Units whose loss at the percentage stop the risk budget carries. */
  function RiskCapacity(b: Budget, fill: real): int
    requires fill > 0.0 && b.limits.Valid()
  {
    FloorInt(Max(0.0, RiskBudget(b) - 2.0 * FIXED_ORDER_COST) / RiskUnit(b.limits, fill))
  }

  function UnitsFor(b: Budget, contract: Contract, quote: Quote): int
    requires Sizable(b, contract, quote)
  {
    var fill := FillPrice(quote, contract, true);
    BuyFillPositive(quote, contract);
    MinInt(EntryCapacity(b, fill),
    MinInt(RiskCapacity(b, fill),
    MinInt(quote.askSize, MinInt(quote.bidSize, contract.freeze - 1))))
  }

  function QuantityFor(b: Budget, contract: Contract, quote: Quote): int
    requires Sizable(b, contract, quote)
  {
    MaxInt(0, WholeLots(UnitsFor(b, contract, quote), contract.lot))
  }

  /** What a quantity must satisfy one limit at a time: its entry cost, its loss at the
      percentage stop with both fees, the displayed depth and the exchange freeze size. */
  predicate Fits(b: Budget, contract: Contract, quote: Quote, quantity: int)
    requires contract.tick > 0.0
  {
    var fill := FillPrice(quote, contract, true);
    && EntryTotal(fill, quantity as real) <= Allocation(b)
    && quantity as real * RiskUnit(b.limits, fill) + 2.0 * FIXED_ORDER_COST <= RiskBudget(b)
    && quantity <= quote.askSize && quantity <= quote.bidSize && quantity < contract.freeze
  }

  /** `quantity_for` returns the largest whole-lot quantity that fits: a positive number of
      whole lots fits every limit if and only if it does not exceed the returned quantity. */
  lemma QuantityIsLargestFit(b: Budget, contract: Contract, quote: Quote, quantity: int)
    requires Sizable(b, contract, quote) && quantity > 0 && quantity % contract.lot == 0
    ensures Fits(b, contract, quote, quantity) <==> quantity <= QuantityFor(b, contract, quote)
  {
    hide FillPrice, EntryTotal, Allocation, RiskBudget, RiskUnit, EntryCapacity, RiskCapacity;
    var fill := FillPrice(quote, contract, true);
    BuyFillPositive(quote, contract);
    WholeLotsGreatest(quantity, UnitsFor(b, contract, quote), contract.lot);
    EntryCapacityFits(b, fill, quantity);
    RiskCapacityFits(b, fill, quantity);
  }

  lemma EntryCapacityFits(b: Budget, fill: real, quantity: int)
    requires fill > 0.0 && quantity > 0
    ensures quantity <= EntryCapacity(b, fill) <==> EntryTotal(fill, quantity as real) <= Allocation(b)
  {
    hide EntryTotal, Allocation;
    UnitsFit(Allocation(b) - FIXED_ORDER_COST, EntryUnit(fill), quantity);
    EntryTotalByUnit(fill, quantity);
  }

  lemma RiskCapacityFits(b: Budget, fill: real, quantity: int)
    requires fill > 0.0 && b.limits.Valid() && quantity > 0
    ensures quantity <= RiskCapacity(b, fill)
      <==> quantity as real * RiskUnit(b.limits, fill) + 2.0 * FIXED_ORDER_COST <= RiskBudget(b)
  {
    hide RiskBudget;
    UnitsFit(RiskBudget(b) - 2.0 * FIXED_ORDER_COST, RiskUnit(b.limits, fill), quantity);
  }

  lemma EntryTotalByUnit(fill: real, quantity: int)
    ensures EntryTotal(fill, quantity as real) == quantity as real * EntryUnit(fill) + FIXED_ORDER_COST
  {
    ProceedsClosedForm(fill, quantity as real);
    assert quantity as real * EntryUnit(fill) == fill * quantity as real * (1.0 + BUY_VARIABLE_RATE);
  }

  lemma QuantityIsWholeLots(b: Budget, contract: Contract, quote: Quote)
    requires Sizable(b, contract, quote)
    ensures QuantityFor(b, contract, quote) >= 0 && QuantityFor(b, contract, quote) % contract.lot == 0
  {
    hide UnitsFor, WholeLots;
  }

  /** A sized entry costs at most a quarter of the capital and no more than the cash, and its
      loss at the rounded stop, under any accepted exit profile, exceeds the risk budget by
      less than one tick per unit. */
  lemma SizedEntryIsBounded(b: Budget, contract: Contract, quote: Quote, quantity: int, profile: Profile)
    requires Sizable(b, contract, quote)
    requires 0 < quantity <= QuantityFor(b, contract, quote) && quantity % contract.lot == 0
    requires ProfileAccepted(b.limits, profile, FillPrice(quote, contract, true), quantity, contract)
    ensures
      var fill := FillPrice(quote, contract, true);
      && EntryTotal(fill, quantity as real) <= b.limits.amount * ALLOCATION_FRACTION
      && EntryTotal(fill, quantity as real) <= b.cash
      && NetRisk(b.limits, profile, fill, quantity, contract) < RiskBudget(b) + contract.tick * quantity as real
  {
    hide FillPrice, EntryTotal, RiskBudget, RiskUnit, NetRisk, QuantityFor;
    var fill := FillPrice(quote, contract, true);
    QuantityIsLargestFit(b, contract, quote, quantity);
    NetRiskAtStop(b.limits, profile, fill, quantity, contract);
  }

  lemma NetRiskAtStop(limits: Limits, profile: Profile, fill: real, quantity: int, contract: Contract)
    requires ProfileAccepted(limits, profile, fill, quantity, contract)
    ensures NetRisk(limits, profile, fill, quantity, contract)
      < quantity as real * RiskUnit(limits, fill) + 2.0 * FIXED_ORDER_COST + contract.tick * quantity as real
  {
    var units, stop := quantity as real, StopFor(limits, profile, fill, contract);
    StopBounds(limits, profile, fill, quantity, contract);
    hide StopFor, Fees;
    StopDistance(limits, profile, fill, contract.tick, stop);
    ProceedsClosedForm(fill, units);
    ProceedsClosedForm(stop, units);
    RiskByDistance(fill, stop, units, limits.stopPct / 100.0 * fill + contract.tick);
    RiskUnitExpanded(limits, fill, units);
  }

  lemma StopDistance(limits: Limits, profile: Profile, fill: real, tick: real, stop: real)
    requires fill > 0.0 && StopFloor(limits, profile, fill) - tick < stop
    ensures fill - stop < limits.stopPct / 100.0 * fill + tick
  {
    ScaleLe(StopPctFor(limits, profile) / 100.0, limits.stopPct / 100.0, fill);
    assert StopFloor(limits, profile, fill) == fill - StopPctFor(limits, profile) / 100.0 * fill;
  }

  lemma RiskByDistance(fill: real, stop: real, units: real, distance: real)
    requires units > 0.0 && stop < fill && fill - stop < distance
    ensures fill * units * (1.0 + BUY_VARIABLE_RATE) - stop * units * (1.0 - SELL_VARIABLE_RATE)
      < distance * units + fill * units * (BUY_VARIABLE_RATE + SELL_VARIABLE_RATE)
  {
    ScaleLe(stop, fill, units);
    ScaleLe(fill - stop, distance, units);
    assert (fill - stop) * units == fill * units - stop * units;
  }

  lemma RiskUnitExpanded(limits: Limits, fill: real, units: real)
    ensures units * RiskUnit(limits, fill)
      == (limits.stopPct / 100.0 * fill) * units + fill * units * (BUY_VARIABLE_RATE + SELL_VARIABLE_RATE)
  {
    var a, b := limits.stopPct / 100.0, BUY_VARIABLE_RATE + SELL_VARIABLE_RATE;
    assert fill * (a + b) == a * fill + fill * b;
    assert units * (a * fill + fill * b) == (a * fill) * units + fill * units * b;
  }

  // ---------------------------------------------------------------- minimum capital

  function PlannedLotRisk(limits: Limits, contract: Contract, fill: real): real {
    contract.lot as real * RiskUnit(limits, fill) + 2.0 * FIXED_ORDER_COST
  }

  /** The estimate before it is rounded up to a paisa. */
  function MinimumCapital(limits: Limits, contract: Contract, fill: real): real
    requires limits.Valid()
  {
    var planned := PlannedLotRisk(limits, contract, fill);
    Max(EntryTotal(fill, contract.lot as real) / ALLOCATION_FRACTION,
        Max(planned / PLANNED_RISK_FRACTION, planned / (limits.lossPct / 100.0)))
  }

  /** For a session that has not traded, with depth and freeze room for a lot, one lot can be
      bought exactly when the capital reaches the estimate. */
  lemma OneLotThreshold(limits: Limits, contract: Contract, quote: Quote)
    requires Sizable(Budget(limits, limits.amount, 0.0), contract, quote)
    requires contract.lot <= quote.askSize && contract.lot <= quote.bidSize && contract.lot < contract.freeze
    ensures QuantityFor(Budget(limits, limits.amount, 0.0), contract, quote) >= contract.lot
      <==> limits.amount >= MinimumCapital(limits, contract, FillPrice(quote, contract, true))
  {
    hide FillPrice, EntryTotal, QuantityFor, PlannedLotRisk, RiskUnit;
    var b := Budget(limits, limits.amount, 0.0);
    var fill := FillPrice(quote, contract, true);
    LotFits(b, contract, quote);
    FreshBudget(limits, EntryTotal(fill, contract.lot as real), PlannedLotRisk(limits, contract, fill));
  }

  lemma LotFits(b: Budget, contract: Contract, quote: Quote)
    requires Sizable(b, contract, quote)
    requires contract.lot <= quote.askSize && contract.lot <= quote.bidSize && contract.lot < contract.freeze
    ensures
      var fill := FillPrice(quote, contract, true);
      QuantityFor(b, contract, quote) >= contract.lot
      <==> EntryTotal(fill, contract.lot as real) <= Allocation(b) && PlannedLotRisk(b.limits, contract, fill) <= RiskBudget(b)
  {
    hide FillPrice, EntryTotal, Allocation, RiskBudget, RiskUnit, QuantityFor;
    QuantityIsLargestFit(b, contract, quote, contract.lot);
  }

  lemma FreshBudget(limits: Limits, entry: real, planned: real)
    requires limits.Valid()
    ensures entry <= Allocation(Budget(limits, limits.amount, 0.0)) <==> entry / ALLOCATION_FRACTION <= limits.amount
    ensures planned <= RiskBudget(Budget(limits, limits.amount, 0.0))
      <==> planned / PLANNED_RISK_FRACTION <= limits.amount && planned / (limits.lossPct / 100.0) <= limits.amount
  {
    LeDiv(limits.amount, planned, limits.lossPct / 100.0);
    ScaleLe(0.0, limits.lossPct / 100.0, limits.amount);
  }

  /** The printed estimate is rounded up to a paisa and stays exact, because a session's capital
      is itself a whole number of paise. */
  lemma PrintedEstimateIsExact(limits: Limits, contract: Contract, quote: Quote, paise: int)
    requires Sizable(Budget(limits, limits.amount, 0.0), contract, quote)
    requires contract.lot <= quote.askSize && contract.lot <= quote.bidSize && contract.lot < contract.freeze
    requires limits.amount == paise as real * PAISA
    ensures QuantityFor(Budget(limits, limits.amount, 0.0), contract, quote) >= contract.lot
      <==> limits.amount >= PrintedCapital(limits, contract, FillPrice(quote, contract, true))
  {
    hide FillPrice, MinimumCapital, QuantityFor;
    OneLotThreshold(limits, contract, quote);
    CeilTickLeast(MinimumCapital(limits, contract, FillPrice(quote, contract, true)), PAISA, paise);
  }

  const PAISA: real := 0.01

  function PrintedCapital(limits: Limits, contract: Contract, fill: real): real
    requires limits.Valid()
  {
    CeilTick(MinimumCapital(limits, contract, fill), PAISA)
  }

  // ---------------------------------------------------------------- diagnostics

  datatype Code = FeeReserve | CapitalAllocation | AvailableCash | PlannedRiskBudget | DailyRiskBudget
                | AskDepth | BidDepth | FreezeLimit

  datatype Constraint = Constraint(code: Code, capacity: int, wholeLots: int, binding: bool)

  datatype Diagnostics = Diagnostics(quantity: int, binding: seq<Code>, constraints: seq<Constraint>,
                                     lotBlocks: bool, minimumCapital: real, minimumCash: real, lotRisk: real)

  function BudgetUnits(budget: real, perUnit: real, fixed: real): int {
    if perUnit <= 0.0 then 0 else FloorInt(Max(0.0, budget - fixed) / perUnit)
  }

  function BudgetOf(b: Budget, code: Code): real {
    match code
    case CapitalAllocation => PremiumAllocation(b)
    case AvailableCash => b.cash
    case PlannedRiskBudget => PlannedRisk(b)
    case DailyRiskBudget => RemainingDailyRisk(b)
    case _ => 0.0
  }

  function FixedOf(code: Code): real {
    match code
    case CapitalAllocation => FIXED_ORDER_COST
    case AvailableCash => FIXED_ORDER_COST
    case PlannedRiskBudget => 2.0 * FIXED_ORDER_COST
    case DailyRiskBudget => 2.0 * FIXED_ORDER_COST
    case _ => 0.0
  }

  predicate HasFixedCost(code: Code) {
    code.CapitalAllocation? || code.AvailableCash? || code.PlannedRiskBudget? || code.DailyRiskBudget?
  }

  /** How many units one limit alone allows. */
  function Capacity(b: Budget, contract: Contract, quote: Quote, code: Code): int
    requires contract.tick > 0.0
  {
    var fill := FillPrice(quote, contract, true);
    match code
    case FeeReserve => 0
    case CapitalAllocation => BudgetUnits(BudgetOf(b, code), EntryUnit(fill), FixedOf(code))
    case AvailableCash => BudgetUnits(BudgetOf(b, code), EntryUnit(fill), FixedOf(code))
    case PlannedRiskBudget => BudgetUnits(BudgetOf(b, code), RiskUnit(b.limits, fill), FixedOf(code))
    case DailyRiskBudget => BudgetUnits(BudgetOf(b, code), RiskUnit(b.limits, fill), FixedOf(code))
    case AskDepth => quote.askSize
    case BidDepth => quote.bidSize
    case FreezeLimit => contract.freeze - 1
  }

  const LIMIT_CODES: seq<Code> :=
    [CapitalAllocation, AvailableCash, PlannedRiskBudget, DailyRiskBudget, AskDepth, BidDepth, FreezeLimit]

  lemma FlooredMin(a: real, c: real, fixed: real, unit: real)
    requires unit > 0.0
    ensures FloorInt(Max(0.0, Min(a, c) - fixed) / unit) == MinInt(BudgetUnits(a, unit, fixed), BudgetUnits(c, unit, fixed))
  {
    var x, y := Max(0.0, a - fixed), Max(0.0, c - fixed);
    if x <= y {
      QuotientMonotone(x, y, unit);
    } else {
      QuotientMonotone(y, x, unit);
    }
  }

  lemma QuotientMonotone(x: real, y: real, unit: real)
    requires unit > 0.0 && x <= y
    ensures FloorInt(x / unit) <= FloorInt(y / unit)
  {
    var k := FloorInt(x / unit);
    LeDiv(k as real, x, unit);
    LeDiv(k as real, y, unit);
  }

  predicate IsLeastCapacity(b: Budget, contract: Contract, quote: Quote, raw: int)
    requires contract.tick > 0.0
  {
    && (exists code :: code in LIMIT_CODES && raw == Capacity(b, contract, quote, code))
    && (forall code :: code in LIMIT_CODES ==> raw <= Capacity(b, contract, quote, code))
  }

  /** The units `quantity_for` rounds to lots are the least of the seven separate capacities. */
  lemma UnitsAreLeastCapacity(b: Budget, contract: Contract, quote: Quote, raw: int)
    requires Sizable(b, contract, quote) && IsLeastCapacity(b, contract, quote, raw)
    ensures raw == UnitsFor(b, contract, quote)
    ensures QuantityFor(b, contract, quote) == MaxInt(0, WholeLots(raw, contract.lot))
  {
    var fill := FillPrice(quote, contract, true);
    UnitsPositive(b, contract, quote);
    assert CapitalAllocation in LIMIT_CODES && AvailableCash in LIMIT_CODES && PlannedRiskBudget in LIMIT_CODES;
    assert DailyRiskBudget in LIMIT_CODES && AskDepth in LIMIT_CODES && BidDepth in LIMIT_CODES && FreezeLimit in LIMIT_CODES;
    hide FillPrice, EntryUnit, RiskUnit, BudgetUnits, PlannedRisk, RemainingDailyRisk, PremiumAllocation;
    FlooredMin(PremiumAllocation(b), b.cash, FIXED_ORDER_COST, EntryUnit(fill));
    FlooredMin(PlannedRisk(b), RemainingDailyRisk(b), 2.0 * FIXED_ORDER_COST, RiskUnit(b.limits, fill));
  }

  /** A limit whose budget does not even cover its fixed order cost allows nothing. */
  lemma FeeLimitedIsZero(b: Budget, contract: Contract, quote: Quote, code: Code)
    requires contract.tick > 0.0 && HasFixedCost(code) && BudgetOf(b, code) <= FixedOf(code)
    ensures Capacity(b, contract, quote, code) == 0
  {
    ZeroUnits(BudgetOf(b, code), EntryUnit(FillPrice(quote, contract, true)), FixedOf(code));
    ZeroUnits(BudgetOf(b, code), RiskUnit(b.limits, FillPrice(quote, contract, true)), FixedOf(code));
  }

  lemma ZeroUnits(budget: real, unit: real, fixed: real)
    requires budget <= fixed
    ensures BudgetUnits(budget, unit, fixed) == 0
  {
    if unit > 0.0 {
      assert 0.0 / unit == 0.0;
    }
  }

  predicate FeeLimited(b: Budget, contract: Contract, quote: Quote, raw: int, code: Code)
    requires contract.tick > 0.0
  {
    HasFixedCost(code) && Capacity(b, contract, quote, code) == raw && BudgetOf(b, code) <= FixedOf(code)
  }

  method LeastCapacity(b: Budget, contract: Contract, quote: Quote) returns (raw: int)
    requires Sizable(b, contract, quote)
    ensures IsLeastCapacity(b, contract, quote, raw)
  {
    hide Capacity;
    raw := Capacity(b, contract, quote, LIMIT_CODES[0]);
    ghost var least := LIMIT_CODES[0];
    for i := 1 to |LIMIT_CODES|
      invariant least in LIMIT_CODES && raw == Capacity(b, contract, quote, least)
      invariant forall j :: 0 <= j < i ==> raw <= Capacity(b, contract, quote, LIMIT_CODES[j])
    {
      if Capacity(b, contract, quote, LIMIT_CODES[i]) < raw {
        raw := Capacity(b, contract, quote, LIMIT_CODES[i]);
        least := LIMIT_CODES[i];
      }
    }
  }

  method BindingCodes(b: Budget, contract: Contract, quote: Quote, raw: int) returns (binding: seq<Code>)
    requires Sizable(b, contract, quote) && IsLeastCapacity(b, contract, quote, raw)
    ensures forall code :: code in LIMIT_CODES ==> (code in binding <==> Capacity(b, contract, quote, code) == raw)
    ensures FeeReserve in binding <==> exists code :: code in LIMIT_CODES && FeeLimited(b, contract, quote, raw, code)
    ensures |binding| > 0 && (FeeReserve in binding ==> binding[0] == FeeReserve)
  {
    hide Capacity, FeeLimited;
    var codes: seq<Code> := [];
    var feeLimited := false;
    for i := 0 to |LIMIT_CODES|
      invariant FeeReserve !in codes
      invariant forall j :: 0 <= j < i ==> (LIMIT_CODES[j] in codes <==> Capacity(b, contract, quote, LIMIT_CODES[j]) == raw)
      invariant forall code :: code in codes ==> code in LIMIT_CODES[..i]
      invariant feeLimited <==> exists code :: code in LIMIT_CODES[..i] && FeeLimited(b, contract, quote, raw, code)
    {
      assert LIMIT_CODES[..i + 1] == LIMIT_CODES[..i] + [LIMIT_CODES[i]];
      assert forall j :: 0 <= j < i ==> LIMIT_CODES[j] != LIMIT_CODES[i];
      if Capacity(b, contract, quote, LIMIT_CODES[i]) == raw {
        codes := codes + [LIMIT_CODES[i]];
      }
      if FeeLimited(b, contract, quote, raw, LIMIT_CODES[i]) {
        feeLimited := true;
      }
    }
    assert LIMIT_CODES[..|LIMIT_CODES|] == LIMIT_CODES;
    binding := (if feeLimited then [FeeReserve] else []) + codes;
  }

  function ConstraintFor(b: Budget, contract: Contract, quote: Quote, binding: seq<Code>, code: Code): Constraint
    requires contract.Valid()
  {
    var capacity := Capacity(b, contract, quote, code);
    Constraint(code, capacity, MaxInt(0, WholeLots(capacity, contract.lot)), code in binding)
  }

  method ListConstraints(b: Budget, contract: Contract, quote: Quote, binding: seq<Code>)
    returns (constraints: seq<Constraint>)
    requires Sizable(b, contract, quote)
    ensures
      var listed := (if FeeReserve in binding then [FeeReserve] else []) + LIMIT_CODES;
      && |constraints| == |listed|
      && forall i :: 0 <= i < |listed| ==> constraints[i] == ConstraintFor(b, contract, quote, binding, listed[i])
  {
    hide Capacity;
    constraints := [];
    for i := 0 to |LIMIT_CODES|
      invariant |constraints| == i
      invariant forall j :: 0 <= j < i ==> constraints[j] == ConstraintFor(b, contract, quote, binding, LIMIT_CODES[j])
    {
      constraints := constraints + [ConstraintFor(b, contract, quote, binding, LIMIT_CODES[i])];
    }
    if FeeReserve in binding {
      FeeReserveRow(b, contract, quote, binding);
      constraints := [Constraint(FeeReserve, 0, 0, true)] + constraints;
    }
  }

  lemma FeeReserveRow(b: Budget, contract: Contract, quote: Quote, binding: seq<Code>)
    requires contract.Valid() && FeeReserve in binding
    ensures ConstraintFor(b, contract, quote, binding, FeeReserve) == Constraint(FeeReserve, 0, 0, true)
  {
    LotsOf(0, contract.lot);
  }

  /** The explanation agrees with the size: it lists each limit once with its own capacity,
      names as binding exactly the limits that decide the size (at least one), and names the
      fee reserve exactly when a deciding budget cannot pay its fixed cost, in which case the
      size is zero. */
  method Diagnose(b: Budget, contract: Contract, quote: Quote) returns (d: Diagnostics)
    requires Sizable(b, contract, quote)
    ensures d.quantity == QuantityFor(b, contract, quote)
    ensures
      var raw := UnitsFor(b, contract, quote);
      && IsLeastCapacity(b, contract, quote, raw)
      && (forall code :: code in LIMIT_CODES ==> (code in d.binding <==> Capacity(b, contract, quote, code) == raw))
      && (FeeReserve in d.binding <==> exists code :: code in LIMIT_CODES && FeeLimited(b, contract, quote, raw, code))
      && (FeeReserve in d.binding ==> d.quantity == 0 && d.binding[0] == FeeReserve)
      && (d.lotBlocks <==> 0 < raw < contract.lot)
      && (d.quantity == 0 <==> raw < contract.lot)
    ensures |d.binding| > 0
    ensures
      var listed := (if FeeReserve in d.binding then [FeeReserve] else []) + LIMIT_CODES;
      && |d.constraints| == |listed|
      && forall i :: 0 <= i < |listed| ==>
           d.constraints[i] == ConstraintFor(b, contract, quote, d.binding, listed[i])
    ensures
      var fill := FillPrice(quote, contract, true);
      && d.minimumCapital == PrintedCapital(b.limits, contract, fill)
      && d.minimumCash == EntryTotal(fill, contract.lot as real)
      && d.lotRisk == PlannedLotRisk(b.limits, contract, fill)
  {
    hide FillPrice, EntryTotal, PrintedCapital, PlannedLotRisk, Capacity, UnitsFor;
    var raw := LeastCapacity(b, contract, quote);
    UnitsAreLeastCapacity(b, contract, quote, raw);
    var binding := BindingCodes(b, contract, quote, raw);
    var constraints := ListConstraints(b, contract, quote, binding);
    LotsOf(raw, contract.lot);
    if FeeReserve in binding {
      var code :| code in LIMIT_CODES && FeeLimited(b, contract, quote, raw, code);
      FeeLimitedIsZero(b, contract, quote, code);
    }
    var fill := FillPrice(quote, contract, true);
    d := Diagnostics(QuantityFor(b, contract, quote), binding, constraints, 0 < raw < contract.lot,
                     PrintedCapital(b.limits, contract, fill), EntryTotal(fill, contract.lot as real),
                     PlannedLotRisk(b.limits, contract, fill));
  }

  lemma LotsOf(units: int, lot: int)
    requires lot > 0
    ensures MaxInt(0, WholeLots(units, lot)) == 0 <==> units < lot
    ensures WholeLots(0, lot) == 0
  {
    WholeLotsGreatest(lot, units, lot);
    WholeLotsGreatest(0, 0, lot);
  }
}
