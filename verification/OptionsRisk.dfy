/** Paper fill, cost, exit-level and sizing rules shared by plans and execution
    (`options_risk.py`). */
module OptionsRisk {
  import opened Common
  import opened Rounding

  const BROKERAGE_PER_ORDER: real := 20.0
  const EXCHANGE_RATE: real := 0.0003503
  const IPFT_RATE: real := 0.000005
  const SEBI_RATE: real := 0.000001
  const STAMP_BUY_RATE: real := 0.00003
  const STT_SELL_RATE: real := 0.0015
  const GST_RATE: real := 0.18
  const FIXED_ORDER_COST: real := BROKERAGE_PER_ORDER * (1.0 + GST_RATE)
  const BUY_VARIABLE_RATE: real :=
    EXCHANGE_RATE + IPFT_RATE + SEBI_RATE + STAMP_BUY_RATE + GST_RATE * (EXCHANGE_RATE + IPFT_RATE + SEBI_RATE)
  const SELL_VARIABLE_RATE: real :=
    EXCHANGE_RATE + IPFT_RATE + SEBI_RATE + STT_SELL_RATE + GST_RATE * (EXCHANGE_RATE + IPFT_RATE + SEBI_RATE)
  const ALLOCATION_FRACTION: real := 0.25
  const PLANNED_RISK_FRACTION: real := 0.01

  /** A session's approved limits; percentages as the operator typed them. */
  datatype Limits = Limits(amount: real, lossPct: real, profitPct: real,
                           stopPct: real, targetPct: real, profitCap: bool)
  {
    /** What `validate_limits` admits, as far as the rules below depend on it. */
    predicate Valid() {
      0.0 < amount && 0.0 < lossPct <= 25.0 && 0.0 < profitPct <= 100.0 &&
      0.0 < stopPct <= 25.0 && 0.0 < targetPct <= 100.0
    }
  }

  /** The part of a session that sizing reads. */
  datatype Budget = Budget(limits: Limits, cash: real, realized: real)

  datatype OptionKind = CE | PE

  datatype Contract = Contract(symbol: string, expiry: int, kind: OptionKind, strike: real,
                               lot: int, tick: real, freeze: int)
  {
    predicate Valid() {
      lot > 0 && tick > 0.0
    }
  }

  /** A contract as the exchange lists it: whole positive lots, a positive tick. */
  type Listed = c: Contract | c.Valid() witness Contract("", 0, CE, 0.0, 1, 1.0, 1)

  type ApprovedLimits = l: Limits | l.Valid() witness Limits(1.0, 1.0, 1.0, 1.0, 1.0, true)

  datatype Quote = Quote(bid: real, ask: real, bidSize: int, askSize: int, stamp: int)

  predicate SessionLimitReached(limits: Limits, pnl: real) {
    || pnl <= -limits.amount * limits.lossPct / 100.0
    || (limits.profitCap && pnl >= limits.amount * limits.profitPct / 100.0)
  }

  // ---------------------------------------------------------------- fees and fills

  datatype Side = Buy | Sell | Unknown

  datatype Costs = Costs(side: Side, brokerage: real, exchange: real, ipft: real, sebi: real,
                         gst: real, stamp: real, stt: real, total: real)

  function CostBreakdown(notional: real, side: Side): Costs {
    var side := if side.Unknown? then Sell else side;
    var exchange := notional * EXCHANGE_RATE;
    var ipft := notional * IPFT_RATE;
    var sebi := notional * SEBI_RATE;
    var gst := (BROKERAGE_PER_ORDER + exchange + ipft + sebi) * GST_RATE;
    var stamp := if side.Buy? then notional * STAMP_BUY_RATE else 0.0;
    var stt := if side.Sell? then notional * STT_SELL_RATE else 0.0;
    Costs(side, BROKERAGE_PER_ORDER, exchange, ipft, sebi, gst, stamp, stt,
          BROKERAGE_PER_ORDER + exchange + ipft + sebi + gst + stamp + stt)
  }

  function Fees(notional: real, side: Side): real {
    CostBreakdown(notional, side).total
  }

  function VariableRate(side: Side): real {
    if side.Buy? then BUY_VARIABLE_RATE else SELL_VARIABLE_RATE
  }

  /** The line items of the schedule add up to the closed form that sizing divides by. */
  lemma FeesClosedForm(notional: real, side: Side)
    ensures Fees(notional, side) == FIXED_ORDER_COST + VariableRate(side) * notional
  {
  }

  const BUY_SLIP: real := 1.001
  const SELL_SLIP: real := 0.999

  /** The executable paper price: through the touch by a tenth of a percent, then rounded
      against the desk to a whole tick. */
  function FillPrice(quote: Quote, contract: Contract, buy: bool): real
    requires contract.tick > 0.0
  {
    if buy then CeilTick(quote.ask * BUY_SLIP, contract.tick)
    else FloorTick(quote.bid * SELL_SLIP, contract.tick)
  }

  lemma BuyFillPositive(quote: Quote, contract: Contract)
    requires contract.tick > 0.0 && quote.ask > 0.0
    ensures FillPrice(quote, contract, true) > 0.0
  {
    CeilTickLeast(quote.ask * BUY_SLIP, contract.tick, 0);
  }

  function EntryTotal(price: real, units: real): real {
    price * units + Fees(price * units, Buy)
  }

  function Proceeds(price: real, units: real): real {
    price * units - Fees(price * units, Sell)
  }

  // ---------------------------------------------------------------- exit levels

  datatype Profile = Profile(stopPct: real, targetPct: real, rewardR: real, maxHold: int, maxCostShare: real)

  datatype Levels = Levels(stop: real, target: real, stopPct: real, targetPct: real, rewardR: real,
                           maxHold: int, roundTripCost: real, costShare: real, maxCostShare: real,
                           netRisk: real, netReward: real, netRewardR: real)

  datatype ExitError = InvalidProfile | NoPositiveNetRisk | CostsConsumeReward | ExceedsBoundedSearch

  function StopPctFor(limits: Limits, profile: Profile): real {
    Min(limits.stopPct, profile.stopPct)
  }

  function TargetPctFor(limits: Limits, profile: Profile): real {
    Min(limits.targetPct, profile.targetPct)
  }

  predicate ProfileAccepted(limits: Limits, profile: Profile, fill: real, quantity: int, contract: Contract) {
    && fill > 0.0 && quantity > 0 && contract.tick > 0.0
    && 0.0 < StopPctFor(limits, profile) < 100.0
    && TargetPctFor(limits, profile) > 0.0
    && profile.rewardR >= 1.0
    && 1 <= profile.maxHold <= 120
  }

  /** The stop in force: the percentage stop, rounded down to a tick. */
  function StopFor(limits: Limits, profile: Profile, fill: real, contract: Contract): real
    requires contract.tick > 0.0
  {
    FloorTick(StopFloor(limits, profile, fill), contract.tick)
  }

  /** The percentage stop before rounding. */
  function StopFloor(limits: Limits, profile: Profile, fill: real): real {
    fill * (1.0 - StopPctFor(limits, profile) / 100.0)
  }

  /** What the position loses, both fees included, if it leaves exactly at its stop. */
  function NetRisk(limits: Limits, profile: Profile, fill: real, quantity: int, contract: Contract): real
    requires contract.tick > 0.0
  {
    EntryTotal(fill, quantity as real) - Proceeds(StopFor(limits, profile, fill, contract), quantity as real)
  }

  /** What the position gains, both fees included, if it leaves exactly at `target`. */
  function NetReward(fill: real, quantity: int, target: real): real {
    Proceeds(target, quantity as real) - EntryTotal(fill, quantity as real)
  }

  function TargetFloor(limits: Limits, profile: Profile, fill: real): real {
    fill * (1.0 + TargetPctFor(limits, profile) / 100.0)
  }

  /** The closed-form target: the first tick at which the percentage floor and the
      fee-inclusive reward multiple are both met. */
  function TargetFor(limits: Limits, profile: Profile, fill: real, quantity: int, contract: Contract): real
    requires contract.tick > 0.0 && quantity > 0
  {
    Max(CeilTick(TargetFloor(limits, profile, fill), contract.tick),
        CeilTick(RewardFloor(limits, profile, fill, quantity, contract), contract.tick))
  }

  function DesiredReward(limits: Limits, profile: Profile, fill: real, quantity: int, contract: Contract): real
    requires contract.tick > 0.0
  {
    NetRisk(limits, profile, fill, quantity, contract) * profile.rewardR
  }

  /** The price whose proceeds cover the entry, the reward and the exit fee, before rounding. */
  function RewardFloor(limits: Limits, profile: Profile, fill: real, quantity: int, contract: Contract): real
    requires contract.tick > 0.0 && quantity > 0
  {
    (EntryTotal(fill, quantity as real) + DesiredReward(limits, profile, fill, quantity, contract) + FIXED_ORDER_COST)
    / (quantity as real * (1.0 - SELL_VARIABLE_RATE))
  }

  /** Both fees, if the position leaves at `target`. */
  function RoundTripCost(fill: real, quantity: int, target: real): real {
    Fees(fill * quantity as real, Buy) + Fees(target * quantity as real, Sell)
  }

  /** Both fees at the target, as a share of the gross reward. */
  function CostShare(fill: real, quantity: int, target: real): real
    requires (target - fill) * quantity as real != 0.0
  {
    RoundTripCost(fill, quantity, target) / ((target - fill) * quantity as real)
  }

  lemma ProceedsClosedForm(price: real, units: real)
    ensures Proceeds(price, units) == price * units * (1.0 - SELL_VARIABLE_RATE) - FIXED_ORDER_COST
    ensures EntryTotal(price, units) == price * units * (1.0 + BUY_VARIABLE_RATE) + FIXED_ORDER_COST
  {
  }

  lemma ScaleLe(a: real, b: real, u: real)
    requires u > 0.0
    ensures a <= b <==> a * u <= b * u
    ensures a < b <==> a * u < b * u
  {
    assert (b - a) * u == b * u - a * u;
    if a < b {
      assert (b - a) * u > 0.0;
    } else {
      assert (a - b) * u >= 0.0;
    }
  }

  lemma StopBounds(limits: Limits, profile: Profile, fill: real, quantity: int, contract: Contract)
    requires ProfileAccepted(limits, profile, fill, quantity, contract)
    ensures 0.0 <= StopFor(limits, profile, fill, contract) < fill
    ensures StopFloor(limits, profile, fill) - contract.tick < StopFor(limits, profile, fill, contract)
  {
    var kept := 1.0 - StopPctFor(limits, profile) / 100.0;
    ScaleLe(0.0, kept, fill);
    ScaleLe(kept, 1.0, fill);
    assert StopFloor(limits, profile, fill) == kept * fill;
    FloorTickGreatest(StopFloor(limits, profile, fill), contract.tick, 0);
  }

  /** The guard for a stop without positive net risk never fires. */
  lemma NetRiskPositive(limits: Limits, profile: Profile, fill: real, quantity: int, contract: Contract)
    requires ProfileAccepted(limits, profile, fill, quantity, contract)
    ensures NetRisk(limits, profile, fill, quantity, contract) > 0.0
  {
    hide StopFor, EntryTotal, Proceeds, StopPctFor, TargetPctFor;
    var stop, units := StopFor(limits, profile, fill, contract), quantity as real;
    StopBounds(limits, profile, fill, quantity, contract);
    ScaleLe(stop, fill, units);
    ScaleLe(0.0, stop, units);
    SpendExceedsProceeds(stop, fill, units);
  }

  lemma SpendExceedsProceeds(stop: real, fill: real, units: real)
    requires 0.0 <= stop * units < fill * units
    ensures EntryTotal(fill, units) > Proceeds(stop, units)
  {
    ProceedsClosedForm(stop, units);
    ProceedsClosedForm(fill, units);
  }

  /** The returned target is exactly the least tick price at or above the percentage floor
      whose net reward reaches the required multiple of the net risk: a tick price meets both
      demands if and only if it is not below the target. */
  lemma TargetIsLeast(limits: Limits, profile: Profile, fill: real, quantity: int, contract: Contract, k: int)
    requires ProfileAccepted(limits, profile, fill, quantity, contract)
    ensures
      var price := k as real * contract.tick;
      && TargetFloor(limits, profile, fill) <= price
      && NetReward(fill, quantity, price) >= DesiredReward(limits, profile, fill, quantity, contract)
      <==> TargetFor(limits, profile, fill, quantity, contract) <= price
  {
    var price := k as real * contract.tick;
    HigherCeilLe(TargetFloor(limits, profile, fill), RewardFloor(limits, profile, fill, quantity, contract),
                 contract.tick, k, price);
    RewardFloorExact(limits, profile, fill, quantity, contract, price);
  }

  lemma HigherCeilLe(x: real, y: real, tick: real, k: int, price: real)
    requires tick > 0.0 && price == k as real * tick
    ensures Max(CeilTick(x, tick), CeilTick(y, tick)) <= price <==> x <= price && y <= price
  {
    CeilTickLeast(x, tick, k);
    CeilTickLeast(y, tick, k);
  }

  lemma RewardFloorExact(limits: Limits, profile: Profile, fill: real, quantity: int, contract: Contract, price: real)
    requires contract.tick > 0.0 && quantity > 0
    ensures RewardFloor(limits, profile, fill, quantity, contract) <= price
      <==> NetReward(fill, quantity, price) >= DesiredReward(limits, profile, fill, quantity, contract)
  {
    var units := quantity as real;
    var desired := DesiredReward(limits, profile, fill, quantity, contract);
    var entry := EntryTotal(fill, units);
    LeDiv(price, entry + desired + FIXED_ORDER_COST, units * (1.0 - SELL_VARIABLE_RATE));
    ProceedsClosedForm(price, units);
    assert price * (units * (1.0 - SELL_VARIABLE_RATE)) == price * units * (1.0 - SELL_VARIABLE_RATE);
  }

  /** How many ticks the target is worth. */
  function TargetTick(limits: Limits, profile: Profile, fill: real, quantity: int, contract: Contract): int
    requires contract.tick > 0.0 && quantity > 0
  {
    HigherTick(TargetFloor(limits, profile, fill), RewardFloor(limits, profile, fill, quantity, contract), contract.tick)
  }

  function HigherTick(x: real, y: real, tick: real): (k: int)
    requires tick > 0.0
    ensures k as real * tick == Max(CeilTick(x, tick), CeilTick(y, tick))
  {
    if CeilTick(x, tick) >= CeilTick(y, tick) then CeilInt(x / tick) else CeilInt(y / tick)
  }

  /** The target is itself a tick price, meets both demands, and lies above the entry. */
  lemma TargetMeetsDemands(limits: Limits, profile: Profile, fill: real, quantity: int, contract: Contract)
    requires ProfileAccepted(limits, profile, fill, quantity, contract)
    ensures
      var target := TargetFor(limits, profile, fill, quantity, contract);
      && target == TargetTick(limits, profile, fill, quantity, contract) as real * contract.tick
      && fill < TargetFloor(limits, profile, fill) <= target
      && NetReward(fill, quantity, target) >= DesiredReward(limits, profile, fill, quantity, contract) > 0.0
      && (target - fill) * quantity as real > 0.0
  {
    hide CeilTick, FloorTick, CostBreakdown, NetReward, DesiredReward, TargetFor, TargetTick, TargetFloor;
    TargetOnTick(limits, profile, fill, quantity, contract);
    TargetIsLeast(limits, profile, fill, quantity, contract, TargetTick(limits, profile, fill, quantity, contract));
    TargetAboveFill(limits, profile, fill, quantity, contract);
    ScaleLe(0.0, TargetFor(limits, profile, fill, quantity, contract) - fill, quantity as real);
  }

  lemma TargetOnTick(limits: Limits, profile: Profile, fill: real, quantity: int, contract: Contract)
    requires contract.tick > 0.0 && quantity > 0
    ensures TargetFor(limits, profile, fill, quantity, contract)
      == TargetTick(limits, profile, fill, quantity, contract) as real * contract.tick
  {
  }

  lemma TargetAboveFill(limits: Limits, profile: Profile, fill: real, quantity: int, contract: Contract)
    requires ProfileAccepted(limits, profile, fill, quantity, contract)
    ensures fill < TargetFloor(limits, profile, fill)
    ensures DesiredReward(limits, profile, fill, quantity, contract) >= NetRisk(limits, profile, fill, quantity, contract) > 0.0
  {
    NetRiskPositive(limits, profile, fill, quantity, contract);
    ScaleLe(1.0, 1.0 + TargetPctFor(limits, profile) / 100.0, fill);
    ScaleLe(1.0, profile.rewardR, NetRisk(limits, profile, fill, quantity, contract));
  }

  /** What `exit_levels` decides, without its search: an invalid profile, costs that eat too
      much of the reward, or the levels. */
  function ExitLevelsFor(limits: Limits, profile: Profile, fill: real, quantity: int, contract: Contract)
    : Result<Levels, ExitError>
  {
    if !ProfileAccepted(limits, profile, fill, quantity, contract) then Err(InvalidProfile)
    else
      var target := TargetFor(limits, profile, fill, quantity, contract);
      TargetMeetsDemands(limits, profile, fill, quantity, contract);
      NetRiskPositive(limits, profile, fill, quantity, contract);
      var share := CostShare(fill, quantity, target);
      if share > profile.maxCostShare then Err(CostsConsumeReward)
      else
        var netRisk := NetRisk(limits, profile, fill, quantity, contract);
        var netReward := NetReward(fill, quantity, target);
        Ok(Levels(StopFor(limits, profile, fill, contract), target, StopPctFor(limits, profile),
                  TargetPctFor(limits, profile), profile.rewardR, profile.maxHold,
                  RoundTripCost(fill, quantity, target), share, profile.maxCostShare, netRisk, netReward, netReward / netRisk))
  }

  /** The round-trip cost is what both fees take off the gross reward. */
  lemma CostsAreDrag(fill: real, quantity: int, target: real)
    ensures RoundTripCost(fill, quantity, target) == target * quantity as real - fill * quantity as real - NetReward(fill, quantity, target)
  {
    hide CostBreakdown;
  }

  /** `exit_levels` as written: it guards against a non-positive net risk and walks up to three
      ticks looking for a target. The postcondition says that neither guard ever decides: the
      result is the loop-free `ExitLevelsFor`, whose errors do not include them. */
  method ExitLevels(limits: Limits, profile: Profile, fill: real, quantity: int, contract: Contract)
    returns (r: Result<Levels, ExitError>)
    ensures r == ExitLevelsFor(limits, profile, fill, quantity, contract)
    ensures r.Err? ==> r.error.InvalidProfile? || r.error.CostsConsumeReward?
  {
    hide CeilTick, FloorTick, EntryTotal, Proceeds, Fees, TargetFloor, StopFor, NetRisk, NetReward, DesiredReward, CostShare, Max;
    var stopPct, targetPct := StopPctFor(limits, profile), TargetPctFor(limits, profile);
    var units, tick := quantity as real, contract.tick;
    if !(fill > 0.0 && quantity > 0 && tick > 0.0 && 0.0 < stopPct < 100.0
         && targetPct > 0.0 && profile.rewardR >= 1.0 && 1 <= profile.maxHold <= 120) {
      return Err(InvalidProfile);
    }
    TargetMeetsDemands(limits, profile, fill, quantity, contract);
    NetRiskPositive(limits, profile, fill, quantity, contract);
    var stop := StopFor(limits, profile, fill, contract);
    var entryTotal := EntryTotal(fill, units);
    var netRisk := NetRisk(limits, profile, fill, quantity, contract);
    if netRisk <= 0.0 {
      return Err(NoPositiveNetRisk);
    }
    var targetFloor := CeilTick(TargetFloor(limits, profile, fill), tick);
    var desired := DesiredReward(limits, profile, fill, quantity, contract);
    var required := (entryTotal + desired + FIXED_ORDER_COST) / (units * (1.0 - SELL_VARIABLE_RATE));
    assert required == RewardFloor(limits, profile, fill, quantity, contract);
    var target := Max(targetFloor, CeilTick(required, tick));
    for attempt := 0 to 3
      invariant attempt == 0
      invariant target == TargetFor(limits, profile, fill, quantity, contract)
    {
      var netReward := NetReward(fill, quantity, target);
      if netReward >= desired && netReward > 0.0 {
        var roundTrip := RoundTripCost(fill, quantity, target);
        var share := CostShare(fill, quantity, target);
        if share > profile.maxCostShare {
          return Err(CostsConsumeReward);
        }
        return Ok(Levels(stop, target, stopPct, targetPct, profile.rewardR, profile.maxHold, roundTrip, share,
                         profile.maxCostShare, netRisk, netReward, netReward / netRisk));
      }
      target := target + tick;
    }
    return Err(ExceedsBoundedSearch);
  }
}
