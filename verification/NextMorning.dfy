/** A run of the desk after which the offline walk and the live monitor name different reasons for
    the same sale: an afternoon entry whose next quote is the following morning's. */
module NextMorning {
  import opened Common
  import opened Rounding
  import opened OptionsRisk
  import opened OptionsSizing
  import opened DeskSession
  import opened DeskLedger
  import opened Desk
  import opened DeskScans
  import opened WalkExit
  import CallLedger

  const AFTERNOON: int := DAY + 14 * HOUR - IST_OFFSET
  const MORNING: int := 2 * DAY + 10 * HOUR - IST_OFFSET
  const REGULAR: DeskSession.Calendar := {1, 2}
  const LIMITS: ApprovedLimits := Limits(100000.0, 5.0, 10.0, 5.0, 10.0, true)
  const OPTION: Listed := Contract("X", 5, CE, 50000.0, 30, 0.05, 901)
  const PROFILE := Profile(4.0, 8.0, 1.5, 30, 0.35)
  const ASKED := Quote(199.0, 200.0, 900, 900, AFTERNOON)
  const CANDIDATE := Candidate(OPTION, ASKED, CE, 49000.0, PROFILE, true)
  const PLAN := Plan(CE, 49000.0, 90, 201.25, PROFILE)
  const WORKER := Env(AFTERNOON, REGULAR, true, false)
  const FRESH: Session := NewSession(1, LIMITS)
  const SCAN := Scan(1, Budget(LIMITS, 100000.0, 0.0), AFTERNOON, [Offer(OPTION, PLAN)])
  const EXECUTION := Execution(true, Some(ASKED), true, true, true)
  const SEEN := Observation(MORNING, OPTION, Quote(199.0, 200.0, 900, 900, MORNING), None)

  /** Start, scan, reserve, settle the answer, buy. */
  const ENTRY: seq<WorkerOp> := [
    Elsewhere(Start(Requested(100000.0, 5.0, 10.0, true, Some(5.0), Some(10.0)), WORKER, true)),
    TakeScan(1, AFTERNOON, AFTERNOON, false, [[CANDIDATE]]),
    ReserveScan(0, false, CallLedger.Clock(AFTERNOON, 1), None, Some(AFTERNOON)),
    Elsewhere(CallOp(CallLedger.SettleResponse(0, 1000, 500, CallLedger.Buy))),
    BuyOffer(0, 0, EXECUTION, WORKER)]

  // ---------------------------------------------------------------- the plan

  lemma Fills()
    ensures FillPrice(ASKED, OPTION, true) == 200.2
    ensures FillPrice(Capped(ASKED), OPTION, true) == 201.25
    ensures FillPrice(SEEN.quote, OPTION, false) == 198.8
  {
    assert 200.0 * BUY_SLIP / 0.05 == 4004.0;
    assert 200.0 * PRICE_CAP * BUY_SLIP / 0.05 == 4024.02;
    assert 199.0 * SELL_SLIP / 0.05 == 3976.02;
  }

  lemma Sized(quote: Quote, fill: real)
    requires FillPrice(quote, OPTION, true) == fill && (fill == 200.2 || fill == 201.25)
    requires quote.ask > 0.0 && quote.askSize == 900 && quote.bidSize == 900
    ensures QuantityFor(SCAN.budget, OPTION, quote) == 90
  {
    hide FillPrice;
    assert Allocation(SCAN.budget) == 25000.0;
    assert RiskBudget(SCAN.budget) == 1000.0;
    assert EntryCapacity(SCAN.budget, fill) >= 120;
    assert 90 <= RiskCapacity(SCAN.budget, fill) < 120;
  }

  lemma StopIs()
    ensures StopFor(LIMITS, PROFILE, 200.2, OPTION) == 192.15
  {
    assert 200.2 * (1.0 - 4.0 / 100.0) / 0.05 == 3843.84;
  }

  lemma RiskIs()
    ensures 0.0 < NetRisk(LIMITS, PROFILE, 200.2, 90, OPTION) < 820.0
  {
    hide StopFor;
    StopIs();
  }

  lemma TargetIs()
    ensures TargetFor(LIMITS, PROFILE, 200.2, 90, OPTION) == 216.25
  {
    hide NetRisk, CeilTick, EntryTotal;
    RiskIs();
    ProceedsClosedForm(200.2, 90.0);
    var floor, reward := TargetFloor(LIMITS, PROFILE, 200.2), RewardFloor(LIMITS, PROFILE, 200.2, 90, OPTION);
    assert floor == 216.216;
    assert reward <= 216.2 by {
      LeDiv(216.2, EntryTotal(200.2, 90.0) + DesiredReward(LIMITS, PROFILE, 200.2, 90, OPTION) + FIXED_ORDER_COST,
            90.0 * (1.0 - SELL_VARIABLE_RATE));
    }
    HigherCeil(floor, reward);
  }

  lemma HigherCeil(floor: real, reward: real)
    requires floor == 216.216 && reward <= 216.2
    ensures Max(CeilTick(floor, 0.05), CeilTick(reward, 0.05)) == 216.25
  {
    assert floor / 0.05 == 4324.32;
    CeilTickLeast(reward, 0.05, 4324);
  }

  lemma Levelled()
    ensures
      var levels := ExitLevelsFor(LIMITS, PROFILE, 200.2, 90, OPTION);
      && levels.Ok? && levels.value.stop == 192.15 && levels.value.target == 216.25 && levels.value.maxHold == 30
  {
    hide StopFor, TargetFor, NetRisk, NetReward;
    StopIs();
    TargetIs();
  }

  // ---------------------------------------------------------------- the run

  const STARTED := Traced(State([FRESH], [], []), [], [])
  const SCANNED := STARTED.(scans := [SCAN])
  const CALL := CallLedger.NewCall(CallLedger.Clock(AFTERNOON, 1), None, Some(AFTERNOON))
  const CALLED := Traced(State([FRESH], [CALL], []), [SCAN], [0])
  const ANSWERED := CALLED.(desk := CALLED.desk.(calls := [CallLedger.SettledResponse(CALL, 1000, 500, CallLedger.Buy)]))

  lemma LatestOfOne(s: Session)
    ensures Latest([s]) == Some(0) && Save([s], s) == [s]
  {
    assert [s][..0] == [];
  }

  lemma StartsFresh()
    ensures Advance(START, ENTRY[0]) == STARTED
  {
    assert FloorTick(100000.0, 0.01) == 100000.0;
    assert FloorTick(5.0, 0.0001) == 5.0;
    assert FloorTick(10.0, 0.0001) == 10.0;
  }

  lemma Offered()
    ensures Offers(SCAN.budget, 1, [[CANDIDATE]], AFTERNOON) == SCAN.offers
  {
    hide FillPrice, QuantityFor, ExitLevelsFor;
    Fills();
    Sized(Capped(ASKED), 201.25);
    Levelled();
    assert [[CANDIDATE]][..0] == [];
  }

  lemma Scans()
    ensures Advance(STARTED, ENTRY[1]) == SCANNED
  {
    hide Offers;
    LatestOfOne(FRESH);
    Offered();
  }

  lemma Calls()
    ensures Advance(SCANNED, ENTRY[2]) == CALLED
  {
    LatestOfOne(FRESH);
  }

  lemma Answers()
    ensures Advance(CALLED, ENTRY[3]) == ANSWERED
  {
  }

  /** The entry transaction's own position. */
  const BOUGHT := Position(0, OPTION, 90, 200.2, EntryTotal(200.2, 90.0), 192.15, 216.25, AFTERNOON,
                           AFTERNOON + 30 * MINUTE, PLAN, None, None)
  const HOLDING: Session := FRESH.(cash := 100000.0 - BOUGHT.costRemaining, position := Some(BOUGHT), entries := 1)

  lemma Enters()
    ensures Entered(FRESH, 0, PurchaseOf(SCAN, SCAN.offers[0], EXECUTION), WORKER) == Ok(HOLDING)
  {
    hide FillPrice, QuantityFor, ExitLevelsFor, EntryTotal;
    Fills();
    Sized(ASKED, 200.2);
    Levelled();
    RewardNeverShort(LIMITS, PROFILE, 200.2, 90, OPTION);
  }

  lemma Buys()
    ensures Advance(ANSWERED, ENTRY[4]).desk.sessions == [HOLDING]
  {
    hide Entered;
    LatestOfOne(FRESH);
    Enters();
  }

  lemma Continues(st: Traced, k: nat)
    requires k < 5
    ensures Work(st, ENTRY[k..]) == Work(Advance(st, ENTRY[k]), ENTRY[k + 1..])
  {
    hide Advance;
    assert ENTRY[k..][1..] == ENTRY[k + 1..];
  }

  lemma Runs()
    ensures Work(START, ENTRY).desk.sessions == [HOLDING]
  {
    hide Advance, Work;
    assert ENTRY[0..] == ENTRY;
    Continues(START, 0);
    StartsFresh();
    Continues(STARTED, 1);
    Scans();
    Continues(SCANNED, 2);
    Calls();
    Continues(CALLED, 3);
    Answers();
    Continues(ANSWERED, 4);
    Buys();
    Finished(Advance(ANSWERED, ENTRY[4]));
  }

  lemma Finished(st: Traced)
    ensures Work(st, ENTRY[5..]) == st
  {
  }

  // ---------------------------------------------------------------- the next morning

  /** The desk's own entry, never quoted again that day: at 10:00 on the next one the walk reports a
      playbook time exit and the desk a session stop, for the same ninety units at the same price. */
  lemma ReasonsDiffer()
    ensures Work(START, ENTRY).desk.sessions == [HOLDING] && HOLDING.state.Running? && Selected(BOUGHT, SEEN)
    ensures
      var row, closing := WalkRow(BOUGHT, None, None, REGULAR, SEEN), DeskRow(HOLDING, REGULAR, SEEN);
      && row == Filled(WalkFill(PlaybookTimeExit, 198.8, 90, MORNING, MORNING))
      && closing.fill.Some? && AsWalkFill(closing.fill.value) == row.fill.(reason := SessionStop)
  {
    Runs();
    Fills();
    hide Work, FillPrice, Proceeds, Quantize8, ExitBasis, SessionLimitReached, MarkedPnl;
    assert ExitQuantity(BOUGHT, SEEN.quote) == 90;
  }
}
