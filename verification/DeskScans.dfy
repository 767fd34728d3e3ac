/** The decision worker around the desk: scans that freeze the session's budget and size a plan for
    each playbook, calls bound to the scan they were reserved for, and entries taken from that scan
    only (`run_once` in `banknifty.py`, `select_plans` in `playbooks.py`). With it the auditor is
    complete without conditions: everything the desk logs replays as a match. */
module DeskScans {
  import opened Common
  import opened Rounding
  import opened OptionsRisk
  import opened OptionsSizing
  import opened DeskSession
  import opened Desk
  import opened Replay
  import CallLedger

  // ---------------------------------------------------------------- plan selection

  /** A contract a playbook may enter. `routed` stands for what does not depend on money: the
      pattern and its regime, the trigger bounds, the required option fields and the plan's life. */
  datatype Candidate = Candidate(contract: Listed, quote: Quote, kind: OptionKind, invalidation: real, profile: Profile, routed: bool)

  datatype Offer = Offer(contract: Listed, plan: Plan)

  const PRICE_CAP: real := 1.005

  /** The quote a plan is sized on: its ask raised by half a percent. */
  function Capped(quote: Quote): Quote {
    quote.(ask := quote.ask * PRICE_CAP)
  }

  function OfferOf(b: Budget, day: int, c: Candidate, now: int): Option<Offer>
    requires b.limits.Valid()
  {
    if !c.routed || c.contract.expiry <= day || !QuoteOk(c.quote, now) then None
    else
      var quantity := QuantityFor(b, c.contract, Capped(c.quote));
      if quantity == 0 then None
      else if ExitLevelsFor(b.limits, c.profile, FillPrice(c.quote, c.contract, true), quantity, c.contract).Err? then None
      else Some(Offer(c.contract, Plan(c.kind, c.invalidation, quantity, FillPrice(Capped(c.quote), c.contract, true), c.profile)))
  }

  /** The first candidate of a playbook that can be sized. */
  function FirstOffer(b: Budget, day: int, candidates: seq<Candidate>, now: int): Option<Offer>
    requires b.limits.Valid()
  {
    if candidates == [] then None
    else
      var first := OfferOf(b, day, candidates[0], now);
      if first.Some? then first else FirstOffer(b, day, candidates[1..], now)
  }

  function Offers(b: Budget, day: int, playbooks: seq<seq<Candidate>>, now: int): seq<Offer>
    requires b.limits.Valid()
  {
    if playbooks == [] then []
    else
      var n := |playbooks| - 1;
      var chosen := FirstOffer(b, day, playbooks[n], now);
      Offers(b, day, playbooks[..n], now) + if chosen.Some? then [chosen.value] else []
  }

  /** `select_plans`: for each playbook its first affordable candidate. */
  method SelectPlans(b: Budget, day: int, playbooks: seq<seq<Candidate>>, now: int) returns (offers: seq<Offer>)
    requires b.limits.Valid()
    ensures offers == Offers(b, day, playbooks, now)
  {
    hide OfferOf;
    offers := [];
    for k := 0 to |playbooks|
      invariant offers == Offers(b, day, playbooks[..k], now)
    {
      assert playbooks[..k + 1][..k] == playbooks[..k];
      var candidates := playbooks[k];
      var chosen: Option<Offer> := None;
      var j := 0;
      while j < |candidates| && chosen.None?
        invariant 0 <= j <= |candidates|
        invariant FirstOffer(b, day, candidates, now) == if chosen.Some? then chosen else FirstOffer(b, day, candidates[j..], now)
        decreases |candidates| - j
      {
        assert candidates[j..][1..] == candidates[j + 1..];
        chosen := OfferOf(b, day, candidates[j], now);
        j := j + 1;
      }
      if chosen.Some? {
        offers := offers + [chosen.value];
      }
    }
    assert playbooks[..|playbooks|] == playbooks;
  }

  // ---------------------------------------------------------------- scans and calls

  /** What one locked scan freezes: the session's budget and the plans offered on it. */
  datatype Scan = Scan(day: int, budget: Budget, spotAt: int, offers: seq<Offer>)

  /** The desk, the scans taken, and for each call the scan it was reserved with. */
  datatype Traced = Traced(desk: State, scans: seq<Scan>, bound: seq<nat>)

  const START: Traced := Traced(EMPTY, [], [])

  /** What the entry transaction learns beside the scan: authority covers plan identity and expiry,
      playbook, calendar and the underlying's bounds. */
  datatype Execution = Execution(authority: bool, quote: Option<Quote>, strategyNamed: bool, chartSetup: bool, calendarClear: bool)

  datatype WorkerOp =
    | TakeScan(seenDay: int, now: int, spotAt: int, calendarBlocked: bool, playbooks: seq<seq<Candidate>>)
    | ReserveScan(scan: nat, halted: bool, clock: CallLedger.Clock, key: Option<CallLedger.EventKey>, scannedAt: Option<int>)
    | BuyOffer(callId: nat, pick: nat, execution: Execution, env: Env)
    | Elsewhere(op: Op)

  function ScanOf(s: Session, now: int, spotAt: int, calendarBlocked: bool, playbooks: seq<seq<Candidate>>): Scan {
    var budget := Budget(s.limits, s.cash, s.realized);
    Scan(s.day, budget, spotAt, if calendarBlocked then [] else Offers(budget, s.day, playbooks, now))
  }

  function PurchaseOf(scan: Scan, offer: Offer, e: Execution): Purchase {
    Purchase(Snapshot(scan.day, scan.budget, offer.contract, offer.plan, scan.spotAt, e.authority),
             e.quote, e.strategyNamed, e.chartSetup, e.calendarClear)
  }

  /** The plan a decision picks out of the scan its call was reserved with. */
  function Picked(st: Traced, callId: nat, pick: nat): Option<(Scan, Offer)> {
    if callId < |st.bound| && st.bound[callId] < |st.scans| && pick < |st.scans[st.bound[callId]].offers|
    then Some((st.scans[st.bound[callId]], st.scans[st.bound[callId]].offers[pick])) else None
  }

  function Advance(st: Traced, op: WorkerOp): Traced {
    match op
    case TakeScan(seenDay, now, spotAt, calendarBlocked, playbooks) =>
      if !Accepting(st.desk, seenDay) then st
      else st.(scans := st.scans + [ScanOf(st.desk.sessions[Latest(st.desk.sessions).value], now, spotAt, calendarBlocked, playbooks)])
    case ReserveScan(scan, halted, clock, key, scannedAt) =>
      if scan >= |st.scans| then st
      else
        var desk := Step(st.desk, Reserve(halted, clock, key, scannedAt));
        st.(desk := desk, bound := if |desk.calls| > |st.desk.calls| then st.bound + [scan] else st.bound)
    case BuyOffer(callId, pick, execution, env) =>
      var picked := Picked(st, callId, pick);
      if picked.None? then st
      else st.(desk := Step(st.desk, Op.Buy(callId, PurchaseOf(picked.value.0, picked.value.1, execution), env)))
    case Elsewhere(other) =>
      if other.Buy? || other.Reserve? then st else st.(desk := Step(st.desk, other))
  }

  function Work(st: Traced, ops: seq<WorkerOp>): Traced
    decreases |ops|
  {
    if ops == [] then st else Work(Advance(st, ops[0]), ops[1..])
  }

  // ---------------------------------------------------------------- what a plan was sized for

  /** The plan's quantity is whole lots that the scan's budget carries at the plan's own price cap. */
  predicate OfferFits(b: Budget, o: Offer) {
    && b.limits.Valid() && o.plan.maxFill > 0.0
    && o.plan.quantity > 0 && o.plan.quantity % o.contract.lot == 0
    && o.plan.quantity <= EntryCapacity(b, o.plan.maxFill) && o.plan.quantity <= RiskCapacity(b, o.plan.maxFill)
  }

  lemma OfferSized(b: Budget, day: int, c: Candidate, now: int)
    requires b.limits.Valid() && OfferOf(b, day, c, now).Some?
    ensures OfferFits(b, OfferOf(b, day, c, now).value)
  {
    hide EntryCapacity, RiskCapacity, ExitLevelsFor, FillPrice;
    BuyFillPositive(Capped(c.quote), c.contract);
    QuantityIsWholeLots(b, c.contract, Capped(c.quote));
    QuantityWithinCapacities(b, c.contract, Capped(c.quote));
    hide QuantityFor;
  }

  lemma QuantityWithinCapacities(b: Budget, contract: Contract, quote: Quote)
    requires Sizable(b, contract, quote) && QuantityFor(b, contract, quote) > 0
    ensures
      var fill, quantity := FillPrice(quote, contract, true), QuantityFor(b, contract, quote);
      fill > 0.0 && quantity <= EntryCapacity(b, fill) && quantity <= RiskCapacity(b, fill)
  {
    hide EntryCapacity, RiskCapacity, FillPrice;
    BuyFillPositive(quote, contract);
  }

  lemma {:induction false} FirstOfferSized(b: Budget, day: int, candidates: seq<Candidate>, now: int)
    requires b.limits.Valid() && FirstOffer(b, day, candidates, now).Some?
    ensures OfferFits(b, FirstOffer(b, day, candidates, now).value)
  {
    hide OfferOf, OfferFits;
    if OfferOf(b, day, candidates[0], now).Some? {
      OfferSized(b, day, candidates[0], now);
    } else {
      FirstOfferSized(b, day, candidates[1..], now);
    }
  }

  lemma {:induction false} OffersSized(b: Budget, day: int, playbooks: seq<seq<Candidate>>, now: int)
    requires b.limits.Valid()
    ensures forall k :: 0 <= k < |Offers(b, day, playbooks, now)| ==> OfferFits(b, Offers(b, day, playbooks, now)[k])
  {
    hide FirstOffer, OfferFits;
    if playbooks != [] {
      var n := |playbooks| - 1;
      OffersSized(b, day, playbooks[..n], now);
      if FirstOffer(b, day, playbooks[n], now).Some? {
        FirstOfferSized(b, day, playbooks[n], now);
      }
    }
  }

  /** A lower price only raises what a budget carries. */
  lemma CheaperCarries(b: Budget, quantity: int, fill: real, cap: real)
    requires b.limits.Valid() && 0.0 < fill <= cap && quantity > 0
    requires quantity <= EntryCapacity(b, cap) && quantity <= RiskCapacity(b, cap)
    ensures quantity <= EntryCapacity(b, fill) && quantity <= RiskCapacity(b, fill)
  {
    hide Allocation, RiskBudget;
    EntryUnitMonotone(fill, cap);
    RiskUnitMonotone(b.limits, fill, cap);
    UnitsFit(Allocation(b) - FIXED_ORDER_COST, EntryUnit(fill), quantity);
    UnitsFit(Allocation(b) - FIXED_ORDER_COST, EntryUnit(cap), quantity);
    UnitsFit(RiskBudget(b) - 2.0 * FIXED_ORDER_COST, RiskUnit(b.limits, fill), quantity);
    UnitsFit(RiskBudget(b) - 2.0 * FIXED_ORDER_COST, RiskUnit(b.limits, cap), quantity);
    hide EntryUnit, RiskUnit;
    Scaled(EntryUnit(fill), EntryUnit(cap), quantity as real);
    Scaled(RiskUnit(b.limits, fill), RiskUnit(b.limits, cap), quantity as real);
  }

  lemma Scaled(a: real, b: real, u: real)
    requires a <= b && u > 0.0
    ensures u * a <= u * b
  {
    ScaleLe(a, b, u);
  }

  lemma EntryUnitMonotone(fill: real, cap: real)
    requires 0.0 < fill <= cap
    ensures 0.0 < EntryUnit(fill) <= EntryUnit(cap)
  {
  }

  lemma RiskUnitMonotone(limits: Limits, fill: real, cap: real)
    requires limits.Valid() && 0.0 < fill <= cap
    ensures 0.0 < RiskUnit(limits, fill) <= RiskUnit(limits, cap)
  {
    var rate := limits.stopPct / 100.0 + BUY_VARIABLE_RATE + SELL_VARIABLE_RATE;
    assert rate > 0.0;
    ScaleLe(fill, cap, rate);
    ScaleLe(0.0, fill, rate);
  }

  /** At any price up to the cap, a quantity that today's session affords on a quote also fits the
      scan's budget on that quote: the budgets agree on the plan, the depth is the quote's own. */
  lemma OfferStillFits(b: Budget, session: Budget, o: Offer, quote: Quote)
    requires OfferFits(b, o) && session.limits.Valid() && quote.ask > 0.0
    requires FillPrice(quote, o.contract, true) <= o.plan.maxFill
    requires o.plan.quantity <= QuantityFor(session, o.contract, quote)
    ensures o.plan.quantity <= QuantityFor(b, o.contract, quote)
  {
    hide EntryCapacity, RiskCapacity, FillPrice;
    var fill, quantity := FillPrice(quote, o.contract, true), o.plan.quantity;
    BuyFillPositive(quote, o.contract);
    CheaperCarries(b, quantity, fill, o.plan.maxFill);
    WholeLotsGreatest(quantity, UnitsFor(b, o.contract, quote), o.contract.lot);
    WholeLotsGreatest(quantity, UnitsFor(session, o.contract, quote), o.contract.lot);
    hide WholeLots;
  }

  /** An entry bought from an offer replays as a match. */
  lemma OfferedEntryMatches(s: Session, callId: nat, scan: Scan, offer: Offer, e: Execution, env: Env)
    requires OfferFits(scan.budget, offer) && scan.budget.limits == s.limits
    requires Entered(s, callId, PurchaseOf(scan, offer, e), env).Ok?
    ensures
      var purchase := PurchaseOf(scan, offer, e);
      EntryChecksOut(Entered(s, callId, purchase, env).value.position.value, purchase.quote.value, purchase.snapshot)
  {
    hide EntryChecksOut, QuantityFor, OfferFits;
    var purchase := PurchaseOf(scan, offer, e);
    EntryWasPriced(s, callId, purchase, env);
    OfferStillFits(scan.budget, Budget(s.limits, s.cash, s.realized), offer, purchase.quote.value);
    EntryMatchesIffBudgetFits(s, callId, purchase, env);
  }

  /** What an accepted entry went through. */
  lemma EntryWasPriced(s: Session, callId: nat, purchase: Purchase, env: Env)
    requires Entered(s, callId, purchase, env).Ok?
    ensures purchase.quote.Some? && purchase.quote.value.ask > 0.0
    ensures
      var snapshot, quote := purchase.snapshot, purchase.quote.value;
      && FillPrice(quote, snapshot.contract, true) <= snapshot.plan.maxFill
      && snapshot.plan.quantity <= QuantityFor(Budget(s.limits, s.cash, s.realized), snapshot.contract, quote)
      && Entered(s, callId, purchase, env).value.position.Some?
      && Entered(s, callId, purchase, env).value.position.value.quantity == snapshot.plan.quantity
  {
    hide QuantityFor, ExitLevelsFor, FillPrice, EntryTotal, SessionLimitReached, EntryWindow;
  }

  // ---------------------------------------------------------------- a session's limits never change

  /** The scan is of an earlier day than the latest session, or was taken under its very limits. */
  predicate Current(sessions: seq<Session>, scan: Scan) {
    var latest := Latest(sessions);
    && latest.Some? && scan.day <= sessions[latest.value].day
    && (scan.day == sessions[latest.value].day ==> scan.budget.limits == sessions[latest.value].limits)
  }

  /** Saving a version of the latest session that kept its day and limits. */
  lemma SaveLatestKeeps(sessions: seq<Session>, s: Session, scan: Scan)
    requires DistinctDays(sessions) && Current(sessions, scan)
    requires
      var was := sessions[Latest(sessions).value];
      s.day == was.day && s.limits == was.limits
    ensures Current(Save(sessions, s), scan)
  {
    hide Save, Latest, DistinctDays;
    var l := Latest(sessions).value;
    SaveUpdates(sessions, l, s);
    LatestByDays(sessions, sessions[l := s]);
  }

  /** Saving a session of another day than the latest one: an older day's row may be replaced, and
      a later day becomes the latest. */
  lemma SaveOtherKeeps(sessions: seq<Session>, s: Session, scan: Scan)
    requires DistinctDays(sessions) && Current(sessions, scan)
    requires s.day != sessions[Latest(sessions).value].day
    ensures Current(Save(sessions, s), scan)
  {
    hide Save;
    var l := Latest(sessions).value;
    if i: nat :| i < |sessions| && sessions[i].day == s.day {
      SaveUpdates(sessions, i, s);
      LatestByDays(sessions, sessions[i := s]);
    } else {
      SaveAppends(sessions, s);
      var saved := sessions + [s];
      assert saved[..|sessions|] == sessions;
    }
  }

  lemma MonitorKeepsLimits(s: Session, env: Env, seen: Option<nat>, quote: Option<Quote>, underlying: Option<Sample>)
    ensures
      var after := Monitored(s, env, seen, quote, underlying).session;
      after.day == s.day && after.limits == s.limits
  {
    hide MustStop, MarkedPnl, MonitorReason, FillPrice, Proceeds, Quantize8, ExitBasis, ExitQuantity, MarketWindow;
  }

  lemma EntryKeepsLimits(s: Session, callId: nat, purchase: Purchase, env: Env)
    requires Entered(s, callId, purchase, env).Ok?
    ensures
      var after := Entered(s, callId, purchase, env).value;
      after.day == s.day && after.limits == s.limits
  {
    hide ValidatePlan, SessionLimitReached, EntryWindow, FillPrice, EntryTotal;
  }

  lemma StartKeepsCurrent(st: State, request: Requested, env: Env, configured: bool, scan: Scan)
    requires DistinctDays(st.sessions) && Current(st.sessions, scan)
    ensures Current(Step(st, Start(request, env, configured)).sessions, scan)
  {
    hide ValidateLimits, Save, Latest, DistinctDays, Resumable;
    var started := Started(st.sessions, request, env, configured);
    var latest := Latest(st.sessions);
    if started.Ok? {
      if st.sessions[latest.value].day == DateOf(env.now) {
        SaveLatestKeeps(st.sessions, started.value, scan);
      } else {
        SaveOtherKeeps(st.sessions, started.value, scan);
      }
    }
  }

  lemma StepKeepsCurrent(st: State, op: Op, scan: Scan)
    requires DistinctDays(st.sessions) && Current(st.sessions, scan)
    ensures Current(Step(st, op).sessions, scan)
  {
    hide Current, Save, Latest, DistinctDays, Started, Monitored, Entered, Settled, AnswerSettlement, CallLedger.Step, Decided;
    LatestExists(st.sessions, scan);
    var latest := Latest(st.sessions).value;
    match op
    case Start(request, env, configured) => StartKeepsCurrent(st, request, env, configured, scan);
    case Stop => SaveLatestKeeps(st.sessions, Stopped(st.sessions[latest]), scan);
    case Monitor(env, seen, quote, underlying) =>
      MonitorKeepsLimits(st.sessions[latest], env, seen, quote, underlying);
      SaveLatestKeeps(st.sessions, Monitored(st.sessions[latest], env, seen, quote, underlying).session, scan);
    case Advise(callId, day) =>
    case Buy(callId, purchase, env) =>
      if Entered(st.sessions[latest], callId, purchase, env).Ok? {
        EntryKeepsLimits(st.sessions[latest], callId, purchase, env);
        SaveLatestKeeps(st.sessions, Entered(st.sessions[latest], callId, purchase, env).value, scan);
      }
    case SettleExpired(id, price, costs, reference, env) =>
      if AnswerSettlement(st, id, price, costs, reference, env.now).SettledNow? {
        SettledNowMeans(st, id, price, costs, reference, env.now);
        var s := st.sessions[latest];
        SettledLimits(s, s.position.value, price, costs);
        SaveLatestKeeps(st.sessions, Settled(s, s.position.value, price, costs), scan);
      }
    case Reserve(halted, clock, key, scannedAt) =>
    case CallOp(callOp) =>
  }

  lemma LatestExists(sessions: seq<Session>, scan: Scan)
    requires Current(sessions, scan)
    ensures Latest(sessions).Some?
  {
    hide Latest;
  }

  lemma SettledLimits(s: Session, p: Position, price: real, costs: real)
    ensures Settled(s, p, price, costs).day == s.day && Settled(s, p, price, costs).limits == s.limits
  {
  }

  // ---------------------------------------------------------------- every run

  ghost predicate ScansSound(st: Traced) {
    && (forall k :: 0 <= k < |st.scans| ==> Current(st.desk.sessions, st.scans[k]))
    && (forall k, j :: 0 <= k < |st.scans| && 0 <= j < |st.scans[k].offers| ==> OfferFits(st.scans[k].budget, st.scans[k].offers[j]))
  }

  ghost predicate EntriesMatch(events: seq<Event>) {
    forall i :: 0 <= i < |events| && events[i].PaperEntry? ==>
      EntryChecksOut(events[i].position, events[i].quote, events[i].snapshot)
  }

  ghost predicate TracedSound(st: Traced) {
    && Valid(st.desk) && Audited(st.desk) && ScansSound(st) && EntriesMatch(st.desk.events)
    && |st.bound| == |st.desk.calls| && forall k :: 0 <= k < |st.bound| ==> st.bound[k] < |st.scans|
  }

  lemma StartIsSound()
    ensures TracedSound(START)
  {
    EmptyIsValid();
  }

  /** Only a BUY adds an entry, and only a reservation adds a call. */
  lemma OthersAddNoEntry(st: State, op: Op)
    requires !op.Buy?
    ensures EntriesMatch(st.events) ==> EntriesMatch(Step(st, op).events)
    ensures op.Reserve? || |Step(st, op).calls| == |st.calls|
    ensures op.Reserve? ==> |st.calls| <= |Step(st, op).calls| <= |st.calls| + 1
  {
    hide EntryChecksOut, Save, Latest, Started, Monitored, Settled, AnswerSettlement, Decided, Accepting, CallLedger.Admits;
  }

  lemma BuyAddsEntry(st: State, callId: nat, purchase: Purchase, env: Env)
    ensures
      var after := Step(st, Op.Buy(callId, purchase, env));
      && |after.calls| == |st.calls|
      && (after.events == st.events
          || (&& Accepting(st, purchase.snapshot.day)
              && var s := st.sessions[Latest(st.sessions).value];
                 && Entered(s, callId, purchase, env).Ok? && Entered(s, callId, purchase, env).value.position.Some? && purchase.quote.Some?
                 && after.events == st.events + [PaperEntry(s.day, Entered(s, callId, purchase, env).value.position.value,
                                                            purchase.quote.value, purchase.snapshot)]))
  {
    hide Save, Latest, Entered, Decided;
    if Accepting(st, purchase.snapshot.day) && Decided(st.calls, callId, true) {
      var s := st.sessions[Latest(st.sessions).value];
      if Entered(s, callId, purchase, env).Ok? {
        EntryWasPriced(s, callId, purchase, env);
        EntryKeepsLimits(s, callId, purchase, env);
      }
    }
  }

  lemma BuyKeepsEntries(st: Traced, callId: nat, pick: nat, execution: Execution, env: Env)
    requires ScansSound(st) && EntriesMatch(st.desk.events) && Picked(st, callId, pick).Some?
    ensures
      var picked := Picked(st, callId, pick).value;
      EntriesMatch(Step(st.desk, Op.Buy(callId, PurchaseOf(picked.0, picked.1, execution), env)).events)
  {
    hide Step, Entered, OfferFits, EntryChecksOut, Latest;
    var (scan, offer) := Picked(st, callId, pick).value;
    var purchase := PurchaseOf(scan, offer, execution);
    BuyAddsEntry(st.desk, callId, purchase, env);
    var after := Step(st.desk, Op.Buy(callId, purchase, env)).events;
    if after != st.desk.events {
      var s := st.desk.sessions[Latest(st.desk.sessions).value];
      assert Current(st.desk.sessions, scan);
      OfferedEntryMatches(s, callId, scan, offer, execution, env);
    }
  }

  /** Plans come out of the sizing rule, so the desk's assumption on purchases holds. */
  lemma OfferWellFormed(scan: Scan, offer: Offer, execution: Execution, callId: nat, env: Env)
    requires OfferFits(scan.budget, offer)
    ensures WellFormed(Op.Buy(callId, PurchaseOf(scan, offer, execution), env))
  {
  }

  lemma ScanSound(s: Session, now: int, spotAt: int, calendarBlocked: bool, playbooks: seq<seq<Candidate>>)
    ensures
      var scan := ScanOf(s, now, spotAt, calendarBlocked, playbooks);
      && scan.day == s.day && scan.budget.limits == s.limits
      && forall j :: 0 <= j < |scan.offers| ==> OfferFits(scan.budget, scan.offers[j])
  {
    hide OfferFits, Offers;
    OffersSized(Budget(s.limits, s.cash, s.realized), s.day, playbooks, now);
  }

  lemma DeskStepKeeps(st: Traced, op: Op)
    requires Valid(st.desk) && Audited(st.desk) && ScansSound(st) && WellFormed(op)
    ensures Valid(Step(st.desk, op)) && Audited(Step(st.desk, op)) && ScansSound(st.(desk := Step(st.desk, op)))
  {
    StepKeepsValid(st.desk, op);
    StepKeepsAudited(st.desk, op);
    hide Step, Current, OfferFits, Audited, BooksSound, OthersFlat, EntriesOwnCalls, CallLedger.Valid, DistinctDays;
    forall k | 0 <= k < |st.scans| ensures Current(Step(st.desk, op).sessions, st.scans[k]) {
      StepKeepsCurrent(st.desk, op, st.scans[k]);
    }
  }

  lemma AdvanceKeeps(st: Traced, op: WorkerOp)
    requires TracedSound(st)
    ensures TracedSound(Advance(st, op))
  {
    hide Step, Valid, Audited, EntriesMatch, Latest;
    match op
    case TakeScan(seenDay, now, spotAt, calendarBlocked, playbooks) =>
      if Accepting(st.desk, seenDay) {
        ScanSound(st.desk.sessions[Latest(st.desk.sessions).value], now, spotAt, calendarBlocked, playbooks);
        hide ScanOf, OfferFits;
      }
    case ReserveScan(scan, halted, clock, key, scannedAt) =>
      hide ScansSound;
      DeskStepKeeps(st, Reserve(halted, clock, key, scannedAt));
      OthersAddNoEntry(st.desk, Reserve(halted, clock, key, scannedAt));
      SoundScansOnly(st, Advance(st, op));
    case BuyOffer(callId, pick, execution, env) =>
      if Picked(st, callId, pick).Some? {
        var (scan, offer) := Picked(st, callId, pick).value;
        var purchase := PurchaseOf(scan, offer, execution);
        OfferWellFormed(scan, offer, execution, callId, env);
        hide OfferFits, PurchaseOf, ScansSound;
        DeskStepKeeps(st, Op.Buy(callId, purchase, env));
        BuyKeepsEntries(st, callId, pick, execution, env);
        BuyAddsEntry(st.desk, callId, purchase, env);
      }
    case Elsewhere(other) =>
      hide ScansSound;
      if !other.Buy? && !other.Reserve? {
        DeskStepKeeps(st, other);
        OthersAddNoEntry(st.desk, other);
      }
  }

  /** Whether the scans are sound depends on the sessions and the scans alone. */
  lemma SoundScansOnly(st: Traced, after: Traced)
    ensures after.scans == st.scans && ScansSound(st.(desk := after.desk)) ==> ScansSound(after)
  {
    hide Current, OfferFits;
  }

  lemma {:induction false} WorkKeeps(st: Traced, ops: seq<WorkerOp>)
    requires TracedSound(st)
    ensures TracedSound(Work(st, ops))
    decreases |ops|
  {
    hide TracedSound, Advance;
    if ops != [] {
      AdvanceKeeps(st, ops[0]);
      WorkKeeps(Advance(st, ops[0]), ops[1..]);
    }
  }

  lemma {:induction false} EntryStatus(events: seq<Event>, i: nat)
    requires i < |events| && events[i].PaperEntry?
    ensures AuditOf(events).statuses[i].Match? <==> EntryChecksOut(events[i].position, events[i].quote, events[i].snapshot)
  {
    hide EntryChecksOut, CheckExit, CheckSettlement;
    var n := |events| - 1;
    assert events == events[..n] + [events[n]];
    AuditAppended(events[..n], events[n]);
    hide AuditOf;
    if i < n {
      EntryStatus(events[..n], i);
    }
  }

  /** The auditor is complete: in the log of every run of workers and operators, in any order and
      with any clock readings, every entry, exit and settlement replays as a match. */
  lemma EveryEventMatches(ops: seq<WorkerOp>, i: nat)
    requires i < |Work(START, ops).desk.events|
    ensures AuditOf(Work(START, ops).desk.events).statuses[i] == Match
  {
    hide Work, EntryChecksOut, Valid, ScansSound;
    StartIsSound();
    WorkKeeps(START, ops);
    var events := Work(START, ops).desk.events;
    if events[i].PaperEntry? {
      EntryStatus(events, i);
    } else {
      assert HasEntry(events, PositionOf(events[i]));
      var j :| 0 <= j < |events| && events[j].PaperEntry? && events[j].position.id == PositionOf(events[i]);
      EntryStatus(events, j);
      assert EntryMatched(events, PositionOf(events[i]));
    }
  }

  // ---------------------------------------------------------------- the worker

  class DecisionWorker {
    const desk: Service
    var scans: seq<Scan>
    var bound: seq<nat>

    ghost function Model(): Traced
      reads this, desk, desk.store
    {
      Traced(desk.Model(), scans, bound)
    }

    ghost predicate Sound()
      reads this, desk, desk.store
    {
      TracedSound(Model())
    }

    constructor ()
      ensures Sound() && Model() == START
    {
      StartIsSound();
      desk := new Service();
      scans, bound := [], [];
    }

    /** The locked half of a scan: freeze the running session's budget and size the plans on it. */
    method TakeScan(seenDay: int, now: int, spotAt: int, calendarBlocked: bool, playbooks: seq<seq<Candidate>>)
      returns (scan: Option<nat>)
      requires Sound()
      modifies this
      ensures Sound() && Model() == Advance(old(Model()), WorkerOp.TakeScan(seenDay, now, spotAt, calendarBlocked, playbooks))
      ensures scan.Some? ==> scan.value == |old(scans)| && scan.value < |scans|
    {
      AdvanceKeeps(Model(), WorkerOp.TakeScan(seenDay, now, spotAt, calendarBlocked, playbooks));
      hide TracedSound, Offers;
      var latest := Latest(desk.sessions);
      if latest.None? || desk.sessions[latest.value].day != seenDay || !desk.sessions[latest.value].state.Running? {
        return None;
      }
      var s := desk.sessions[latest.value];
      var budget := Budget(s.limits, s.cash, s.realized);
      var offers: seq<Offer> := [];
      if !calendarBlocked {
        offers := SelectPlans(budget, s.day, playbooks, now);
      }
      scan := Some(|scans|);
      scans := scans + [Scan(s.day, budget, spotAt, offers)];
    }

    /** Reserve a call for a scan and bind it. */
    method Reserve(scan: nat, halted: bool, clock: CallLedger.Clock, key: Option<CallLedger.EventKey>, scannedAt: Option<int>)
      returns (id: Option<nat>)
      requires Sound() && scan < |scans|
      modifies this, desk.store
      ensures Sound() && Model() == Advance(old(Model()), ReserveScan(scan, halted, clock, key, scannedAt))
      ensures id.Some? ==> id.value < |bound| && bound[id.value] == scan
    {
      AdvanceKeeps(Model(), ReserveScan(scan, halted, clock, key, scannedAt));
      ValidWithin(Model());
      BoundToCalls(Model());
      hide TracedSound, Step, CallLedger.Admits;
      ReserveAdds(desk.Model(), halted, clock, key, scannedAt);
      id := desk.Reserve(halted, clock, key, scannedAt);
      if id.Some? {
        bound := bound + [scan];
      }
    }

    /** Apply a BUY of one of the plans in the scan its call was reserved with. */
    method Buy(callId: nat, pick: nat, execution: Execution, env: Env) returns (refusal: Option<EntryError>)
      requires Sound()
      modifies desk, desk.store
      ensures Sound() && Model() == Advance(old(Model()), BuyOffer(callId, pick, execution, env))
      ensures refusal.Some? ==> Model() == old(Model())
    {
      AdvanceKeeps(Model(), BuyOffer(callId, pick, execution, env));
      ValidWithin(Model());
      if callId >= |bound| || bound[callId] >= |scans| || pick >= |scans[bound[callId]].offers| {
        return Some(PlanUnauthorized);
      }
      var scan := scans[bound[callId]];
      OfferWellFormed(scan, scan.offers[pick], execution, callId, env);
      hide TracedSound, Step, PurchaseOf;
      refusal := desk.Buy(callId, PurchaseOf(scan, scan.offers[pick], execution), env);
    }
  }

  lemma ValidWithin(st: Traced)
    requires TracedSound(st)
    ensures Valid(st.desk)
  {
  }

  lemma BoundToCalls(st: Traced)
    requires TracedSound(st)
    ensures |st.bound| == |st.desk.calls|
  {
  }

  lemma ReserveAdds(st: State, halted: bool, clock: CallLedger.Clock, key: Option<CallLedger.EventKey>, scannedAt: Option<int>)
    ensures
      var after := Step(st, Reserve(halted, clock, key, scannedAt));
      && after.sessions == st.sessions && after.events == st.events
      && |after.calls| == |st.calls| + if CallLedger.Admits(st.calls, GateOf(st.sessions), halted, clock, key) then 1 else 0
  {
    hide CallLedger.Admits;
  }
}
