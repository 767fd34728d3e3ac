/** The offline auditor that rechecks frozen entries and fill accounting from the event log
    (`replay_fills` in `options_replay.py`), and its completeness for the desk's own log. */
module Replay {
  import opened Common
  import opened Rounding
  import opened OptionsRisk
  import opened OptionsSizing
  import opened DeskSession
  import opened DeskLedger
  import opened Desk
  import CallLedger

  datatype Status = Match | Mismatch | Unreplayable

  /** What the auditor remembers of a matched entry. */
  datatype Held = Held(contract: Listed, quantity: int, cost: real)

  datatype Audit = Audit(held: map<nat, Held>, statuses: seq<Status>)

  /** Recheck one entry with the state recorded in its call's snapshot. */
  predicate EntryChecksOut(p: Position, quote: Quote, snapshot: Snapshot) {
    var budget := snapshot.budget;
    budget.limits.Valid() &&
    var levels := ValidatePlan(snapshot, budget.limits, budget.cash, budget.realized, quote, p.enteredAt);
    levels.Ok? &&
    var price := FillPrice(quote, snapshot.contract, true);
    && p.plan == snapshot.plan
    && p.quantity == snapshot.plan.quantity
    && p.contract == snapshot.contract
    && p.entry == price
    && p.costRemaining == EntryTotal(price, snapshot.plan.quantity as real)
    && p.stop == levels.value.stop && p.target == levels.value.target
  }

  /** Recheck one exit against what is held. The second component is what is held afterwards;
      an impossible quantity raises before anything is updated. */
  function CheckExit(h: Held, fill: Fill): (Status, Held) {
    if !(0 < fill.quantity <= h.quantity) || fill.quantity % h.contract.lot != 0 then (Mismatch, h)
    else
      var price := FillPrice(fill.quote, h.contract, false);
      var expected := WholeLots(MinInt(h.quantity, fill.quote.bidSize), h.contract.lot);
      var basis := h.cost * fill.quantity as real / h.quantity as real;
      var pnl := Quantize8(Proceeds(price, fill.quantity as real) - basis);
      var agrees := fill.quantity == expected && fill.price == price && fill.pnl == pnl
                    && fill.closed == (fill.quantity == h.quantity);
      (if agrees then Match else Mismatch,
       h.(quantity := h.quantity - fill.quantity, cost := h.cost - basis))
  }

  function CheckSettlement(h: Held, quantity: int, price: real, costs: real, pnl: real, closed: bool): (Status, Held) {
    if !(0 < quantity <= h.quantity) || quantity % h.contract.lot != 0 then (Mismatch, h)
    else
      var basis := h.cost * quantity as real / h.quantity as real;
      var agrees := quantity == h.quantity && pnl == price * quantity as real - costs - basis
                    && closed == (quantity == h.quantity);
      (if agrees then Match else Mismatch, h.(quantity := h.quantity - quantity, cost := h.cost - basis))
  }

  function CheckEvent(held: map<nat, Held>, e: Event): (Status, map<nat, Held>) {
    match e
    case PaperEntry(_, p, quote, snapshot) =>
      if EntryChecksOut(p, quote, snapshot)
      then (Match, held[p.id := Held(snapshot.contract, snapshot.plan.quantity, EntryTotal(p.entry, snapshot.plan.quantity as real))])
      else (Mismatch, held)
    case PaperExit(_, fill) =>
      if fill.positionId !in held then (Unreplayable, held)
      else
        var (status, h) := CheckExit(held[fill.positionId], fill);
        (status, held[fill.positionId := h])
    case PaperSettlement(_, id, quantity, price, costs, pnl, _, closed) =>
      if id !in held then (Unreplayable, held)
      else
        var (status, h) := CheckSettlement(held[id], quantity, price, costs, pnl, closed);
        (status, held[id := h])
  }

  /** The audit of a whole log. */
  function AuditOf(events: seq<Event>): (a: Audit)
    ensures |a.statuses| == |events|
  {
    if events == [] then Audit(map[], [])
    else
      var before := AuditOf(events[..|events| - 1]);
      var (status, held) := CheckEvent(before.held, events[|events| - 1]);
      Audit(held, before.statuses + [status])
  }

  /** `replay_fills` as written: one pass over the events, updating what is held. */
  method ReplayFills(events: seq<Event>) returns (statuses: seq<Status>)
    ensures statuses == AuditOf(events).statuses
  {
    var held: map<nat, Held> := map[];
    statuses := [];
    for i := 0 to |events|
      invariant AuditOf(events[..i]) == Audit(held, statuses)
    {
      assert events[..i + 1][..i] == events[..i];
      var (status, after) := CheckEvent(held, events[i]);
      held := after;
      statuses := statuses + [status];
    }
    assert events[..|events|] == events;
  }

  // ---------------------------------------------------------------- completeness

  function PositionOf(e: Event): nat {
    match e
    case PaperEntry(_, p, _, _) => p.id
    case PaperExit(_, fill) => fill.positionId
    case PaperSettlement(_, id, _, _, _, _, _, _) => id
  }

  ghost predicate EntryMatched(events: seq<Event>, id: nat) {
    exists i :: 0 <= i < |events| && events[i].PaperEntry? && events[i].position.id == id
                && AuditOf(events).statuses[i].Match?
  }

  /** The open position of the latest session. */
  function OpenOf(st: State): Option<Position> {
    var latest := Latest(st.sessions);
    if latest.None? then None else st.sessions[latest.value].position
  }

  lemma AuditAppended(events: seq<Event>, e: Event)
    ensures
      var before, after := AuditOf(events), AuditOf(events + [e]);
      var (status, held) := CheckEvent(before.held, e);
      after == Audit(held, before.statuses + [status])
  {
    assert (events + [e])[..|events|] == events;
  }

  /** Selling everything takes the whole cost, whichever way the share is written. */
  lemma ShareOfCost(p: Position, quantity: int)
    requires p.quantity > 0
    ensures ExitBasis(p, quantity) == p.costRemaining * quantity as real / p.quantity as real
  {
    var q := p.quantity as real;
    LeDiv(p.costRemaining, p.costRemaining * q, q);
  }

  /** The desk's own fill, seen by an auditor who holds what the desk holds. */
  lemma FillMatches(p: Position, quote: Quote, reason: ExitReason, now: int)
    requires p.quantity > 0 && ExitQuantity(p, quote) > 0
    ensures
      var fill := FillFor(p, quote, reason, now);
      CheckExit(Held(p.contract, p.quantity, p.costRemaining), fill)
        == (Match, Held(p.contract, p.quantity - fill.quantity, p.costRemaining - ExitBasis(p, fill.quantity)))
  {
    hide ExitBasis, FillPrice, Quantize8, Proceeds, ExitQuantity;
    var quantity, price := ExitQuantity(p, quote), FillPrice(quote, p.contract, false);
    assert quantity == WholeLots(MinInt(p.quantity, quote.bidSize), p.contract.lot) by {
      ExitQuantityIs(p, quote);
    }
    ShareOfCost(p, quantity);
    var fill := FillFor(p, quote, reason, now);
    var h := Held(p.contract, p.quantity, p.costRemaining);
    var basis := h.cost * fill.quantity as real / h.quantity as real;
    assert fill.quantity == quantity && fill.price == price && fill.closed == (quantity == p.quantity);
    assert basis == ExitBasis(p, quantity);
    assert fill.pnl == Quantize8(Proceeds(price, quantity as real) - basis);
    assert fill.quantity % h.contract.lot == 0;
    assert CheckExit(h, fill).0 == Match;
  }

  lemma ExitQuantityIs(p: Position, quote: Quote)
    ensures ExitQuantity(p, quote) == WholeLots(MinInt(p.quantity, quote.bidSize), p.contract.lot)
  {
  }

  lemma SettlementMatches(p: Position, price: real, costs: real)
    requires p.quantity > 0 && p.quantity % p.contract.lot == 0
    ensures CheckSettlement(Held(p.contract, p.quantity, p.costRemaining), p.quantity, price, costs,
                            SettlementPnl(p, price, costs), true).0 == Match
  {
    ShareOfCost(p, p.quantity);
  }

  /** How one event extends the audit's bookkeeping facts. */
  lemma MatchedAppended(events: seq<Event>, e: Event, id: nat)
    ensures EntryMatched(events + [e], id)
      <==> EntryMatched(events, id) || (e.PaperEntry? && e.position.id == id && AuditOf(events + [e]).statuses[|events|].Match?)
  {
    AuditAppended(events, e);
    var after := events + [e];
    if EntryMatched(events, id) {
      var i :| 0 <= i < |events| && events[i].PaperEntry? && events[i].position.id == id && AuditOf(events).statuses[i].Match?;
      assert after[i] == events[i] && AuditOf(after).statuses[i].Match?;
    }
    if EntryMatched(after, id) {
      var i :| 0 <= i < |after| && after[i].PaperEntry? && after[i].position.id == id && AuditOf(after).statuses[i].Match?;
      if i < |events| {
        assert events[i] == after[i] && AuditOf(events).statuses[i].Match?;
      }
    }
    if e.PaperEntry? && e.position.id == id && AuditOf(after).statuses[|events|].Match? {
      assert after[|events|] == e;
    }
  }

  ghost predicate AuditFaithful(events: seq<Event>) {
    var audit := AuditOf(events);
    && (forall id :: id in audit.held <==> EntryMatched(events, id))
    && (forall i :: 0 <= i < |events| && !events[i].PaperEntry? ==>
          audit.statuses[i] == if PositionOf(events[i]) in audit.held then Match else Unreplayable)
  }

  ghost predicate HasEntry(events: seq<Event>, id: nat) {
    exists i :: 0 <= i < |events| && events[i].PaperEntry? && events[i].position.id == id
  }

  /** The auditor holds this position as the desk does, unless its entry did not match. */
  ghost predicate HoldsLike(events: seq<Event>, p: Position) {
    && HasEntry(events, p.id)
    && (p.id in AuditOf(events).held ==> AuditOf(events).held[p.id] == Held(p.contract, p.quantity, p.costRemaining))
  }

  lemma HasEntryAppended(events: seq<Event>, e: Event, id: nat)
    ensures HasEntry(events + [e], id) <==> HasEntry(events, id) || (e.PaperEntry? && e.position.id == id)
  {
    var after := events + [e];
    if HasEntry(events, id) {
      var i :| 0 <= i < |events| && events[i].PaperEntry? && events[i].position.id == id;
      assert after[i] == events[i];
    }
    if HasEntry(after, id) {
      var i :| 0 <= i < |after| && after[i].PaperEntry? && after[i].position.id == id;
      if i < |events| {
        assert events[i] == after[i];
      }
    }
    if e.PaperEntry? && e.position.id == id {
      assert after[|events|] == e;
    }
  }

  /** Appending an exit or settlement whose check agrees with what is held keeps the audit faithful. */
  lemma LeavingKeepsFaithful(events: seq<Event>, e: Event, p: Position)
    requires AuditFaithful(events) && HoldsLike(events, p)
    requires !e.PaperEntry? && PositionOf(e) == p.id
    requires p.id in AuditOf(events).held ==> CheckEvent(AuditOf(events).held, e).0 == Match
    ensures AuditFaithful(events + [e])
  {
    hide CheckExit, CheckSettlement, EntryChecksOut;
    AuditAppended(events, e);
    hide AuditOf;
    var before, after := AuditOf(events), AuditOf(events + [e]);
    assert after.held.Keys == before.held.Keys;
    forall id ensures id in after.held <==> EntryMatched(events + [e], id) {
      MatchedAppended(events, e, id);
    }
    forall i | 0 <= i < |events + [e]| && !(events + [e])[i].PaperEntry?
      ensures after.statuses[i] == if PositionOf((events + [e])[i]) in after.held then Match else Unreplayable
    {
      if i < |events| {
        assert (events + [e])[i] == events[i];
      }
    }
  }

  lemma UnenteredUnmatched(events: seq<Event>, id: nat)
    requires !HasEntry(events, id)
    ensures !EntryMatched(events, id)
  {
  }

  /** Appending the entry of a new position keeps the audit faithful. */
  lemma EnteringKeepsFaithful(events: seq<Event>, e: Event)
    requires AuditFaithful(events) && e.PaperEntry? && !HasEntry(events, e.position.id)
    requires forall i :: 0 <= i < |events| && !events[i].PaperEntry? ==> HasEntry(events, PositionOf(events[i]))
    ensures AuditFaithful(events + [e])
    ensures
      var held := AuditOf(events + [e]).held;
      e.position.id in held <==> EntryChecksOut(e.position, e.quote, e.snapshot)
  {
    UnenteredUnmatched(events, e.position.id);
    StatusesKept(events, e);
    MembersKept(events, e);
  }

  lemma MembersKept(events: seq<Event>, e: Event)
    requires AuditFaithful(events) && e.PaperEntry? && !EntryMatched(events, e.position.id)
    ensures forall id :: id in AuditOf(events + [e]).held <==> EntryMatched(events + [e], id)
    ensures e.position.id in AuditOf(events + [e]).held <==> EntryChecksOut(e.position, e.quote, e.snapshot)
  {
    hide EntryChecksOut, CheckExit, CheckSettlement, EntryMatched;
    AuditAppended(events, e);
    hide AuditOf;
    forall id ensures id in AuditOf(events + [e]).held <==> EntryMatched(events + [e], id) {
      MatchedAppended(events, e, id);
    }
  }

  lemma StatusesKept(events: seq<Event>, e: Event)
    requires AuditFaithful(events) && e.PaperEntry?
    requires forall i :: 0 <= i < |events| && !events[i].PaperEntry? ==> PositionOf(events[i]) != e.position.id
    ensures
      var after, audit := events + [e], AuditOf(events + [e]);
      forall i :: 0 <= i < |after| && !after[i].PaperEntry? ==>
        audit.statuses[i] == if PositionOf(after[i]) in audit.held then Match else Unreplayable
  {
    hide EntryChecksOut, CheckExit, CheckSettlement, EntryMatched;
    AuditAppended(events, e);
    hide AuditOf;
    var after := events + [e];
    forall i | 0 <= i < |after| && !after[i].PaperEntry?
      ensures AuditOf(after).statuses[i] == if PositionOf(after[i]) in AuditOf(after).held then Match else Unreplayable
    {
      assert after[i] == events[i];
    }
  }

  // ---------------------------------------------------------------- every run

  ghost predicate Audited(st: State) {
    && AuditFaithful(st.events)
    && (forall i :: 0 <= i < |st.events| && !st.events[i].PaperEntry? ==> HasEntry(st.events, PositionOf(st.events[i])))
    && (OpenOf(st).Some? ==> HoldsLike(st.events, OpenOf(st).value))
  }

  lemma FaithfulAudited(st: State, e: Event)
    requires forall i :: 0 <= i < |st.events| && !st.events[i].PaperEntry? ==> HasEntry(st.events, PositionOf(st.events[i]))
    requires e.PaperEntry? || HasEntry(st.events, PositionOf(e))
    ensures
      var after := st.events + [e];
      forall i :: 0 <= i < |after| && !after[i].PaperEntry? ==> HasEntry(after, PositionOf(after[i]))
  {
    var after := st.events + [e];
    forall i | 0 <= i < |after| && !after[i].PaperEntry? ensures HasEntry(after, PositionOf(after[i])) {
      HasEntryAppended(st.events, e, PositionOf(after[i]));
      assert i < |st.events| ==> after[i] == st.events[i];
    }
  }

  /** A fill on the open position, whether or not it closes it. */
  lemma FillKeepsAudited(st: State, p: Position, quote: Quote, reason: ExitReason, now: int, day: int)
    requires Audited(st) && HoldsLike(st.events, p) && p.quantity > 0 && ExitQuantity(p, quote) > 0
    ensures
      var fill := FillFor(p, quote, reason, now);
      var events := st.events + [PaperExit(day, fill)];
      && AuditFaithful(events)
      && (forall i :: 0 <= i < |events| && !events[i].PaperEntry? ==> HasEntry(events, PositionOf(events[i])))
      && forall left: Position :: left.id == p.id && left.contract == p.contract
           && left.quantity == p.quantity - fill.quantity && left.costRemaining == p.costRemaining - ExitBasis(p, fill.quantity)
           ==> HoldsLike(events, left)
  {
    var fill := FillFor(p, quote, reason, now);
    var e := PaperExit(day, fill);
    FillMatches(p, quote, reason, now);
    hide FillFor, ExitQuantity, CheckExit, ExitBasis;
    LeavingKeepsFaithful(st.events, e, p);
    FaithfulAudited(st, e);
    AuditAppended(st.events, e);
    HasEntryAppended(st.events, e, p.id);
  }

  /** What a monitor transaction can do to the position: nothing, or one fill. */
  lemma MonitorShape(s: Session, env: Env, seen: Option<nat>, quote: Option<Quote>, underlying: Option<Sample>)
    ensures
      var closing := Monitored(s, env, seen, quote, underlying);
      && (closing.fill.None? ==> closing.session.position == s.position)
      && (closing.fill.Some? ==>
            && s.position.Some? && quote.Some?
            && ExitQuantity(s.position.value, quote.value) > 0
            && s.position.value.quantity > 0
            && closing.fill.value == FillFor(s.position.value, quote.value, closing.fill.value.reason, env.now)
            && (closing.session.position.Some? ==>
                  var p, left := s.position.value, closing.session.position.value;
                  && left.id == p.id && left.contract == p.contract
                  && left.quantity == p.quantity - closing.fill.value.quantity
                  && left.costRemaining == p.costRemaining - ExitBasis(p, closing.fill.value.quantity)))
  {
    hide MustStop, MarkedPnl, MonitorReason, FillPrice, Proceeds, Quantize8, ExitBasis, ExitQuantity, MarketWindow;
  }

  lemma MonitorKeepsAudited(st: State, env: Env, seen: Option<nat>, quote: Option<Quote>, underlying: Option<Sample>)
    requires Valid(st) && Audited(st)
    ensures Audited(Step(st, Monitor(env, seen, quote, underlying)))
  {
    hide Monitored, Sound, FillFor, ExitQuantity, ExitBasis, CallLedger.Valid, AuditFaithful, HoldsLike, HasEntry;
    hide BooksSound, EntriesOwnCalls, Latest, Save, DistinctDays;
    var latest := Latest(st.sessions);
    if latest.Some? {
      var s := st.sessions[latest.value];
      var closing := Monitored(s, env, seen, quote, underlying);
      MonitorKeepsDay(s, env, seen, quote, underlying);
      MonitorShape(s, env, seen, quote, underlying);
      SaveUpdates(st.sessions, latest.value, closing.session);
      LatestByDays(st.sessions, st.sessions[latest.value := closing.session]);
      if closing.fill.Some? {
        FillKeepsAudited(st, s.position.value, quote.value, closing.fill.value.reason, env.now, s.day);
      } else {
        assert st.events + [] == st.events;
      }
    }
  }

  lemma BuyKeepsAudited(st: State, callId: nat, purchase: Purchase, env: Env)
    requires Valid(st) && Audited(st)
    ensures Audited(Step(st, Op.Buy(callId, purchase, env)))
  {
    hide Entered, Sound, CallLedger.Valid, AuditFaithful, EntryChecksOut, CallLedger.Step;
    var latest := Latest(st.sessions);
    if Accepting(st, purchase.snapshot.day) && Decided(st.calls, callId, true)
       && Entered(st.sessions[latest.value], callId, purchase, env).Ok?
    {
      var s := st.sessions[latest.value];
      EntryShape(s, callId, purchase, env);
      var entered := Entered(s, callId, purchase, env).value;
      var e := PaperEntry(entered.day, entered.position.value, purchase.quote.value, purchase.snapshot);
      SaveUpdates(st.sessions, latest.value, entered);
      LatestByDays(st.sessions, st.sessions[latest.value := entered]);
      EnteringKeepsFaithful(st.events, e);
      FaithfulAudited(st, e);
      HasEntryAppended(st.events, e, callId);
      if EntryChecksOut(e.position, e.quote, e.snapshot) {
        EntryHeld(st.events, e);
      }
    }
  }

  lemma EntryHeld(events: seq<Event>, e: Event)
    requires e.PaperEntry? && EntryChecksOut(e.position, e.quote, e.snapshot)
    ensures e.position.id in AuditOf(events + [e]).held
    ensures AuditOf(events + [e]).held[e.position.id] == Held(e.position.contract, e.position.quantity, e.position.costRemaining)
  {
    hide ValidatePlan, FillPrice, EntryTotal;
    AuditAppended(events, e);
  }

  lemma SettleKeepsAudited(st: State, id: nat, price: real, costs: real, reference: string, env: Env)
    requires Valid(st) && Audited(st)
    ensures Audited(Step(st, SettleExpired(id, price, costs, reference, env)))
  {
    hide AnswerSettlement, CheckSettlement, CallLedger.Valid, AuditFaithful, Settled, Save;
    if AnswerSettlement(st, id, price, costs, reference, env.now).SettledNow? {
      SettledNowMeans(st, id, price, costs, reference, env.now);
      var latest := Latest(st.sessions);
      var s := st.sessions[latest.value];
      var p := s.position.value;
      var e := SettlementEvent(s, p, price, costs, reference);
      SettlementMatches(p, price, costs);
      hide Sound;
      SettledFlat(s, p, price, costs);
      SaveUpdates(st.sessions, latest.value, Settled(s, p, price, costs));
      LatestByDays(st.sessions, st.sessions[latest.value := Settled(s, p, price, costs)]);
      LeavingKeepsFaithful(st.events, e, p);
      FaithfulAudited(st, e);
    }
  }

  lemma StartKeepsOpen(st: State, request: Requested, env: Env, configured: bool)
    requires Valid(st)
    ensures OpenOf(Step(st, Start(request, env, configured))) == OpenOf(st)
  {
    hide ValidateLimits, Sound, CallLedger.Valid, Save;
    var started := Started(st.sessions, request, env, configured);
    var latest := Latest(st.sessions);
    if started.Ok? {
      var s := started.value;
      if i: nat :| i < |st.sessions| && st.sessions[i].day == s.day {
        SaveUpdates(st.sessions, i, s);
        LatestByDays(st.sessions, st.sessions[i := s]);
      } else {
        SaveAppends(st.sessions, s);
      }
    }
  }

  lemma StopKeepsOpen(st: State)
    requires Valid(st)
    ensures OpenOf(Step(st, Stop)) == OpenOf(st)
  {
    hide Sound, CallLedger.Valid;
    var latest := Latest(st.sessions);
    if latest.Some? {
      SaveUpdates(st.sessions, latest.value, Stopped(st.sessions[latest.value]));
      LatestByDays(st.sessions, st.sessions[latest.value := Stopped(st.sessions[latest.value])]);
    }
  }

  lemma StepKeepsAudited(st: State, op: Op)
    requires Valid(st) && Audited(st)
    ensures Audited(Step(st, op))
  {
    hide Valid, AuditFaithful, HoldsLike, HasEntry, Latest, Save, CallLedger.Step, Started, Stopped;
    match op
    case Start(request, env, configured) => StartKeepsOpen(st, request, env, configured);
    case Stop => StopKeepsOpen(st);
    case Monitor(env, seen, quote, underlying) => MonitorKeepsAudited(st, env, seen, quote, underlying);
    case Advise(callId, day) =>
    case Buy(callId, purchase, env) => BuyKeepsAudited(st, callId, purchase, env);
    case SettleExpired(id, price, costs, reference, env) => SettleKeepsAudited(st, id, price, costs, reference, env);
    case Reserve(halted, clock, key, scannedAt) =>
    case CallOp(callOp) =>
  }

  lemma {:induction false} RunKeepsAudited(st: State, ops: seq<Op>)
    requires Valid(st) && Audited(st) && forall i :: 0 <= i < |ops| ==> WellFormed(ops[i])
    ensures Valid(Run(st, ops)) && Audited(Run(st, ops))
    decreases |ops|
  {
    hide Valid, Audited, Step, WellFormed;
    if ops != [] {
      StepKeepsValid(st, ops[0]);
      StepKeepsAudited(st, ops[0]);
      RunKeepsAudited(Step(st, ops[0]), ops[1..]);
    }
  }

  /** Completeness of the auditor: in the log of any run of the desk, every exit and settlement
      of a position whose entry matched is itself marked a match, through any sequence of
      partial exits, and the others are marked unreplayable; none is ever called a mismatch. */
  lemma ExitsMatch(ops: seq<Op>, i: nat)
    requires forall j :: 0 <= j < |ops| ==> WellFormed(ops[j])
    requires i < |Run(EMPTY, ops).events| && !Run(EMPTY, ops).events[i].PaperEntry?
    ensures
      var events := Run(EMPTY, ops).events;
      AuditOf(events).statuses[i] == if EntryMatched(events, PositionOf(events[i])) then Match else Unreplayable
  {
    EmptyIsValid();
    RunKeepsAudited(EMPTY, ops);
  }

  /** An entry the desk made replays as a match exactly when the plan's quantity also fits the
      budget recorded at scan time; every other check repeats what the desk computed. */
  lemma EntryMatchesIffBudgetFits(s: Session, callId: nat, purchase: Purchase, env: Env)
    requires Entered(s, callId, purchase, env).Ok? && purchase.snapshot.budget.limits == s.limits
    ensures
      var p := Entered(s, callId, purchase, env).value.position.value;
      EntryChecksOut(p, purchase.quote.value, purchase.snapshot) <==>
      p.quantity <= QuantityFor(purchase.snapshot.budget, purchase.snapshot.contract, purchase.quote.value)
  {
    hide QuantityFor, ExitLevelsFor, FillPrice, EntryTotal, SessionLimitReached, EntryWindow;
  }
}
