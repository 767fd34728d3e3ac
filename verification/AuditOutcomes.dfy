/** What a match of the auditor attests (`replay_fills` in `options_replay.py`): the conditions under
    which each kind of event matches, so that nothing else passes. */
module AuditOutcomes {
  import opened Common
  import opened Rounding
  import opened OptionsRisk
  import opened OptionsSizing
  import opened DeskSession
  import opened DeskEntries
  import opened DeskExits
  import opened Desk
  import opened Replay

  /** What the auditor replays of an entry: the purchase on its own quote, and the session the call's
      snapshot recorded. */
  function Replayed(p: Position, quote: Quote, snapshot: Snapshot): Purchase {
    Purchase(snapshot, Some(quote), true, true, true)
  }

  function RecordedSession(snapshot: Snapshot): Session
    requires snapshot.budget.limits.Valid()
  {
    NewSession(snapshot.day, snapshot.budget.limits).(cash := snapshot.budget.cash, realized := snapshot.budget.realized)
  }

  /** An entry matches exactly when its plan was authorized, was current and two-sided at the entry,
      fits the recorded session and can place its exits there, and when the position is that plan's:
      same contract and quantity, at the slipped ask with its fees, with that stop and that target. */
  lemma EntryMatchesIff(p: Position, quote: Quote, snapshot: Snapshot)
    ensures EntryChecksOut(p, quote, snapshot) <==>
      && snapshot.budget.limits.Valid() && snapshot.authority
      && quote.stamp <= p.enteredAt <= quote.stamp + 90_000_000
      && 0.0 < quote.bid <= quote.ask && 50.0 * (quote.ask - quote.bid) <= quote.ask
      && PlanFits(RecordedSession(snapshot), Replayed(p, quote, snapshot))
      && ExitsPlaced(RecordedSession(snapshot), Replayed(p, quote, snapshot))
      && var fill := FillPrice(quote, snapshot.contract, true);
         && p.plan == snapshot.plan && p.contract == snapshot.contract && p.quantity == snapshot.plan.quantity
         && p.entry == fill && p.costRemaining == EntryTotal(fill, p.quantity as real)
         && p.stop == StopFor(snapshot.budget.limits, snapshot.plan.profile, fill, snapshot.contract)
         && p.target == TargetFor(snapshot.budget.limits, snapshot.plan.profile, fill, p.quantity, snapshot.contract)
  {
    hide FillPrice, EntryTotal, StopFor, TargetFor, PlanFits, ExitsPlaced, ValidatePlan;
    if snapshot.budget.limits.Valid() {
      var s, request := RecordedSession(snapshot), Replayed(p, quote, snapshot);
      PlanValidIff(s, request, Env(p.enteredAt, {}, true, false));
      if ValidatePlan(snapshot, s.limits, s.cash, s.realized, quote, p.enteredAt).Ok? {
        LevelsAre(snapshot, s.limits, s.cash, s.realized, quote, p.enteredAt);
      } else if snapshot.plan.quantity <= 0 && quote.ask > 0.0 {
        NothingFits(s, request);
      }
    }
  }

  lemma NothingFits(s: Session, request: Purchase)
    requires request.quote.Some? && request.quote.value.ask > 0.0 && request.snapshot.plan.quantity <= 0
    ensures !PlanFits(s, request)
  {
  }

  /** The cost that leaves with some of the units held. */
  function Basis(h: Held, quantity: int): real
    requires h.quantity != 0
  {
    h.cost * quantity as real / h.quantity as real
  }

  /** An exit matches exactly when it sold as many whole lots as were held and bid, at the slipped bid,
      with the P&L of their share of the cost rounded to eight decimals, and says truly whether
      anything is left. Whole lots of what is held leave the holding either way. */
  lemma ExitMatchesIff(h: Held, fill: Fill)
    ensures
      var possible := 0 < fill.quantity <= h.quantity && fill.quantity % h.contract.lot == 0;
      var (status, after) := CheckExit(h, fill);
      && (status == Match <==>
            && possible && fill.quantity <= fill.quote.bidSize
            && (h.quantity < fill.quantity + h.contract.lot || fill.quote.bidSize < fill.quantity + h.contract.lot)
            && fill.price == FillPrice(fill.quote, h.contract, false)
            && fill.pnl == Quantize8(Proceeds(fill.price, fill.quantity as real) - Basis(h, fill.quantity))
            && (fill.closed <==> fill.quantity == h.quantity))
      && (status != Match ==> status == Mismatch)
      && after == if possible then Held(h.contract, h.quantity - fill.quantity, h.cost - Basis(h, fill.quantity)) else h
  {
    hide CheckExit, Basis, FillPrice, Quantize8, Proceeds, WholeLots;
    LotsAre(fill.quantity, MinInt(h.quantity, fill.quote.bidSize), h.contract.lot);
    ExitCheckIs(h, fill);
  }

  lemma ExitCheckIs(h: Held, fill: Fill)
    ensures CheckExit(h, fill) ==
      if !(0 < fill.quantity <= h.quantity) || fill.quantity % h.contract.lot != 0 then (Mismatch, h)
      else
        (if && fill.quantity == WholeLots(MinInt(h.quantity, fill.quote.bidSize), h.contract.lot)
            && fill.price == FillPrice(fill.quote, h.contract, false)
            && fill.pnl == Quantize8(Proceeds(FillPrice(fill.quote, h.contract, false), fill.quantity as real) - Basis(h, fill.quantity))
            && fill.closed == (fill.quantity == h.quantity) then Match else Mismatch,
         Held(h.contract, h.quantity - fill.quantity, h.cost - Basis(h, fill.quantity)))
  {
    hide FillPrice, Quantize8, Proceeds, WholeLots;
  }

  lemma BasisIs(h: Held, quantity: int)
    requires h.quantity != 0
    ensures Basis(h, quantity) == h.cost * quantity as real / h.quantity as real
  {
  }

  /** The most whole lots that fit are the only ones that fit while one more lot does not. */
  lemma LotsAre(q: int, units: int, lot: int)
    requires lot > 0
    ensures q == WholeLots(units, lot) <==> q % lot == 0 && q <= units < q + lot
  {
    if q % lot == 0 && q <= units < q + lot {
      WholeLotsGreatest(q, units, lot);
      NextWholeLot(q, lot);
      WholeLotsGreatest(q + lot, units, lot);
      OneMultiple(WholeLots(units, lot), q, lot);
    }
  }

  lemma NextWholeLot(q: int, lot: int)
    requires lot > 0 && q % lot == 0
    ensures (q + lot) % lot == 0
  {
    MulModZero(q / lot + 1, lot);
    assert (q / lot + 1) * lot == q + lot;
  }

  lemma OneMultiple(a: int, b: int, lot: int)
    requires lot > 0 && a % lot == 0 && b % lot == 0 && b <= a < b + lot
    ensures a == b
  {
    LotsRemaining(a, b, lot);
    if a != b {
      DivUnique(a - b, lot, 0);
    }
  }

  lemma LotsRemaining(a: int, b: int, lot: int)
    requires lot > 0 && a % lot == 0 && b % lot == 0
    ensures (a - b) % lot == 0
  {
    MulModZero(a / lot - b / lot, lot);
    assert (a / lot - b / lot) * lot == a - b;
  }

  /** A settlement matches exactly when it takes all that is held, in whole lots, and its P&L is the
      settled value less its costs and the remaining cost, unrounded. */
  lemma SettlementMatchesIff(h: Held, quantity: int, price: real, costs: real, pnl: real, closed: bool)
    ensures
      var possible := 0 < quantity <= h.quantity && quantity % h.contract.lot == 0;
      var (status, after) := CheckSettlement(h, quantity, price, costs, pnl, closed);
      && (status == Match <==> possible && quantity == h.quantity && closed && pnl == price * quantity as real - costs - h.cost)
      && (status != Match ==> status == Mismatch)
      && after == if possible then Held(h.contract, h.quantity - quantity, h.cost - Basis(h, quantity)) else h
  {
    if 0 < quantity <= h.quantity {
      WholeBasis(h);
      BasisIs(h, quantity);
    }
    hide Basis;
  }

  lemma WholeBasis(h: Held)
    requires h.quantity > 0
    ensures Basis(h, h.quantity) == h.cost
  {
    LeDiv(h.cost, h.cost * h.quantity as real, h.quantity as real);
  }

  /** The auditor's memory: a matched entry is held from then on with its quantity and cost, each
      possible sale or settlement takes its share, and nothing can be audited that is not held. */
  lemma AuditStep(events: seq<Event>, e: Event)
    ensures
      var before, after := AuditOf(events), AuditOf(events + [e]);
      && |after.statuses| == |events| + 1 && after.statuses[..|events|] == before.statuses
      && (e.PaperEntry? && EntryChecksOut(e.position, e.quote, e.snapshot) ==>
            && after.statuses[|events|] == Match
            && after.held == before.held[e.position.id := Held(e.position.contract, e.position.quantity, e.position.costRemaining)])
      && (e.PaperEntry? && !EntryChecksOut(e.position, e.quote, e.snapshot) ==>
            after.statuses[|events|] == Mismatch && after.held == before.held)
      && (!e.PaperEntry? && PositionOf(e) !in before.held ==>
            after.statuses[|events|] == Unreplayable && after.held == before.held)
      && (!e.PaperEntry? && PositionOf(e) in before.held ==>
            && after.statuses[|events|] == Checked(before.held[PositionOf(e)], e).0
            && after.held == before.held[PositionOf(e) := Checked(before.held[PositionOf(e)], e).1])
  {
    hide CheckExit, CheckSettlement, EntryTotal, FillPrice, ValidatePlan;
    AuditAppended(events, e);
  }

  /** The check of an exit or a settlement against what is held. */
  function Checked(h: Held, e: Event): (Status, Held)
    requires !e.PaperEntry?
  {
    if e.PaperExit? then CheckExit(h, e.fill) else CheckSettlement(h, e.quantity, e.price, e.costs, e.pnl, e.closed)
  }

  /** Units an event log says were sold or settled of a position. */
  function UnitsOut(events: seq<Event>, id: nat): int {
    if events == [] then 0
    else
      var e := events[|events| - 1];
      UnitsOut(events[..|events| - 1], id) +
      if e.PaperEntry? || PositionOf(e) != id then 0 else if e.PaperExit? then e.fill.quantity else e.quantity
  }

  ghost predicate AllMatch(events: seq<Event>) {
    forall i :: 0 <= i < |events| ==> AuditOf(events).statuses[i] == Match
  }

  function UnitsIn(events: seq<Event>, id: nat): int {
    if events == [] then 0
    else
      var e := events[|events| - 1];
      UnitsIn(events[..|events| - 1], id) + if e.PaperEntry? && e.position.id == id then e.position.quantity else 0
  }

  ghost predicate EntersOnce(events: seq<Event>) {
    forall i, j :: 0 <= i < j < |events| && events[i].PaperEntry? && events[j].PaperEntry? ==> events[i].position.id != events[j].position.id
  }

  lemma {:induction false} HeldIsLeft(events: seq<Event>, id: nat)
    requires AllMatch(events) && EntersOnce(events)
    ensures id in AuditOf(events).held ==> AuditOf(events).held[id].quantity == UnitsIn(events, id) - UnitsOut(events, id) >= 0
    ensures id !in AuditOf(events).held ==> UnitsIn(events, id) == 0 && UnitsOut(events, id) == 0
    ensures id in AuditOf(events).held <==> HasEntryOf(events, id)
  {
    hide CheckExit, CheckSettlement, EntryChecksOut;
    if events != [] {
      var n := |events| - 1;
      var e := events[n];
      assert events == events[..n] + [e];
      AuditStep(events[..n], e);
      hide AuditOf;
      MatchBefore(events);
      HeldIsLeft(events[..n], id);
      var held := AuditOf(events[..n]).held;
      if e.PaperEntry? {
        PositiveUnits(e.position, e.quote, e.snapshot);
        assert e.position.id == id ==> forall i :: 0 <= i < n && events[..n][i].PaperEntry? ==> events[i].position.id != id;
      } else if PositionOf(e) in held {
        if e.PaperExit? {
          ExitMatchesIff(held[PositionOf(e)], e.fill);
        } else {
          SettlementMatchesIff(held[PositionOf(e)], e.quantity, e.price, e.costs, e.pnl, e.closed);
        }
      }
      EntriesBefore(events, id);
    }
  }

  lemma EntriesBefore(events: seq<Event>, id: nat)
    requires events != []
    ensures HasEntryOf(events, id) <==>
      HasEntryOf(events[..|events| - 1], id) || (events[|events| - 1].PaperEntry? && events[|events| - 1].position.id == id)
  {
    var n := |events| - 1;
    if HasEntryOf(events[..n], id) {
      var i :| 0 <= i < n && events[..n][i].PaperEntry? && events[..n][i].position.id == id;
      assert events[i].PaperEntry? && events[i].position.id == id;
    }
    if HasEntryOf(events, id) && !(events[n].PaperEntry? && events[n].position.id == id) {
      var i :| 0 <= i < |events| && events[i].PaperEntry? && events[i].position.id == id;
      assert events[..n][i] == events[i];
    }
  }

  ghost predicate HasEntryOf(events: seq<Event>, id: nat) {
    exists i :: 0 <= i < |events| && events[i].PaperEntry? && events[i].position.id == id
  }

  lemma PositiveUnits(p: Position, quote: Quote, snapshot: Snapshot)
    requires EntryChecksOut(p, quote, snapshot)
    ensures p.quantity > 0
  {
    hide FillPrice, EntryTotal, StopFor, TargetFor, QuantityFor, ExitLevelsFor;
  }

  lemma MatchBefore(events: seq<Event>)
    requires events != [] && AllMatch(events)
    ensures AllMatch(events[..|events| - 1]) && AuditOf(events).statuses[|events| - 1] == Match
  {
    hide AuditOf;
    StatusesBefore(events);
    var n := |events| - 1;
    forall i | 0 <= i < n ensures AuditOf(events[..n]).statuses[i] == Match {
      assert AuditOf(events).statuses[i] == AuditOf(events).statuses[..n][i];
    }
  }

  lemma StatusesBefore(events: seq<Event>)
    requires events != []
    ensures AuditOf(events).statuses[..|events| - 1] == AuditOf(events[..|events| - 1]).statuses
  {
    hide CheckEvent;
  }

  /** Soundness of a clean audit: when every event matches and each position is entered once, no
      position was ever sold or settled for more units than it was entered with, and none without an
      entry. */
  lemma CleanAuditIsSound(events: seq<Event>, id: nat)
    requires AllMatch(events) && EntersOnce(events)
    ensures UnitsOut(events, id) <= UnitsIn(events, id)
  {
    HeldIsLeft(events, id);
  }
}
