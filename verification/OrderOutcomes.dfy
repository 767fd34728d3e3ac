/** What each simulator command makes of each order (`paper_simulator.py`): when an order opens, is
    refused, cancelled, closed or only marked, for what reason, at which price and with which result,
    stated on the quote's bid and ask and the order's own prices. */
module OrderOutcomes {
  import opened Common
  import opened Rounding
  import opened Simulator
  import opened SimulatorLedger

  // ---------------------------------------------------------------- prices

  /** A tick price reached from `touch` by slipping it up and rounding up, or down and rounding down. */
  ghost predicate SlipsTo(rules: FillRules, touch: real, up: bool, tick: real, price: real) {
    && (exists k: int :: price == Ticks(k, tick))
    && (if up then touch + touch * rules.slippage <= price < touch + touch * rules.slippage + tick
        else price <= touch - touch * rules.slippage < price + tick)
  }

  function Ticks(k: int, tick: real): real {
    k as real * tick
  }

  lemma ExecutesAt(rules: FillRules, tick: Tick, buy: bool)
    ensures SlipsTo(rules, if buy then tick.ask else tick.bid, buy, tick.instrument.tick, ExecPrice(rules, tick, buy))
  {
    PriceSlipsTo(rules, if buy then tick.ask else tick.bid, buy, tick.instrument.tick);
  }

  lemma PriceSlipsTo(rules: FillRules, touch: real, up: bool, tick: real)
    requires tick > 0.0
    ensures SlipsTo(rules, touch, up, tick, if up then CeilTick(Slipped(rules, touch, true), tick) else FloorTick(Slipped(rules, touch, false), tick))
  {
    var raw := Slipped(rules, touch, up);
    SlipIs(rules, touch, up);
    var k := if up then CeilInt(raw / tick) else FloorInt(raw / tick);
    var price := if up then CeilTick(raw, tick) else FloorTick(raw, tick);
    assert price == Ticks(k, tick);
    hide Slipped, CeilTick, FloorTick, Ticks;
    CeilTickLeast(raw, tick, 0);
    FloorTickGreatest(raw, tick, 0);
  }

  lemma SlipIs(rules: FillRules, touch: real, up: bool)
    ensures Slipped(rules, touch, up) == if up then touch + touch * rules.slippage else touch - touch * rules.slippage
  {
  }

  // ---------------------------------------------------------------- one order on one quote

  /** The price at which the order could leave now has reached its stop, its target. */
  predicate AtStop(o: Order, tick: Tick) {
    (o.long && tick.bid <= o.stop) || (!o.long && o.stop <= tick.ask)
  }

  predicate AtTarget(o: Order, tick: Tick) {
    (o.long && o.target <= tick.bid) || (!o.long && tick.ask <= o.target)
  }

  /** The fill lies between stop and target, its loss at the projected stop with both fees fits the
      budget, and its notional with the fee fits the cash. */
  predicate Admissible(rules: FillRules, o: Order, cash: real, fill: real, projected: real) {
    var q := o.quantity as real;
    && (o.long ==> o.stop < fill < o.target) && (!o.long ==> o.target < fill < o.stop)
    && (if fill >= projected then fill - projected else projected - fill) * q + fill * q * rules.fee + projected * q * rules.fee <= o.budget
    && fill * q + fill * q * rules.fee <= cash
  }

  /** A pending order: cancelled once its session is over, left alone by a quote from before its
      submission, and otherwise opened at the slipped touch when that is admissible, or rejected. */
  ghost predicate PendingBecomes(rules: FillRules, o: Order, tick: Tick, cash: real, after: Order) {
    if o.sessionEnd <= tick.receivedAt then after == o.(status := Cancelled, reason := SessionEnded)
    else if tick.quotedAt < o.submittedAt then after == o
    else exists fill, projected :: FilledAt(rules, o, tick, cash, fill, projected, after)
  }

  ghost predicate FilledAt(rules: FillRules, o: Order, tick: Tick, cash: real, fill: real, projected: real, after: Order) {
    var notional := fill * o.quantity as real;
    && fill > 0.0 && SlipsTo(rules, if o.long then tick.ask else tick.bid, o.long, tick.instrument.tick, fill)
    && SlipsTo(rules, o.stop, !o.long, tick.instrument.tick, projected)
    && after == if Admissible(rules, o, cash, fill, projected)
                then o.(status := Open, reason := FilledReason, entry := fill, entryFee := notional * rules.fee, collateral := notional,
                        mark := if o.long then tick.bid else tick.ask,
                        fills := o.fills + [FillRecord(tick.receivedAt, fill, notional * rules.fee, EntryFill)])
                else o.(status := Rejected, reason := RiskOrCapitalGate)
  }

  /** A held order: closed exactly when its exit price has reached stop or target, its session is
      over, or it was to leave anyway; the stop is named before the target. Otherwise only its mark
      changes. */
  ghost predicate HeldBecomes(rules: FillRules, o: Order, tick: Tick, after: Order) {
    var mark := if o.long then tick.bid else tick.ask;
    if AtStop(o, tick) || AtTarget(o, tick) || o.sessionEnd <= tick.receivedAt || o.status == ExitPending
    then exists exit :: ClosedAt(rules, o, tick, exit, after) else after == o.(mark := mark)
  }

  /** The order left at this price: the adverse side slipped and rounded against the trader; its result
      is the move in its favour less both fees. */
  ghost predicate ClosedAt(rules: FillRules, o: Order, tick: Tick, exit: real, after: Order) {
    var q := o.quantity as real;
    var fee := exit * q * rules.fee;
    && exit > 0.0 && SlipsTo(rules, if o.long then tick.bid else tick.ask, !o.long, tick.instrument.tick, exit)
    && after == o.(status := Closed, mark := if o.long then tick.bid else tick.ask,
                   reason := if AtStop(o, tick) then StopHit else if AtTarget(o, tick) then TargetHit else SessionExit,
                   fills := o.fills + [FillRecord(tick.receivedAt, exit, fee, ExitFill)],
                   realized := (if o.long then exit * q - o.entry * q else o.entry * q - exit * q) - o.entryFee - fee)
  }

  ghost predicate OrderBecomes(rules: FillRules, o: Order, tick: Tick, cash: real, after: Order) {
    if o.instrument != tick.instrument then after == o
    else
      match o.status
      case Pending => PendingBecomes(rules, o, tick, cash, after)
      case Open => HeldBecomes(rules, o, tick, after)
      case ExitPending => HeldBecomes(rules, o, tick, after)
      case _ => after == o
  }

  lemma AdmissibleIs(rules: FillRules, o: Order, instrument: Tradable, cash: real, fill: real)
    ensures EntryAdmitted(rules, o, instrument, cash, fill) <==> Admissible(rules, o, cash, fill, ProjectedStop(rules, instrument, o.long, o.stop))
  {
    hide ProjectedStop;
  }

  lemma PendingOutcome(rules: FillRules, cash: real, realized: real, o: Order, tick: Tick)
    requires o.instrument == tick.instrument && o.status.Pending? && Touch(rules, cash, realized, o, tick).Ok?
    ensures PendingBecomes(rules, o, tick, cash, Touch(rules, cash, realized, o, tick).value.order)
  {
    hide ExecPrice, ProjectedStop, Admissible, EntryAdmitted, SlipsTo;
    var fill, projected := ExecPrice(rules, tick, o.long), ProjectedStop(rules, tick.instrument, o.long, o.stop);
    ExecutesAt(rules, tick, o.long);
    StopSlipsTo(rules, tick.instrument, o.long, o.stop);
    AdmissibleIs(rules, o, tick.instrument, cash, fill);
    if tick.receivedAt < o.sessionEnd && o.submittedAt <= tick.quotedAt {
      assert FilledAt(rules, o, tick, cash, fill, projected, Touch(rules, cash, realized, o, tick).value.order);
    }
  }

  lemma StopSlipsTo(rules: FillRules, instrument: Tradable, long: bool, stop: real)
    ensures SlipsTo(rules, stop, !long, instrument.tick, ProjectedStop(rules, instrument, long, stop))
  {
    PriceSlipsTo(rules, stop, !long, instrument.tick);
  }

  lemma ResultIs(entry: real, exit: real, q: real, long: bool)
    ensures (exit - entry) * q * Scale(long) == if long then exit * q - entry * q else entry * q - exit * q
  {
  }

  lemma HeldOutcome(rules: FillRules, cash: real, realized: real, o: Order, tick: Tick)
    requires o.instrument == tick.instrument && Holding(o) && Touch(rules, cash, realized, o, tick).Ok?
    ensures HeldBecomes(rules, o, tick, Touch(rules, cash, realized, o, tick).value.order)
  {
    hide ExecPrice, SlipsTo, Scale;
    var exit := ExecPrice(rules, tick, !o.long);
    ExecutesAt(rules, tick, !o.long);
    ResultIs(o.entry, exit, o.quantity as real, o.long);
    var after := Touch(rules, cash, realized, o, tick).value.order;
    if AtStop(o, tick) || AtTarget(o, tick) || o.sessionEnd <= tick.receivedAt || o.status == ExitPending {
      assert ClosedAt(rules, o, tick, exit, after);
    }
  }

  lemma TouchOutcome(rules: FillRules, cash: real, realized: real, o: Order, tick: Tick)
    requires Touch(rules, cash, realized, o, tick).Ok?
    ensures OrderBecomes(rules, o, tick, cash, Touch(rules, cash, realized, o, tick).value.order)
  {
    hide PendingBecomes, HeldBecomes;
    if o.instrument == tick.instrument {
      if o.status.Pending? {
        PendingOutcome(rules, cash, realized, o, tick);
      } else if Holding(o) {
        HeldOutcome(rules, cash, realized, o, tick);
      }
    }
  }

  // ---------------------------------------------------------------- a whole quote

  /** The cash a quote leaves to the i-th order, after the orders before it. */
  function CashFor(rules: FillRules, a: Account, tick: Tick, i: nat): real
    requires i <= |a.orders|
  {
    var before := TouchAll(rules, a.(orders := a.orders[..i]), tick);
    if before.Ok? then before.value.cash else 0.0
  }

  lemma {:induction false} TouchedOrder(rules: FillRules, a: Account, tick: Tick, i: nat)
    requires TouchAll(rules, a, tick).Ok? && i < |a.orders|
    ensures
      var b := TouchAll(rules, a, tick).value;
      |b.orders| == |a.orders| && OrderBecomes(rules, a.orders[i], tick, CashFor(rules, a, tick, i), b.orders[i])
    decreases |a.orders|
  {
    hide Touch, OrderBecomes;
    var n := |a.orders| - 1;
    var shorter := a.(orders := a.orders[..n]);
    var before := TouchAll(rules, shorter, tick).value;
    SameLength(rules, shorter, tick);
    if i < n {
      TouchedOrder(rules, shorter, tick, i);
      assert shorter.orders[..i] == a.orders[..i];
    } else {
      TouchOutcome(rules, before.cash, before.realized, a.orders[n], tick);
    }
  }

  lemma {:induction false} SameLength(rules: FillRules, a: Account, tick: Tick)
    requires TouchAll(rules, a, tick).Ok?
    ensures |TouchAll(rules, a, tick).value.orders| == |a.orders|
    decreases |a.orders|
  {
    hide Touch;
    if a.orders != [] {
      SameLength(rules, a.(orders := a.orders[..|a.orders| - 1]), tick);
    }
  }

  /** A first-time quote that succeeds: every order becomes what the quote makes of it. */
  lemma QuoteDecides(rules: FillRules, st: State, event: EventId, tick: Tick, i: nat)
    requires Execute(rules, st, OnQuote(event, tick)).answer.Ok? && event !in st.log && i < |st.account.orders|
    ensures
      var after := Execute(rules, st, OnQuote(event, tick)).state.account;
      && |after.orders| == |st.account.orders|
      && OrderBecomes(rules, st.account.orders[i], tick, CashFor(rules, st.account, tick, i), after.orders[i])
  {
    hide TouchAll, OrderBecomes, ReportedOf;
    TouchedOrder(rules, st.account, tick, i);
  }

  /** A quote is taken when it is current, two-sided and in time order, and every price it would fill
      at is positive; a repeated one is answered from the log. */
  lemma QuoteTakenIff(rules: FillRules, st: State, event: EventId, tick: Tick)
    ensures
      var request := QuoteRequest(tick.receivedAt, tick);
      Execute(rules, st, OnQuote(event, tick)).answer.Ok? <==>
        && tick.quotedAt <= tick.receivedAt <= tick.quotedAt + rules.maxAge * 1_000_000
        && 0.0 < tick.bid <= tick.ask && event != BlankId
        && (if event in st.log then st.log[event].request == request
            else (st.clock.Some? ==> st.clock.value <= tick.receivedAt) && TouchAll(rules, st.account, tick).Ok?)
  {
    hide TouchAll, ReportedOf;
  }

  /** The quote concerns the order: its instrument, not finished, and not submitted after the quote was
      taken, unless the session is over. */
  predicate Concerns(o: Order, tick: Tick) {
    && o.instrument == tick.instrument && (o.status == Pending || o.status == Open || o.status == ExitPending)
    && (o.status == Pending && tick.receivedAt < o.sessionEnd ==> o.submittedAt <= tick.quotedAt)
  }

  function Concerned(before: seq<Order>, after: seq<Order>, tick: Tick): seq<Order>
    requires |after| == |before|
  {
    if before == [] then []
    else (if Concerns(before[0], tick) then [after[0]] else []) + Concerned(before[1..], after[1..], tick)
  }

  lemma {:induction false} ConcernedAppended(before: seq<Order>, after: seq<Order>, o: Order, p: Order, tick: Tick)
    requires |after| == |before|
    ensures Concerned(before + [o], after + [p], tick) == Concerned(before, after, tick) + if Concerns(o, tick) then [p] else []
  {
    hide Concerns;
    if before != [] {
      assert (before + [o])[1..] == before[1..] + [o] && (after + [p])[1..] == after[1..] + [p];
      ConcernedAppended(before[1..], after[1..], o, p, tick);
    }
  }

  lemma {:induction false} ReportedIs(before: seq<Order>, after: seq<Order>, tick: Tick)
    requires |after| == |before|
    ensures ReportedOf(before, after, tick) == Concerned(before, after, tick)
  {
    if before != [] {
      var n := |before| - 1;
      ReportedIs(before[..n], after[..n], tick);
      ConcernedAppended(before[..n], after[..n], before[n], after[n], tick);
      assert before == before[..n] + [before[n]] && after == after[..n] + [after[n]];
    }
  }

  /** A quote answers with the orders it concerns, as it left them, in the order they are stored. */
  lemma QuoteAnswers(rules: FillRules, st: State, event: EventId, tick: Tick)
    requires Execute(rules, st, OnQuote(event, tick)).answer.Ok? && event !in st.log
    ensures
      var o := Execute(rules, st, OnQuote(event, tick));
      && |o.state.account.orders| == |st.account.orders| && o.state.clock == Some(tick.receivedAt)
      && o.answer == Ok(OrdersResponse(Concerned(st.account.orders, o.state.account.orders, tick)))
  {
    hide TouchAll, Concerned, ReportedOf;
    SameLength(rules, st.account, tick);
    ReportedIs(st.account.orders, TouchAll(rules, st.account, tick).value.orders, tick);
  }

  // ---------------------------------------------------------------- the other commands

  /** A submission is taken exactly inside the known session, for a matching approval of whole lots of
      an earlier signal, positive prices and budget in the right order, and an unused identifier. It
      adds one pending order that carries them, and touches nothing else. */
  lemma SubmitTakenIff(rules: FillRules, st: State, p: Proposal, risk: Approval, hours: Option<Hours>, at: int)
    requires SubmitOf(p.id) !in st.log
    ensures
      var o := Execute(rules, st, Submit(p, risk, hours, at));
      && (o.answer.Ok? <==>
            && hours.Some? && hours.value.opens <= at < hours.value.closes
            && risk.approved && risk.proposalId == p.id && 0 < risk.quantity && risk.quantity % p.instrument.lot == 0
            && p.signalAt <= at && 0.0 < p.entry && 0.0 < p.stop && 0.0 < p.target && 0.0 < risk.budget
            && (p.long ==> p.stop < p.entry < p.target) && (!p.long ==> p.target < p.entry < p.stop)
            && (st.clock.Some? ==> st.clock.value <= at)
            && (forall i :: 0 <= i < |st.account.orders| ==> st.account.orders[i].id != p.id))
      && (o.answer.Ok? ==>
            var order := Order(p.id, p.instrument, p.long, risk.quantity, p.stop, p.target, risk.budget, at, hours.value.closes,
                               Pending, AwaitingQuote, [], 0.0, 0.0, 0.0, 0.0, 0.0);
            && o.state.account.cash == st.account.cash && o.state.account.realized == st.account.realized && o.state.clock == Some(at)
            && multiset(o.state.account.orders) == multiset(st.account.orders) + multiset{order})
  {
    hide InsertById;
    if hours.Some? {
      InsertedOnce(st.account.orders, OrderFor(p, risk, hours.value, at));
    }
  }

  lemma {:induction false} InsertedOnce(orders: seq<Order>, o: Order)
    ensures multiset(InsertById(orders, o)) == multiset(orders) + multiset{o}
  {
    hide Precedes;
    if orders != [] {
      var n := |orders| - 1;
      InsertedOnce(orders[..n], o);
      assert orders == orders[..n] + [orders[n]];
    }
  }

  /** A cancellation is taken exactly for a known pending order, and cancels that one. */
  lemma CancelTakenIff(rules: FillRules, st: State, id: string, at: int, i: nat)
    requires CancelOf(id) !in st.log && Distinct(st.account.orders) && i < |st.account.orders|
    ensures
      var o := Execute(rules, st, Cancel(id, at));
      && (st.account.orders[i].id == id ==>
            (o.answer.Ok? <==> st.account.orders[i].status == Pending && (st.clock.Some? ==> st.clock.value <= at)))
      && (o.answer.Ok? ==>
            && o.state.account.cash == st.account.cash && o.state.account.realized == st.account.realized
            && |o.state.account.orders| == |st.account.orders|
            && o.state.account.orders[i] ==
                 if st.account.orders[i].id == id then st.account.orders[i].(status := Cancelled, reason := CancelRequest)
                 else st.account.orders[i])
  {
  }

  /** The end of the session cancels what is pending and sends what is open to its next quote, in the
      orders whose session has ended; money does not move. */
  lemma SessionEnds(rules: FillRules, st: State, at: int, i: nat)
    requires SessionAt(at) !in st.log && i < |st.account.orders|
    ensures
      var o := Execute(rules, st, EndSession(at));
      && (o.answer.Ok? <==> (st.clock.Some? ==> st.clock.value <= at))
      && (o.answer.Ok? ==>
            var was := st.account.orders[i];
            && o.state.account.cash == st.account.cash && o.state.account.realized == st.account.realized
            && |o.state.account.orders| == |st.account.orders|
            && o.state.account.orders[i] ==
                 if was.sessionEnd <= at && was.status == Pending then was.(status := Cancelled, reason := SessionEnded)
                 else if was.sessionEnd <= at && was.status == Open then was.(status := ExitPending, reason := SessionExitAwaitingQuote)
                 else was)
  {
  }

  // ---------------------------------------------------------------- the books

  /** What the held orders would gain at their marks before exit fees, entry fees already taken. */
  function PaperResults(orders: seq<Order>): real {
    if orders == [] then 0.0
    else
      var o := orders[0];
      var q := o.quantity as real;
      PaperResults(orders[1..]) +
      if o.status != Open && o.status != ExitPending then 0.0
      else (if o.long then o.mark * q - o.entry * q else o.entry * q - o.mark * q) - o.entryFee
  }

  lemma PaperAppended(orders: seq<Order>, o: Order)
    ensures PaperResults(orders + [o]) == PaperResults(orders) + PaperResults([o])
  {
    if orders != [] {
      assert (orders + [o])[1..] == orders[1..] + [o];
      PaperAppended(orders[1..], o);
    }
  }

  /** The reported unrealized P&L, in whatever order the orders are summed. */
  lemma {:induction false} UnrealizedIs(cash: real, orders: seq<Order>)
    ensures Portfolio(cash, orders).unrealized == PaperResults(orders)
  {
    if orders != [] {
      var n := |orders| - 1;
      UnrealizedIs(cash, orders[..n]);
      PaperAppended(orders[..n], orders[n]);
      assert orders == orders[..n] + [orders[n]];
      OnPaper(orders[n]);
      hide PaperResults;
    }
  }

  lemma OnPaper(o: Order)
    ensures PaperResults([o]) == if Holding(o) then GrossAtMark(o) - o.entryFee else 0.0
  {
    hide Scale;
    ResultIs(o.entry, o.mark, o.quantity as real, o.long);
    assert [o][1..] == [];
    assert PaperResults([o][1..]) == 0.0;
  }

  /** The results of closed orders. */
  function Results(orders: seq<Order>): real {
    if orders == [] then 0.0
    else Results(orders[..|orders| - 1]) + if orders[|orders| - 1].status == Closed then orders[|orders| - 1].realized else 0.0
  }

  lemma {:induction false} QuoteResults(rules: FillRules, a: Account, tick: Tick)
    requires TouchAll(rules, a, tick).Ok?
    ensures
      var b := TouchAll(rules, a, tick).value;
      b.realized - Results(b.orders) == a.realized - Results(a.orders)
    decreases |a.orders|
  {
    hide Touch;
    if a.orders != [] {
      var n := |a.orders| - 1;
      var shorter := a.(orders := a.orders[..n]);
      QuoteResults(rules, shorter, tick);
      var before := TouchAll(rules, shorter, tick).value;
      TouchResult(rules, before.cash, before.realized, a.orders[n], tick);
      assert TouchAll(rules, a, tick).value.orders[..|before.orders|] == before.orders;
    }
  }

  lemma TouchResult(rules: FillRules, cash: real, realized: real, o: Order, tick: Tick)
    requires Touch(rules, cash, realized, o, tick).Ok?
    ensures
      var t := Touch(rules, cash, realized, o, tick).value;
      t.realized - realized == (if t.order.status == Closed then t.order.realized else 0.0) - (if o.status == Closed then o.realized else 0.0)
  {
    hide ExecPrice, EntryAdmitted;
  }

  lemma {:induction false} ResultsPointwise(a: seq<Order>, b: seq<Order>)
    requires |a| == |b| && forall i :: 0 <= i < |a| ==> (a[i].status == Closed <==> b[i].status == Closed) && a[i].realized == b[i].realized
    ensures Results(a) == Results(b)
  {
    if a != [] {
      ResultsPointwise(a[..|a| - 1], b[..|b| - 1]);
    }
  }

  lemma {:induction false} ResultsInserted(orders: seq<Order>, o: Order)
    requires o.status != Closed
    ensures Results(InsertById(orders, o)) == Results(orders)
  {
    hide Precedes;
    if orders != [] {
      var n := |orders| - 1;
      ResultsInserted(orders[..n], o);
      var front := InsertById(orders[..n], o);
      assert (front + [orders[n]])[..|front|] == front;
      assert (orders + [o])[..n + 1] == orders;
    }
  }

  lemma CommandResults(rules: FillRules, st: State, c: Command)
    ensures
      var after := Execute(rules, st, c).state.account;
      after.realized - Results(after.orders) == st.account.realized - Results(st.account.orders)
  {
    hide TouchAll, InsertById, Results, ReportedOf;
    var after := Execute(rules, st, c).state.account;
    match c
    case Submit(p, risk, hours, at) =>
      if hours.Some? {
        ResultsInserted(st.account.orders, OrderFor(p, risk, hours.value, at));
      }
    case Cancel(_, _) =>
      if |after.orders| == |st.account.orders| {
        ResultsPointwise(st.account.orders, after.orders);
      }
    case EndSession(_) => ResultsPointwise(st.account.orders, after.orders);
    case OnQuote(_, tick) =>
      if TouchAll(rules, st.account, tick).Ok? {
        QuoteResults(rules, st.account, tick);
      }
  }

  /** Over every run, realized P&L is the sum of the closed orders' results: the account earns what
      its trades earn, and a trade counts once. */
  lemma {:induction false} RealizedIsResults(rules: FillRules, st: State, cs: seq<Command>)
    requires st.account.realized == Results(st.account.orders)
    ensures Run(rules, st, cs).account.realized == Results(Run(rules, st, cs).account.orders)
    decreases |cs|
  {
    hide Execute, Results;
    if cs != [] {
      CommandResults(rules, st, cs[0]);
      RealizedIsResults(rules, Execute(rules, st, cs[0]).state, cs[1..]);
    }
  }

  // ---------------------------------------------------------------- the order of the orders

  ghost predicate ById(orders: seq<Order>) {
    forall i, j :: 0 <= i < j < |orders| ==> Precedes(orders[i].id, orders[j].id)
  }

  predicate SameIds(a: seq<Order>, b: seq<Order>) {
    |a| == |b| && forall i :: 0 <= i < |a| ==> a[i].id == b[i].id
  }

  lemma {:induction false} InsertedById(orders: seq<Order>, o: Order)
    requires ById(orders) && forall i :: 0 <= i < |orders| ==> orders[i].id != o.id
    ensures ById(InsertById(orders, o))
  {
    hide Precedes;
    if orders != [] {
      var n := |orders| - 1;
      PrecedesTotal(o.id, orders[n].id);
      InsertMembers(orders[..n], o);
      if Precedes(o.id, orders[n].id) {
        InsertedById(orders[..n], o);
        var front := InsertById(orders[..n], o);
        forall i | 0 <= i < |front| ensures Precedes(front[i].id, orders[n].id) {
          assert front[i] in front;
        }
      } else {
        forall i | 0 <= i < n ensures Precedes(orders[i].id, o.id) {
          PrecedesTransitive(orders[i].id, orders[n].id, o.id);
        }
      }
    }
  }

  lemma {:induction false} TouchingKeepsIds(rules: FillRules, a: Account, tick: Tick)
    requires TouchAll(rules, a, tick).Ok?
    ensures SameIds(a.orders, TouchAll(rules, a, tick).value.orders)
    decreases |a.orders|
  {
    hide ExecPrice, EntryAdmitted;
    if a.orders != [] {
      TouchingKeepsIds(rules, a.(orders := a.orders[..|a.orders| - 1]), tick);
    }
  }

  lemma ExecutedById(rules: FillRules, st: State, c: Command)
    requires ById(st.account.orders)
    ensures ById(Execute(rules, st, c).state.account.orders)
  {
    hide TouchAll, InsertById, ReportedOf, Precedes;
    match c
    case Submit(p, risk, hours, at) =>
      if hours.Some? && IndexOf(st.account.orders, p.id).None? {
        InsertedById(st.account.orders, OrderFor(p, risk, hours.value, at));
      }
    case Cancel(_, _) =>
    case EndSession(_) =>
    case OnQuote(_, tick) =>
      if TouchAll(rules, st.account, tick).Ok? {
        TouchingKeepsIds(rules, st.account, tick);
      }
  }

  /** In every reachable state the orders stand in identifier order, which is the order in which a
      quote lets them compete for the cash. */
  lemma {:induction false} RunById(rules: FillRules, st: State, cs: seq<Command>)
    requires ById(st.account.orders)
    ensures ById(Run(rules, st, cs).account.orders)
    decreases |cs|
  {
    hide Execute, ById;
    if cs != [] {
      ExecutedById(rules, st, cs[0]);
      RunById(rules, Execute(rules, st, cs[0]).state, cs[1..]);
    }
  }
}
