/** What every run of the simulator keeps: money is conserved, orders only move forward, losses
    stay within the budget unless the market gapped, and retries change nothing. */
module SimulatorLedger {
  import opened Common
  import opened Rounding
  import opened Simulator

  // ---------------------------------------------------------------- invariants

  function LockedOf(o: Order): real {
    if Holding(o) then o.collateral + o.entryFee else 0.0
  }

  /** Money tied up in held orders. */
  function Locked(orders: seq<Order>): real {
    if orders == [] then 0.0 else Locked(orders[..|orders| - 1]) + LockedOf(orders[|orders| - 1])
  }

  /** The executable mark at the close was no worse than the stop. */
  predicate WithoutGap(o: Order) {
    if o.long then o.mark >= o.stop else o.mark <= o.stop
  }

  predicate EntryRecorded(rules: FillRules, o: Order) {
    && |o.fills| > 0 && o.fills[0].kind.EntryFill? && o.fills[0].price == o.entry && o.fills[0].fee == o.entryFee
    && o.entry > 0.0
    && o.collateral == o.entry * o.quantity as real
    && o.entryFee == o.entry * o.quantity as real * rules.fee
    && Geometry(o, o.entry)
    && FillRisk(rules, o.instrument, o.long, o.quantity, o.stop, o.entry) <= o.budget
  }

  /** An order never has more fills than its status allows, its entry passed the risk gate, and
      once closed without a gap it lost no more than its budget. */
  predicate OrderSound(rules: FillRules, o: Order) {
    && o.quantity > 0 && o.stop > 0.0
    && (o.status.Pending? || o.status.Cancelled? || o.status.Rejected? ==> o.fills == [])
    && (Holding(o) ==> |o.fills| == 1 && EntryRecorded(rules, o))
    && (o.status.Closed? ==>
          && |o.fills| == 2 && o.fills[1].kind.ExitFill? && EntryRecorded(rules, o)
          && (WithoutGap(o) ==> o.realized >= -o.budget))
  }

  function Rank(s: Status): nat {
    match s
    case Pending => 0
    case Open => 1
    case ExitPending => 2
    case Closed => 3
    case Cancelled => 3
    case Rejected => 3
  }

  /** How one order may change. */
  predicate Forward(a: Order, b: Order) {
    && b.id == a.id && b.instrument == a.instrument && b.long == a.long && b.quantity == a.quantity
    && b.stop == a.stop && b.target == a.target && b.budget == a.budget
    && b.submittedAt == a.submittedAt && b.sessionEnd == a.sessionEnd
    && a.fills <= b.fills
    && Rank(a.status) <= Rank(b.status)
    && (Rank(a.status) == 3 ==> b == a)
    && (b.status.Cancelled? || b.status.Rejected? ==> a.status.Pending? || b == a)
  }

  ghost predicate Distinct(orders: seq<Order>) {
    forall i, j :: 0 <= i < j < |orders| ==> orders[i].id != orders[j].id
  }

  /** Cash plus locked money is capital plus realized P&L. */
  predicate Conserved(capital: real, a: Account) {
    a.cash + Locked(a.orders) == capital + a.realized
  }

  ghost predicate AllSound(rules: FillRules, orders: seq<Order>) {
    forall i :: 0 <= i < |orders| ==> OrderSound(rules, orders[i])
  }

  ghost predicate AllLong(orders: seq<Order>) {
    forall i :: 0 <= i < |orders| ==> orders[i].long
  }

  ghost predicate AccountValid(rules: FillRules, capital: real, a: Account) {
    && AllSound(rules, a.orders) && Distinct(a.orders) && Conserved(capital, a)
    && (AllLong(a.orders) ==> a.cash >= 0.0)
  }

  ghost predicate HasForward(o: Order, after: seq<Order>) {
    exists later :: later in after && Forward(o, later)
  }

  /** Later orders contain the earlier ones, each moved forward. */
  ghost predicate Extends(before: seq<Order>, after: seq<Order>) {
    forall o :: o in before ==> HasForward(o, after)
  }

  // ---------------------------------------------------------------- prices

  lemma MulLe(a: real, b: real, u: real)
    requires a <= b && u >= 0.0
    ensures a * u <= b * u
  {
    assert (b - a) * u >= 0.0;
  }

  /** A quote no worse than the stop executes no worse than the projected stop. */
  lemma ExitNoWorseThanProjected(rules: FillRules, o: Order, tick: Tick)
    requires tick.instrument == o.instrument
    requires if o.long then tick.bid >= o.stop else tick.ask <= o.stop
    ensures
      var projected := ProjectedStop(rules, o.instrument, o.long, o.stop);
      var fill := ExecPrice(rules, tick, !o.long);
      if o.long then fill >= projected else fill <= projected
  {
    hide Slipped, CeilTick, FloorTick;
    if o.long {
      SlippedMonotone(rules, o.stop, tick.bid, false);
      FloorTickMonotone(Slipped(rules, o.stop, false), Slipped(rules, tick.bid, false), o.instrument.tick);
    } else {
      SlippedMonotone(rules, tick.ask, o.stop, true);
      CeilTickMonotone(Slipped(rules, tick.ask, true), Slipped(rules, o.stop, true), o.instrument.tick);
    }
  }

  lemma SlippedMonotone(rules: FillRules, a: real, b: real, up: bool)
    requires a <= b
    ensures Slipped(rules, a, up) <= Slipped(rules, b, up)
  {
    MulLe(a, b, if up then 1.0 + rules.slippage else 1.0 - rules.slippage);
  }

  lemma SlippedSide(rules: FillRules, price: real, up: bool)
    requires price > 0.0
    ensures if up then Slipped(rules, price, up) >= price else Slipped(rules, price, up) <= price
  {
    if up {
      MulLe(1.0, 1.0 + rules.slippage, price);
    } else {
      MulLe(1.0 - rules.slippage, 1.0, price);
    }
  }

  lemma ProjectedBeyondStop(rules: FillRules, instrument: Tradable, long: bool, stop: real)
    requires stop > 0.0
    ensures
      var projected := ProjectedStop(rules, instrument, long, stop);
      if long then projected <= stop else projected >= stop
  {
    hide Slipped, CeilTick, FloorTick;
    SlippedSide(rules, stop, !long);
    FloorTickGreatest(Slipped(rules, stop, false), instrument.tick, 0);
    CeilTickLeast(Slipped(rules, stop, true), instrument.tick, 0);
  }

  /** Net result of a round trip, as the close computes it. */
  function Net(entry: real, exit: real, units: real, fee: real, long: bool): real {
    (exit - entry) * units * Scale(long) - entry * units * fee - exit * units * fee
  }

  lemma NetMonotone(entry: real, exit: real, projected: real, units: real, fee: real, long: bool)
    requires units > 0.0 && 0.0 <= fee < 1.0
    requires if long then exit >= projected else exit <= projected
    ensures Net(entry, exit, units, fee, long) >= Net(entry, projected, units, fee, long)
  {
    if long {
      MulLe(projected, exit, units);
      MulLe(projected * units, exit * units, 1.0 - fee);
      LongNet(entry, exit, units, fee);
      LongNet(entry, projected, units, fee);
    } else {
      MulLe(exit, projected, units);
      MulLe(exit * units, projected * units, 1.0 + fee);
      ShortNet(entry, exit, units, fee);
      ShortNet(entry, projected, units, fee);
    }
  }

  lemma LongNet(entry: real, exit: real, units: real, fee: real)
    ensures Net(entry, exit, units, fee, true) == exit * units * (1.0 - fee) - entry * units - entry * units * fee
  {
    assert (exit - entry) * units == exit * units - entry * units;
  }

  lemma ShortNet(entry: real, exit: real, units: real, fee: real)
    ensures Net(entry, exit, units, fee, false) == entry * units - exit * units * (1.0 + fee) - entry * units * fee
  {
    assert (exit - entry) * units == exit * units - entry * units;
  }

  /** Leaving at the projected stop loses exactly the risk the entry gate measured. */
  lemma RiskIsProjectedLoss(rules: FillRules, o: Order)
    requires o.quantity > 0 && o.stop > 0.0 && Geometry(o, o.entry)
    ensures
      var projected := ProjectedStop(rules, o.instrument, o.long, o.stop);
      Net(o.entry, projected, o.quantity as real, rules.fee, o.long)
        == -FillRisk(rules, o.instrument, o.long, o.quantity, o.stop, o.entry)
  {
    ProjectedBeyondStop(rules, o.instrument, o.long, o.stop);
    hide ProjectedStop;
    var projected := ProjectedStop(rules, o.instrument, o.long, o.stop);
    var units := o.quantity as real;
    assert (projected - o.entry) * units == -((o.entry - projected) * units);
  }

  // ---------------------------------------------------------------- one order

  lemma ProductPositive(a: real, b: real)
    requires a > 0.0 && b > 0.0
    ensures a * b > 0.0
  {
  }

  /** Opening ties up exactly what it takes from cash and records a fill that passed the gate. */
  lemma OpeningKeeps(rules: FillRules, cash: real, realized: real, o: Order, tick: Tick, fill: real)
    requires OrderSound(rules, o) && o.status.Pending? && o.instrument == tick.instrument
    requires fill > 0.0 && EntryAdmitted(rules, o, tick.instrument, cash, fill)
    ensures
      var t := Opened(rules, cash, realized, o, tick, fill);
      && OrderSound(rules, t.order) && Forward(o, t.order)
      && t.cash + LockedOf(t.order) - t.realized == cash + LockedOf(o) - realized
      && t.cash >= 0.0
  {
    hide FillRisk;
  }

  /** Closing returns what was tied up, adjusted by the net result, and a close without a gap
      loses at most the budget. */
  lemma ClosingKeeps(rules: FillRules, cash: real, realized: real, o: Order, tick: Tick)
    requires OrderSound(rules, o) && Holding(o) && o.instrument == tick.instrument
    requires ExecPrice(rules, tick, !o.long) > 0.0
    ensures
      var t := ClosedOut(rules, cash, realized, o, tick, ExecPrice(rules, tick, !o.long));
      && OrderSound(rules, t.order) && Forward(o, t.order)
      && t.cash + LockedOf(t.order) - t.realized == cash + LockedOf(o) - realized
      && (o.long && cash >= 0.0 ==> t.cash >= 0.0)
  {
    hide FillRisk, ExecPrice, Net;
    var fill := ExecPrice(rules, tick, !o.long);
    ClosingMoney(rules, cash, realized, o, tick, fill);
    var t := ClosedOut(rules, cash, realized, o, tick, fill);
    if WithoutGap(t.order) {
      LossWithinBudget(rules, o, tick);
    }
    hide EntryRecorded;
    ClosingForward(rules, cash, realized, o, tick, fill);
  }

  lemma ClosingForward(rules: FillRules, cash: real, realized: real, o: Order, tick: Tick, fill: real)
    requires OrderSound(rules, o) && Holding(o) && o.instrument == tick.instrument
    ensures
      var t := ClosedOut(rules, cash, realized, o, tick, fill).order;
      && Forward(o, t) && t.status.Closed? && |t.fills| == 2 && t.fills[1].kind.ExitFill? && EntryRecorded(rules, t)
  {
    hide FillRisk;
  }

  lemma ClosingMoney(rules: FillRules, cash: real, realized: real, o: Order, tick: Tick, fill: real)
    requires OrderSound(rules, o) && Holding(o) && fill > 0.0
    ensures
      var t := ClosedOut(rules, cash, realized, o, tick, fill);
      && t.order.realized == Net(o.entry, fill, o.quantity as real, rules.fee, o.long)
      && t.cash - t.realized == cash + LockedOf(o) - realized
      && (o.long && cash >= 0.0 ==> t.cash >= 0.0)
  {
    hide FillRisk, Geometry;
    if o.long {
      LongCloseReturns(o.entry, fill, o.quantity as real, rules.fee);
    }
  }

  lemma LongCloseReturns(entry: real, fill: real, units: real, fee: real)
    requires fill > 0.0 && units > 0.0 && 0.0 <= fee < 1.0
    ensures entry * units + (fill - entry) * units * 1.0 - fill * units * fee >= 0.0
  {
    ProductPositive(fill, units);
    MulLe(fee, 1.0, fill * units);
    assert (fill - entry) * units == fill * units - entry * units;
  }

  /** The loss bound: an order closed on a quote no worse than its stop realizes at least minus
      its risk budget, after slippage, tick rounding and both fees. */
  lemma LossWithinBudget(rules: FillRules, o: Order, tick: Tick)
    requires OrderSound(rules, o) && Holding(o) && o.instrument == tick.instrument
    requires if o.long then tick.bid >= o.stop else tick.ask <= o.stop
    ensures Net(o.entry, ExecPrice(rules, tick, !o.long), o.quantity as real, rules.fee, o.long) >= -o.budget
  {
    hide ExecPrice, ProjectedStop, Net, FillRisk;
    var projected := ProjectedStop(rules, o.instrument, o.long, o.stop);
    ExitNoWorseThanProjected(rules, o, tick);
    NetMonotone(o.entry, ExecPrice(rules, tick, !o.long), projected, o.quantity as real, rules.fee, o.long);
    RiskIsProjectedLoss(rules, o);
  }

  lemma MarkingKeeps(rules: FillRules, o: Order, mark: real)
    requires OrderSound(rules, o) && Holding(o)
    ensures OrderSound(rules, o.(mark := mark)) && Forward(o, o.(mark := mark))
  {
    hide FillRisk;
  }

  lemma TouchKeeps(rules: FillRules, cash: real, realized: real, o: Order, tick: Tick)
    requires OrderSound(rules, o) && Touch(rules, cash, realized, o, tick).Ok?
    ensures
      var t := Touch(rules, cash, realized, o, tick).value;
      && OrderSound(rules, t.order) && Forward(o, t.order)
      && t.cash + LockedOf(t.order) - t.realized == cash + LockedOf(o) - realized
      && (o.long && cash >= 0.0 ==> t.cash >= 0.0)
  {
    hide ExecPrice, EntryAdmitted, Opened, ClosedOut, EntryRecorded;
    if Live(o) && o.instrument == tick.instrument {
      if o.status.Pending? {
        var fill := ExecPrice(rules, tick, o.long);
        if fill > 0.0 && EntryAdmitted(rules, o, tick.instrument, cash, fill) {
          OpeningKeeps(rules, cash, realized, o, tick, fill);
        }
      } else {
        var fill := ExecPrice(rules, tick, !o.long);
        if fill > 0.0 {
          ClosingKeeps(rules, cash, realized, o, tick);
        }
        MarkingKeeps(rules, o, Mark(o, tick));
      }
    }
  }

  // ---------------------------------------------------------------- all orders

  /** Order by order, the same positions moved forward. */
  ghost predicate Pointwise(before: seq<Order>, after: seq<Order>) {
    |after| == |before| && forall i :: 0 <= i < |before| ==> Forward(before[i], after[i])
  }

  lemma TouchAllKeeps(rules: FillRules, capital: real, a: Account, tick: Tick)
    requires AllSound(rules, a.orders) && TouchAll(rules, a, tick).Ok?
    ensures
      var b := TouchAll(rules, a, tick).value;
      && AllSound(rules, b.orders) && Pointwise(a.orders, b.orders)
      && b.cash + Locked(b.orders) - b.realized == a.cash + Locked(a.orders) - a.realized
      && (AllLong(a.orders) && a.cash >= 0.0 ==> b.cash >= 0.0)
    decreases |a.orders|
  {
    hide Touch, OrderSound, Forward, LockedOf;
    if a.orders != [] {
      var n := |a.orders| - 1;
      var shorter := a.(orders := a.orders[..n]);
      TouchAllKeeps(rules, capital, shorter, tick);
      var before := TouchAll(rules, shorter, tick).value;
      TouchKeeps(rules, before.cash, before.realized, a.orders[n], tick);
      var b := TouchAll(rules, a, tick).value;
      assert b.orders[..n] == before.orders;
    }
  }

  lemma PointwiseDistinct(before: seq<Order>, after: seq<Order>)
    requires Distinct(before) && Pointwise(before, after)
    ensures Distinct(after) && (AllLong(after) ==> AllLong(before))
  {
    forall i, j | 0 <= i < j < |after| ensures after[i].id != after[j].id {
      assert Forward(before[i], after[i]) && Forward(before[j], after[j]);
    }
    forall i | 0 <= i < |before| && AllLong(after) ensures before[i].long {
      assert Forward(before[i], after[i]);
    }
  }

  /** Changing orders without touching money or held collateral. */
  lemma LockedPointwise(before: seq<Order>, after: seq<Order>)
    requires |before| == |after| && forall i :: 0 <= i < |before| ==> LockedOf(after[i]) == LockedOf(before[i])
    ensures Locked(after) == Locked(before)
  {
    if before != [] {
      LockedPointwise(before[..|before| - 1], after[..|after| - 1]);
    }
  }

  lemma InsertMembers(orders: seq<Order>, o: Order)
    ensures forall x :: x in InsertById(orders, o) <==> x in orders || x == o
    ensures Locked(InsertById(orders, o)) == Locked(orders) + LockedOf(o)
  {
    hide Precedes, LockedOf;
    if orders != [] {
      var n := |orders| - 1;
      InsertMembers(orders[..n], o);
      assert orders == orders[..n] + [orders[n]];
      var front := InsertById(orders[..n], o);
      assert (front + [orders[n]])[..|front|] == front;
      assert (orders + [o])[..n + 1] == orders;
    }
  }

  lemma InsertDistinct(orders: seq<Order>, o: Order)
    requires Distinct(orders) && forall x :: x in orders ==> x.id != o.id
    ensures Distinct(InsertById(orders, o))
  {
    hide Precedes, Distinct, Locked;
    if orders == [] {
      AppendDistinct([], o);
      assert [] + [o] == [o];
    } else {
      var n := |orders| - 1;
      PrefixDistinct(orders, n);
      InsertDistinct(orders[..n], o);
      InsertMembers(orders[..n], o);
      AppendDistinct(InsertById(orders[..n], o), orders[n]);
      AppendDistinct(orders, o);
    }
  }

  lemma PrefixDistinct(orders: seq<Order>, n: nat)
    requires Distinct(orders) && n < |orders|
    ensures Distinct(orders[..n]) && forall x :: x in orders[..n] ==> x.id != orders[n].id
  {
  }

  lemma AppendDistinct(orders: seq<Order>, o: Order)
    ensures Distinct([]) && (Distinct(orders) && (forall x :: x in orders ==> x.id != o.id) ==> Distinct(orders + [o]))
  {
  }

  lemma InsertKeeps(rules: FillRules, orders: seq<Order>, o: Order)
    requires AllSound(rules, orders) && OrderSound(rules, o)
    ensures AllSound(rules, InsertById(orders, o)) && Extends(orders, InsertById(orders, o))
    ensures AllLong(InsertById(orders, o)) ==> AllLong(orders)
  {
    hide OrderSound, InsertById, Forward;
    InsertMembers(orders, o);
    var after := InsertById(orders, o);
    forall x | x in orders ensures HasForward(x, after) {
      ForwardReflexive(x);
    }
    forall i | 0 <= i < |after| ensures OrderSound(rules, after[i]) {
      assert after[i] in after;
    }
    forall i | 0 <= i < |orders| && AllLong(after) ensures orders[i].long {
      assert orders[i] in after;
    }
  }

  lemma PointwiseExtends(before: seq<Order>, after: seq<Order>)
    requires Pointwise(before, after)
    ensures Extends(before, after)
  {
    hide Forward;
    forall o | o in before ensures HasForward(o, after) {
      var i :| 0 <= i < |before| && before[i] == o;
      assert after[i] in after;
    }
  }

  // ---------------------------------------------------------------- events and runs

  predicate FreshOrder(o: Order) {
    o.quantity > 0 && o.stop > 0.0 && o.status.Pending? && o.fills == []
  }

  predicate WellFormedRequest(r: Request) {
    r.SubmitRequest? ==> FreshOrder(r.order)
  }

  lemma EndingKeeps(rules: FillRules, orders: seq<Order>, at: int)
    requires AllSound(rules, orders)
    ensures
      var after := EndAll(orders, at);
      AllSound(rules, after) && Pointwise(orders, after) && Locked(after) == Locked(orders)
  {
    var after := EndAll(orders, at);
    forall i | 0 <= i < |orders|
      ensures OrderSound(rules, after[i]) && Forward(orders[i], after[i]) && LockedOf(after[i]) == LockedOf(orders[i])
    {
      EndOneKeeps(rules, orders[i], at);
    }
    LockedPointwise(orders, after);
  }

  lemma EndOneKeeps(rules: FillRules, o: Order, at: int)
    requires OrderSound(rules, o)
    ensures OrderSound(rules, EndOne(o, at)) && Forward(o, EndOne(o, at)) && LockedOf(EndOne(o, at)) == LockedOf(o)
  {
    hide FillRisk;
  }

  lemma ApplyKeeps(rules: FillRules, capital: real, a: Account, request: Request)
    requires AccountValid(rules, capital, a) && WellFormedRequest(request) && Apply(rules, a, request).Ok?
    ensures
      var b := Apply(rules, a, request).value.0;
      AccountValid(rules, capital, b) && Extends(a.orders, b.orders)
  {
    hide TouchAll, InsertById, OrderSound, Forward, EndOne, ReportedOf, Locked, Extends;
    match request
    case SubmitRequest(_, order) =>
      SubmitKeeps(rules, capital, a, order);
    case CancelRequestFor(_, id) =>
      CancelKeeps(rules, capital, a, IndexOf(a.orders, id).value);
    case SessionRequest(at) =>
      EndingKeeps(rules, a.orders, at);
      var after := EndAll(a.orders, at);
      PointwiseDistinct(a.orders, after);
      PointwiseExtends(a.orders, after);
    case QuoteRequest(_, tick) =>
      TouchAllKeeps(rules, capital, a, tick);
      var b := TouchAll(rules, a, tick).value;
      PointwiseDistinct(a.orders, b.orders);
      PointwiseExtends(a.orders, b.orders);
  }

  lemma SubmitKeeps(rules: FillRules, capital: real, a: Account, order: Order)
    requires AccountValid(rules, capital, a) && FreshOrder(order) && IndexOf(a.orders, order.id).None?
    ensures
      var b := a.(orders := InsertById(a.orders, order));
      AccountValid(rules, capital, b) && Extends(a.orders, b.orders)
  {
    hide OrderSound, InsertById, Extends;
    SubmittedSound(rules, order);
    InsertKeeps(rules, a.orders, order);
    InsertMembers(a.orders, order);
    InsertDistinct(a.orders, order);
  }

  lemma CancelKeeps(rules: FillRules, capital: real, a: Account, i: nat)
    requires AccountValid(rules, capital, a) && i < |a.orders| && a.orders[i].status.Pending?
    ensures
      var b := a.(orders := a.orders[i := a.orders[i].(status := Cancelled, reason := CancelRequest)]);
      AccountValid(rules, capital, b) && Extends(a.orders, b.orders)
  {
    hide OrderSound, Forward, LockedOf, Extends;
    var after := a.orders[i := a.orders[i].(status := Cancelled, reason := CancelRequest)];
    CancellingKeeps(rules, a.orders[i]);
    forall k | 0 <= k < |a.orders| ensures Forward(a.orders[k], after[k]) {
      ForwardReflexive(a.orders[k]);
    }
    LockedPointwise(a.orders, after);
    PointwiseDistinct(a.orders, after);
    PointwiseExtends(a.orders, after);
  }

  lemma SubmittedSound(rules: FillRules, o: Order)
    requires FreshOrder(o)
    ensures OrderSound(rules, o)
  {
  }

  lemma ForwardReflexive(o: Order)
    ensures Forward(o, o)
  {
  }

  lemma CancellingKeeps(rules: FillRules, o: Order)
    requires OrderSound(rules, o) && o.status.Pending?
    ensures
      var c := o.(status := Cancelled, reason := CancelRequest);
      OrderSound(rules, c) && Forward(o, c) && LockedOf(c) == LockedOf(o)
  {
    hide FillRisk;
  }

  lemma ForwardTransitive(a: Order, b: Order, c: Order)
    requires Forward(a, b) && Forward(b, c)
    ensures Forward(a, c)
  {
  }

  lemma ExtendsTransitive(a: seq<Order>, b: seq<Order>, c: seq<Order>)
    requires Extends(a, b) && Extends(b, c)
    ensures Extends(a, c)
  {
    forall o | o in a ensures HasForward(o, c) {
      assert HasForward(o, b);
      var p :| p in b && Forward(o, p);
      assert HasForward(p, c);
      var q :| q in c && Forward(p, q);
      ForwardTransitive(o, p, q);
    }
  }

  lemma ExtendsReflexive(a: seq<Order>)
    ensures Extends(a, a)
  {
    forall o | o in a ensures HasForward(o, a) {
      ForwardReflexive(o);
    }
  }

  lemma ExecuteKeeps(rules: FillRules, capital: real, st: State, c: Command)
    requires AccountValid(rules, capital, st.account)
    ensures
      var after := Execute(rules, st, c).state;
      AccountValid(rules, capital, after.account) && Extends(st.account.orders, after.account.orders)
  {
    hide AccountValid, Apply, Extends;
    ExtendsReflexive(st.account.orders);
    var request := match c
      case Submit(p, risk, hours, at) =>
        if hours.Some? then SubmitRequest(at, OrderFor(p, risk, hours.value, at)) else SessionRequest(at)
      case Cancel(id, at) => CancelRequestFor(at, id)
      case EndSession(at) => SessionRequest(at)
      case OnQuote(_, tick) => QuoteRequest(tick.receivedAt, tick);
    if WellFormedRequest(request) && Apply(rules, st.account, request).Ok? {
      ApplyKeeps(rules, capital, st.account, request);
    }
  }

  /** In every reachable state of the simulator: cash plus the entry notional and fees of open
      orders equals the initial capital plus realized P&L; every order's fills fit its status (a
      closed order has exactly one entry, then one exit); no order closed without a gap lost more
      than its budget; statuses only move forward; and with long orders only, cash never goes
      negative. */
  lemma {:induction false} RunKeeps(rules: FillRules, capital: real, st: State, cs: seq<Command>)
    requires AccountValid(rules, capital, st.account)
    ensures AccountValid(rules, capital, Run(rules, st, cs).account)
    ensures Extends(st.account.orders, Run(rules, st, cs).account.orders)
    decreases |cs|
  {
    hide AccountValid, Execute, Extends;
    ExtendsReflexive(st.account.orders);
    if cs != [] {
      ExecuteKeeps(rules, capital, st, cs[0]);
      var next := Execute(rules, st, cs[0]).state;
      RunKeeps(rules, capital, next, cs[1..]);
      ExtendsTransitive(st.account.orders, next.account.orders, Run(rules, st, cs).account.orders);
    }
  }

  lemma InitialValid(rules: FillRules, capital: real)
    requires capital > 0.0
    ensures AccountValid(rules, capital, Initial(capital).account)
  {
  }

  /** Equity splits into capital, realized and unrealized P&L. */
  lemma PortfolioSplits(cash: real, orders: seq<Order>)
    ensures
      var v := Portfolio(cash, orders);
      v.equity - v.unrealized == cash + Locked(orders)
  {
    hide GrossAtMark;
    if orders != [] {
      PortfolioSplits(cash, orders[..|orders| - 1]);
    }
  }

  /** The reported equity always equals initial capital plus realized plus unrealized P&L. */
  lemma EquityIsExplained(rules: FillRules, capital: real, cs: seq<Command>)
    requires capital > 0.0
    ensures
      var a := Run(rules, Initial(capital), cs).account;
      var v := Portfolio(a.cash, a.orders);
      && v.equity == capital + a.realized + v.unrealized
      && (AllLong(a.orders) ==> a.cash >= 0.0)
  {
    InitialValid(rules, capital);
    RunKeeps(rules, capital, Initial(capital), cs);
    var a := Run(rules, Initial(capital), cs).account;
    PortfolioSplits(a.cash, a.orders);
  }

  // ---------------------------------------------------------------- the simulator

  class PaperSimulator {
    const rules: FillRules
    const capital: real
    var cash: real
    var realized: real
    var orders: seq<Order>
    var clock: Option<int>
    var log: map<EventId, Logged>

    ghost function Model(): State
      reads this
    {
      State(Account(cash, realized, orders), clock, log)
    }

    ghost predicate Valid()
      reads this
    {
      AccountValid(rules, capital, Model().account)
    }

    constructor (capital: real, rules: FillRules)
      requires capital > 0.0
      ensures Valid() && Model() == Initial(capital) && this.rules == rules && this.capital == capital
    {
      InitialValid(rules, capital);
      this.capital, this.rules := capital, rules;
      cash, realized, orders, clock, log := capital, 0.0, [], None, map[];
    }

    /** Look the event up: a stored answer, a refusal, or leave to apply it. */
    method Lookup(id: EventId, request: Request) returns (answer: Option<Result<Response, Error>>)
      ensures answer.Some? ==> Event(rules, Model(), id, request) == Outcome(Model(), answer.value)
      ensures answer.None? <==> !id.BlankId? && id !in log && (clock.Some? ==> clock.value <= request.at)
    {
      if id.BlankId? {
        return Some(Err(BlankEvent));
      }
      if id in log {
        if log[id].request != request {
          return Some(Err(ConflictingRetry));
        }
        return Some(Ok(log[id].response));
      }
      if clock.Some? && request.at < clock.value {
        return Some(Err(NotChronological));
      }
      answer := None;
    }

    /** Accept an approved order as pending. */
    method Submit(p: Proposal, risk: Approval, hours: Option<Hours>, at: int) returns (answer: Result<Response, Error>)
      requires Valid()
      modifies this
      ensures Outcome(Model(), answer) == Execute(rules, old(Model()), Command.Submit(p, risk, hours, at))
      ensures Valid()
    {
      ExecuteKeeps(rules, capital, Model(), Command.Submit(p, risk, hours, at));
      hide AccountValid, InsertById;
      if hours.None? || !(hours.value.opens <= at < hours.value.closes) {
        return Err(OutsideSession);
      }
      if !risk.approved || risk.proposalId != p.id || risk.quantity <= 0 || risk.quantity % p.instrument.lot != 0 || p.signalAt > at {
        return Err(NotApproved);
      }
      if p.entry <= 0.0 || p.stop <= 0.0 || p.target <= 0.0 || risk.budget <= 0.0 {
        return Err(BadValues);
      }
      if !ProposalShape(p) {
        return Err(BadGeometry);
      }
      var order := OrderFor(p, risk, hours.value, at);
      var request := SubmitRequest(at, order);
      var found := Lookup(SubmitOf(p.id), request);
      if found.Some? {
        return found.value;
      }
      if IndexOf(orders, order.id).Some? {
        return Err(OrderExists);
      }
      orders := InsertById(orders, order);
      clock := Some(at);
      log := log[SubmitOf(p.id) := Logged(request, OrderResponse(order))];
      answer := Ok(OrderResponse(order));
    }

    method Cancel(id: string, at: int) returns (answer: Result<Response, Error>)
      requires Valid()
      modifies this
      ensures Outcome(Model(), answer) == Execute(rules, old(Model()), Command.Cancel(id, at))
      ensures Valid()
    {
      ExecuteKeeps(rules, capital, Model(), Command.Cancel(id, at));
      hide AccountValid;
      var request := CancelRequestFor(at, id);
      var found := Lookup(CancelOf(id), request);
      if found.Some? {
        return found.value;
      }
      var i := IndexOf(orders, id);
      if i.None? {
        return Err(UnknownOrder);
      }
      if !orders[i.value].status.Pending? {
        return Err(NotPending);
      }
      orders := orders[i.value := orders[i.value].(status := Cancelled, reason := CancelRequest)];
      clock := Some(at);
      log := log[CancelOf(id) := Logged(request, OrderResponse(orders[i.value]))];
      answer := Ok(OrderResponse(orders[i.value]));
    }

    /** Past an order's session end: cancel what is pending, queue what is open for exit. */
    method EndSession(at: int) returns (answer: Result<Response, Error>)
      requires Valid()
      modifies this
      ensures Outcome(Model(), answer) == Execute(rules, old(Model()), Command.EndSession(at))
      ensures Valid()
    {
      ExecuteKeeps(rules, capital, Model(), Command.EndSession(at));
      hide AccountValid;
      var found := Lookup(SessionAt(at), SessionRequest(at));
      if found.Some? {
        return found.value;
      }
      orders := EndOrders(orders, at);
      clock := Some(at);
      log := log[SessionAt(at) := Logged(SessionRequest(at), OrdersResponse(orders))];
      answer := Ok(OrdersResponse(orders));
    }

    /** Fill, mark or close every order of the quote's instrument; on an unrepresentable price
        nothing is committed. */
    method OnQuote(event: EventId, tick: Tick) returns (answer: Result<Response, Error>)
      requires Valid()
      modifies this
      ensures Outcome(Model(), answer) == Execute(rules, old(Model()), Command.OnQuote(event, tick))
      ensures Valid()
    {
      ExecuteKeeps(rules, capital, Model(), Command.OnQuote(event, tick));
      hide AccountValid, Touch, Reported;
      if !(0 <= tick.receivedAt - tick.quotedAt <= rules.maxAge * SECOND) {
        return Err(StaleQuote);
      }
      if tick.bid <= 0.0 || tick.ask <= 0.0 || tick.ask < tick.bid {
        return Err(BadQuote);
      }
      var request := QuoteRequest(tick.receivedAt, tick);
      var found := Lookup(event, request);
      if found.Some? {
        return found.value;
      }
      var touched := TouchOrders(rules, Account(cash, realized, orders), tick);
      if touched.Err? {
        return Err(touched.error);
      }
      var (account, changed) := touched.value;
      cash, realized, orders := account.cash, account.realized, account.orders;
      clock := Some(tick.receivedAt);
      log := log[event := Logged(request, OrdersResponse(changed))];
      answer := Ok(OrdersResponse(changed));
    }
  }

  /** The loop of `end_session`. */
  method EndOrders(orders: seq<Order>, at: int) returns (r: seq<Order>)
    ensures r == EndAll(orders, at)
  {
    r := orders;
    for i := 0 to |orders|
      invariant |r| == |orders|
      invariant forall j :: 0 <= j < i ==> r[j] == EndOne(orders[j], at)
      invariant forall j :: i <= j < |orders| ==> r[j] == orders[j]
    {
      if at >= r[i].sessionEnd {
        if r[i].status.Pending? {
          r := r[i := r[i].(status := Cancelled, reason := SessionEnded)];
        } else if r[i].status.Open? {
          r := r[i := r[i].(status := ExitPending, reason := SessionExitAwaitingQuote)];
        }
      }
    }
  }

  /** The loop of `on_quote` over working copies; the first unrepresentable price abandons it. */
  method TouchOrders(rules: FillRules, was: Account, tick: Tick) returns (r: Result<(Account, seq<Order>), Error>)
    ensures r ==
      var all := TouchAll(rules, was, tick);
      if all.Err? then Err(all.error) else Ok((all.value, ReportedOf(was.orders, all.value.orders, tick)))
  {
    hide Touch, Reported;
    var money, profit := was.cash, was.realized;
    var touched: seq<Order>, changed: seq<Order> := [], [];
    for i := 0 to |was.orders|
      invariant |touched| == i
      invariant TouchAll(rules, was.(orders := was.orders[..i]), tick) == Ok(Account(money, profit, touched))
      invariant changed == ReportedOf(was.orders[..i], touched, tick)
    {
      PrefixStep(rules, was, tick, i);
      var t := Touch(rules, money, profit, was.orders[i], tick);
      if t.Err? {
        FailedPrefix(rules, was, tick, i + 1);
        return Err(t.error);
      }
      ReportedStep(was.orders, touched, i, tick, t.value.order);
      money, profit := t.value.cash, t.value.realized;
      touched := touched + [t.value.order];
      if Reported(was.orders[i], tick) {
        changed := changed + [t.value.order];
      }
    }
    assert was.orders[..|was.orders|] == was.orders;
    assert was.(orders := was.orders[..|was.orders|]) == was;
    r := Ok((Account(money, profit, touched), changed));
  }

  lemma PrefixStep(rules: FillRules, a: Account, tick: Tick, i: nat)
    requires i < |a.orders|
    ensures
      var before := TouchAll(rules, a.(orders := a.orders[..i]), tick);
      TouchAll(rules, a.(orders := a.orders[..i + 1]), tick) ==
        if before.Err? then before
        else
          var t := Touch(rules, before.value.cash, before.value.realized, a.orders[i], tick);
          if t.Err? then Err(t.error) else Ok(Account(t.value.cash, t.value.realized, before.value.orders + [t.value.order]))
  {
    hide Touch;
    assert a.orders[..i + 1][..i] == a.orders[..i];
  }

  lemma ReportedStep(orders: seq<Order>, touched: seq<Order>, i: nat, tick: Tick, o: Order)
    requires i < |orders| && |touched| == i
    ensures ReportedOf(orders[..i + 1], touched + [o], tick)
      == ReportedOf(orders[..i], touched, tick) + if Reported(orders[i], tick) then [o] else []
  {
    hide Reported;
    assert orders[..i + 1][..i] == orders[..i];
    assert (touched + [o])[..i] == touched;
  }

  lemma FailedPrefix(rules: FillRules, a: Account, tick: Tick, i: nat)
    requires i <= |a.orders| && TouchAll(rules, a.(orders := a.orders[..i]), tick).Err?
    ensures TouchAll(rules, a, tick) == TouchAll(rules, a.(orders := a.orders[..i]), tick)
    decreases |a.orders| - i
  {
    hide Touch;
    if i < |a.orders| {
      PrefixStep(rules, a, tick, i);
      FailedPrefix(rules, a, tick, i + 1);
    } else {
      assert a.orders[..i] == a.orders;
    }
  }
}
