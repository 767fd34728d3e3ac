/** The quote-driven paper simulator with its transactional event log (`paper_simulator.py`). */
module Simulator {
  import opened Common
  import opened Rounding

  datatype Error = OutsideSession | NotApproved | BadValues | BadGeometry
                 | BlankEvent | ConflictingRetry | NotChronological
                 | OrderExists | UnknownOrder | NotPending | StaleQuote | BadQuote | UnrepresentablePrice

  // ---------------------------------------------------------------- configuration

  datatype Instrument = Instrument(symbol: string, lot: int, tick: real)

  type Tradable = i: Instrument | i.lot >= 1 && i.tick > 0.0 witness Instrument("", 1, 1.0)

  /** Slippage and fee fractions in [0, 1), as the original's constructor demands. */
  datatype RuleValues = RuleValues(slippage: real, fee: real, maxAge: int)

  type FillRules = r: RuleValues | 0.0 <= r.slippage < 1.0 && 0.0 <= r.fee < 1.0 && r.maxAge >= 0 witness RuleValues(0.0, 0.0, 0)

  // ---------------------------------------------------------------- orders and state

  datatype Status = Pending | Open | ExitPending | Closed | Cancelled | Rejected

  datatype FillKind = EntryFill | ExitFill

  datatype FillRecord = FillRecord(at: int, price: real, fee: real, kind: FillKind)

  datatype Reason = AwaitingQuote | FilledReason | CancelRequest | SessionEnded | SessionExitAwaitingQuote
                  | RiskOrCapitalGate | StopHit | TargetHit | SessionExit

  datatype Order = Order(id: string, instrument: Tradable, long: bool, quantity: int, stop: real, target: real,
                         budget: real, submittedAt: int, sessionEnd: int, status: Status, reason: Reason,
                         fills: seq<FillRecord>, entry: real, entryFee: real, collateral: real, mark: real, realized: real)

  /** The account row. The stored document keeps orders by key, so they stand in identifier order. */
  datatype Account = Account(cash: real, realized: real, orders: seq<Order>)

  /** A quote and the instant it was received. */
  datatype Tick = Tick(receivedAt: int, quotedAt: int, instrument: Tradable, bid: real, ask: real)

  function Scale(long: bool): real {
    if long then 1.0 else -1.0
  }

  // ---------------------------------------------------------------- prices

  function Slipped(rules: FillRules, price: real, up: bool): real {
    price * (if up then 1.0 + rules.slippage else 1.0 - rules.slippage)
  }

  /** The executable price: slipped against the trader, then rounded against the trader. */
  function ExecPrice(rules: FillRules, tick: Tick, buy: bool): real {
    if buy then CeilTick(Slipped(rules, tick.ask, true), tick.instrument.tick)
    else FloorTick(Slipped(rules, tick.bid, false), tick.instrument.tick)
  }

  /** Where the stop would execute if the quote stood exactly at it. */
  function ProjectedStop(rules: FillRules, instrument: Tradable, long: bool, stop: real): real {
    if long then FloorTick(Slipped(rules, stop, false), instrument.tick)
    else CeilTick(Slipped(rules, stop, true), instrument.tick)
  }

  /** Loss from a fill to the projected stop, both fees included. */
  function FillRisk(rules: FillRules, instrument: Tradable, long: bool, quantity: int, stop: real, fill: real): real {
    var projected := ProjectedStop(rules, instrument, long, stop);
    Abs(fill - projected) * quantity as real + fill * quantity as real * rules.fee + projected * quantity as real * rules.fee
  }

  predicate Geometry(o: Order, fill: real) {
    if o.long then o.stop < fill < o.target else o.target < fill < o.stop
  }

  predicate EntryAdmitted(rules: FillRules, o: Order, instrument: Tradable, cash: real, fill: real) {
    && Geometry(o, fill)
    && FillRisk(rules, instrument, o.long, o.quantity, o.stop, fill) <= o.budget
    && fill * o.quantity as real + fill * o.quantity as real * rules.fee <= cash
  }

  // ---------------------------------------------------------------- one order on one quote

  /** The account's money and one order, after a quote. */
  datatype Touched = Touched(cash: real, realized: real, order: Order)

  predicate Live(o: Order) {
    o.status.Pending? || o.status.Open? || o.status.ExitPending?
  }

  predicate StopTouched(o: Order, mark: real) {
    if o.long then mark <= o.stop else mark >= o.stop
  }

  predicate TargetTouched(o: Order, mark: real) {
    if o.long then mark >= o.target else mark <= o.target
  }

  function Mark(o: Order, tick: Tick): real {
    if o.long then tick.bid else tick.ask
  }

  function Opened(rules: FillRules, cash: real, realized: real, o: Order, tick: Tick, fill: real): Touched {
    var fee := fill * o.quantity as real * rules.fee;
    Touched(cash - fill * o.quantity as real - fee, realized,
            o.(status := Open, entry := fill, entryFee := fee, collateral := fill * o.quantity as real,
               mark := Mark(o, tick), reason := FilledReason,
               fills := o.fills + [FillRecord(tick.receivedAt, fill, fee, EntryFill)]))
  }

  function ClosedOut(rules: FillRules, cash: real, realized: real, o: Order, tick: Tick, fill: real): Touched {
    var mark := Mark(o, tick);
    var fee := fill * o.quantity as real * rules.fee;
    var gross := (fill - o.entry) * o.quantity as real * Scale(o.long);
    var net := gross - o.entryFee - fee;
    Touched(cash + o.collateral + gross - fee, realized + net,
            o.(status := Closed, mark := mark, realized := net,
               reason := if StopTouched(o, mark) then StopHit else if TargetTouched(o, mark) then TargetHit else SessionExit,
               fills := o.fills + [FillRecord(tick.receivedAt, fill, fee, ExitFill)]))
  }

  /** What `apply` of `on_quote` does to one order, given the money so far. */
  function Touch(rules: FillRules, cash: real, realized: real, o: Order, tick: Tick): Result<Touched, Error> {
    var ending := tick.receivedAt >= o.sessionEnd;
    if o.instrument != tick.instrument || !Live(o) then Ok(Touched(cash, realized, o))
    else if o.status.Pending? then
      if ending then Ok(Touched(cash, realized, o.(status := Cancelled, reason := SessionEnded)))
      else if tick.quotedAt < o.submittedAt then Ok(Touched(cash, realized, o))
      else
        var fill := ExecPrice(rules, tick, o.long);
        if fill <= 0.0 then Err(UnrepresentablePrice)
        else if EntryAdmitted(rules, o, tick.instrument, cash, fill) then Ok(Opened(rules, cash, realized, o, tick, fill))
        else Ok(Touched(cash, realized, o.(status := Rejected, reason := RiskOrCapitalGate)))
    else
      var mark := Mark(o, tick);
      if StopTouched(o, mark) || TargetTouched(o, mark) || ending || o.status.ExitPending? then
        var fill := ExecPrice(rules, tick, !o.long);
        if fill <= 0.0 then Err(UnrepresentablePrice)
        else Ok(ClosedOut(rules, cash, realized, o, tick, fill))
      else Ok(Touched(cash, realized, o.(mark := mark)))
  }

  /** Whether the original lists the order among those the quote changed. */
  predicate Reported(o: Order, tick: Tick) {
    && o.instrument == tick.instrument && Live(o)
    && !(o.status.Pending? && tick.receivedAt < o.sessionEnd && tick.quotedAt < o.submittedAt)
  }

  /** All orders on one quote, in identifier order; one unrepresentable price fails the event. */
  function TouchAll(rules: FillRules, a: Account, tick: Tick): Result<Account, Error>
    decreases |a.orders|
  {
    if a.orders == [] then Ok(a)
    else
      var n := |a.orders| - 1;
      var before := TouchAll(rules, a.(orders := a.orders[..n]), tick);
      if before.Err? then before
      else
        var t := Touch(rules, before.value.cash, before.value.realized, a.orders[n], tick);
        if t.Err? then Err(t.error)
        else Ok(Account(t.value.cash, t.value.realized, before.value.orders + [t.value.order]))
  }

  function EndOne(o: Order, at: int): Order {
    if at < o.sessionEnd then o
    else if o.status.Pending? then o.(status := Cancelled, reason := SessionEnded)
    else if o.status.Open? then o.(status := ExitPending, reason := SessionExitAwaitingQuote)
    else o
  }

  function EndAll(orders: seq<Order>, at: int): (r: seq<Order>)
    ensures |r| == |orders| && forall i :: 0 <= i < |orders| ==> r[i] == EndOne(orders[i], at)
  {
    seq(|orders|, i requires 0 <= i < |orders| => EndOne(orders[i], at))
  }

  function IndexOf(orders: seq<Order>, id: string): (r: Option<nat>)
    ensures r.Some? ==> r.value < |orders| && orders[r.value].id == id
    ensures r.None? ==> forall i :: 0 <= i < |orders| ==> orders[i].id != id
  {
    if orders == [] then None
    else
      var n := |orders| - 1;
      var before := IndexOf(orders[..n], id);
      if before.Some? then before else if orders[n].id == id then Some(n) else None
  }

  function InsertById(orders: seq<Order>, o: Order): seq<Order> {
    if orders == [] then [o]
    else
      var n := |orders| - 1;
      if Precedes(o.id, orders[n].id) then InsertById(orders[..n], o) + [orders[n]] else orders + [o]
  }

  // ---------------------------------------------------------------- requests and the event log

  /** What is stored and compared on a retry. */
  datatype Request =
    | SubmitRequest(at: int, order: Order)
    | CancelRequestFor(at: int, id: string)
    | SessionRequest(at: int)
    | QuoteRequest(at: int, tick: Tick)

  /** Identities the original derives, and those a caller supplies for quotes. */
  datatype EventId = BlankId | SubmitOf(id: string) | CancelOf(id: string) | SessionAt(at: int) | Supplied(name: string)

  datatype Response = OrderResponse(order: Order) | OrdersResponse(orders: seq<Order>)

  datatype Logged = Logged(request: Request, response: Response)

  datatype State = State(account: Account, clock: Option<int>, log: map<EventId, Logged>)

  /** The closure each event applies to the account. */
  function Apply(rules: FillRules, a: Account, request: Request): Result<(Account, Response), Error> {
    match request
    case SubmitRequest(_, order) =>
      if IndexOf(a.orders, order.id).Some? then Err(OrderExists)
      else Ok((a.(orders := InsertById(a.orders, order)), OrderResponse(order)))
    case CancelRequestFor(_, id) =>
      var i := IndexOf(a.orders, id);
      if i.None? then Err(UnknownOrder)
      else if !a.orders[i.value].status.Pending? then Err(NotPending)
      else
        var o := a.orders[i.value].(status := Cancelled, reason := CancelRequest);
        Ok((a.(orders := a.orders[i.value := o]), OrderResponse(o)))
    case SessionRequest(at) =>
      var orders := EndAll(a.orders, at);
      Ok((a.(orders := orders), OrdersResponse(orders)))
    case QuoteRequest(_, tick) =>
      var touched := TouchAll(rules, a, tick);
      if touched.Err? then Err(touched.error)
      else Ok((touched.value, OrdersResponse(ReportedOf(a.orders, touched.value.orders, tick))))
  }

  /** The orders a quote reports, as it left them. */
  function ReportedOf(before: seq<Order>, after: seq<Order>, tick: Tick): seq<Order> {
    if before == [] || |after| != |before| then []
    else
      var n := |before| - 1;
      ReportedOf(before[..n], after[..n], tick) + if Reported(before[n], tick) then [after[n]] else []
  }

  datatype Outcome = Outcome(state: State, answer: Result<Response, Error>)

  /** `_event`: return a stored answer, refuse a conflicting retry, or apply and record. */
  function Event(rules: FillRules, st: State, id: EventId, request: Request): Outcome {
    if id.BlankId? then Outcome(st, Err(BlankEvent))
    else if id in st.log then
      if st.log[id].request != request then Outcome(st, Err(ConflictingRetry)) else Outcome(st, Ok(st.log[id].response))
    else if st.clock.Some? && request.at < st.clock.value then Outcome(st, Err(NotChronological))
    else
      var applied := Apply(rules, st.account, request);
      if applied.Err? then Outcome(st, Err(applied.error))
      else
        var (account, response) := applied.value;
        Outcome(State(account, Some(request.at), st.log[id := Logged(request, response)]), Ok(response))
  }

  // ---------------------------------------------------------------- what callers ask

  datatype Proposal = Proposal(id: string, instrument: Tradable, long: bool, signalAt: int, entry: real, stop: real, target: real)

  datatype Approval = Approval(approved: bool, proposalId: string, quantity: int, budget: real)

  /** The known session at the call's date, if any. */
  datatype Hours = Hours(opens: int, closes: int)

  function OrderFor(p: Proposal, risk: Approval, hours: Hours, at: int): Order {
    Order(p.id, p.instrument, p.long, risk.quantity, p.stop, p.target, risk.budget, at, hours.closes,
          Pending, AwaitingQuote, [], 0.0, 0.0, 0.0, 0.0, 0.0)
  }

  predicate ProposalShape(p: Proposal) {
    if p.long then p.stop < p.entry < p.target else p.target < p.entry < p.stop
  }

  datatype Command =
    | Submit(proposal: Proposal, risk: Approval, hours: Option<Hours>, at: int)
    | Cancel(id: string, at: int)
    | EndSession(at: int)
    | OnQuote(event: EventId, tick: Tick)

  function Execute(rules: FillRules, st: State, c: Command): Outcome {
    match c
    case Submit(p, risk, hours, at) =>
      if hours.None? || !(hours.value.opens <= at < hours.value.closes) then Outcome(st, Err(OutsideSession))
      else if !risk.approved || risk.proposalId != p.id || risk.quantity <= 0 || risk.quantity % p.instrument.lot != 0
              || p.signalAt > at then Outcome(st, Err(NotApproved))
      else if p.entry <= 0.0 || p.stop <= 0.0 || p.target <= 0.0 || risk.budget <= 0.0 then Outcome(st, Err(BadValues))
      else if !ProposalShape(p) then Outcome(st, Err(BadGeometry))
      else Event(rules, st, SubmitOf(p.id), SubmitRequest(at, OrderFor(p, risk, hours.value, at)))
    case Cancel(id, at) => Event(rules, st, CancelOf(id), CancelRequestFor(at, id))
    case EndSession(at) => Event(rules, st, SessionAt(at), SessionRequest(at))
    case OnQuote(event, tick) =>
      if !(0 <= tick.receivedAt - tick.quotedAt <= rules.maxAge * SECOND) then Outcome(st, Err(StaleQuote))
      else if tick.bid <= 0.0 || tick.ask <= 0.0 || tick.ask < tick.bid then Outcome(st, Err(BadQuote))
      else Event(rules, st, event, QuoteRequest(tick.receivedAt, tick))
  }

  function Run(rules: FillRules, st: State, cs: seq<Command>): State
    decreases |cs|
  {
    if cs == [] then st else Run(rules, Execute(rules, st, cs[0]).state, cs[1..])
  }

  function Initial(capital: real): State {
    State(Account(capital, 0.0, []), None, map[])
  }

  /** Cash plus live collateral at its mark. */
  function GrossAtMark(o: Order): real {
    (o.mark - o.entry) * o.quantity as real * Scale(o.long)
  }

  predicate Holding(o: Order) {
    o.status.Open? || o.status.ExitPending?
  }

  datatype Valuation = Valuation(equity: real, unrealized: real)

  /** `portfolio`: equity and unrealized P&L over the held orders. */
  function Portfolio(cash: real, orders: seq<Order>): Valuation {
    if orders == [] then Valuation(cash, 0.0)
    else
      var n := |orders| - 1;
      var before := Portfolio(cash, orders[..n]);
      if !Holding(orders[n]) then before
      else Valuation(before.equity + orders[n].collateral + GrossAtMark(orders[n]),
                     before.unrealized + GrossAtMark(orders[n]) - orders[n].entryFee)
  }
}
