/** The whole Bank Nifty desk: stored sessions, the call table and the event log, moved one
    locked transaction at a time by any number of workers (`BankNiftyService` over
    `BankNiftyStore` in `banknifty.py`). */
module Desk {
  import opened Common
  import opened Rounding
  import opened OptionsRisk
  import opened DeskSession
  import opened DeskLedger
  import CallLedger

  // ---------------------------------------------------------------- state

  /** The economic events of the log. An entry is kept with the snapshot recorded for its call. */
  datatype Event =
    | PaperEntry(day: int, position: Position, quote: Quote, snapshot: Snapshot)
    | PaperExit(day: int, fill: Fill)
    | PaperSettlement(day: int, positionId: nat, quantity: int, price: real, costs: real, pnl: real,
                      reference: string, closed: bool)

  datatype State = State(sessions: seq<Session>, calls: CallLedger.Table, events: seq<Event>)

  /** Row of the latest trading date. */
  function Latest(sessions: seq<Session>): (r: Option<nat>)
    ensures r.None? <==> sessions == []
    ensures r.Some? ==> r.value < |sessions| && forall i :: 0 <= i < |sessions| ==> sessions[i].day <= sessions[r.value].day
  {
    if sessions == [] then None
    else
      var n := |sessions| - 1;
      var before := Latest(sessions[..n]);
      if before.None? || sessions[before.value].day <= sessions[n].day then Some(n) else before
  }

  /** Insert or update by trading date. */
  function Save(sessions: seq<Session>, s: Session): seq<Session> {
    if sessions == [] then [s]
    else if sessions[0].day == s.day then [s] + sessions[1..]
    else [sessions[0]] + Save(sessions[1..], s)
  }

  // ---------------------------------------------------------------- starting

  /** Operator input, before validation. */
  datatype Requested = Requested(amount: real, lossPct: real, profitPct: real, profitCap: bool,
                                 stopPct: Option<real>, targetPct: Option<real>)

  predicate Decimals(x: real, unit: real)
    requires unit > 0.0
  {
    FloorTick(x, unit) == x
  }

  predicate LimitsAccepted(amount: real, lossPct: real, profitPct: real) {
    && 0.0 < amount <= 1_000_000.0 && 0.0 < lossPct <= 25.0 && 0.0 < profitPct <= 100.0
    && Decimals(amount, 0.01) && Decimals(lossPct, 0.0001) && Decimals(profitPct, 0.0001)
  }

  function ValidateLimits(r: Requested): Option<ApprovedLimits> {
    var stopPct := if r.stopPct.Some? then r.stopPct.value else r.lossPct;
    var targetPct := if r.targetPct.Some? then r.targetPct.value else r.profitPct;
    if LimitsAccepted(r.amount, r.lossPct, r.profitPct) && LimitsAccepted(r.amount, stopPct, targetPct)
    then Some(Limits(r.amount, r.lossPct, r.profitPct, stopPct, targetPct, r.profitCap))
    else None
  }

  datatype StartError = BadLimits | LimitsImmutable | PreviousUnreconciled | OutsideSession | NotConfigured | HaltActive

  predicate Resumable(s: Session, now: int) {
    s.state.Completed? && s.position.None? && s.entries == 0 && s.realized == 0.0 && s.resumes == 0
    && TimeOfDay(now) < 15 * HOUR
  }

  /** `start`: the session in force afterwards, or why none was started. `configured` covers the
      model key and the market feed. */
  function Started(sessions: seq<Session>, request: Requested, env: Env, configured: bool): Result<Session, StartError> {
    var limits := ValidateLimits(request);
    var today := DateOf(env.now);
    if limits.None? then Err(BadLimits)
    else
      var latest := Latest(sessions);
      if latest.Some? && sessions[latest.value].day == today then
        var old' := sessions[latest.value];
        if old'.limits != limits.value then Err(LimitsImmutable)
        else Ok(if Resumable(old', env.now) then old'.(state := Running, resumes := 1) else old')
      else if latest.Some? && (sessions[latest.value].position.Some? || !sessions[latest.value].state.Completed?)
      then Err(PreviousUnreconciled)
      else if today !in env.cal || TimeOfDay(env.now) >= 15 * HOUR then Err(OutsideSession)
      else if !env.enabled || !configured then Err(NotConfigured)
      else if env.halted then Err(HaltActive)
      else Ok(NewSession(today, limits.value))
  }

  // ---------------------------------------------------------------- transactions

  datatype Op =
    | Start(request: Requested, env: Env, configured: bool)
    | Stop
    | Monitor(env: Env, seen: Option<nat>, quote: Option<Quote>, underlying: Option<Sample>)
    | Advise(callId: nat, day: int)
    | Buy(callId: nat, purchase: Purchase, env: Env)
    | SettleExpired(positionId: nat, price: real, costs: real, reference: string, env: Env)
    | Reserve(halted: bool, clock: CallLedger.Clock, key: Option<CallLedger.EventKey>, scannedAt: Option<int>)
    | CallOp(op: CallLedger.Op)

  /** The recorded settlement of a position. */
  function SettlementOf(events: seq<Event>, id: nat): (r: Option<nat>)
    ensures r.Some? ==> r.value < |events| && events[r.value].PaperSettlement? && events[r.value].positionId == id
    ensures r.None? ==> forall i :: 0 <= i < |events| && events[i].PaperSettlement? ==> events[i].positionId != id
  {
    if events == [] then None
    else
      var n := |events| - 1;
      var before := SettlementOf(events[..n], id);
      if before.Some? then before
      else if events[n].PaperSettlement? && events[n].positionId == id then Some(n)
      else None
  }

  datatype SettlementAnswer = SettledNow | AlreadySettled | BadSettlementInput | DifferentEvidence | NoSuchPosition | NotExpired

  function AnswerSettlement(st: State, id: nat, price: real, costs: real, reference: string, now: int): SettlementAnswer {
    if price < 0.0 || costs < 0.0 || !(3 <= |reference| <= 500) then BadSettlementInput
    else
      var previous := SettlementOf(st.events, id);
      if previous.Some? then
        var e := st.events[previous.value];
        if e.price != price || e.costs != costs || e.reference != reference then DifferentEvidence else AlreadySettled
      else
        var latest := Latest(st.sessions);
        if latest.None? || st.sessions[latest.value].position.None? || st.sessions[latest.value].position.value.id != id
        then NoSuchPosition
        else if st.sessions[latest.value].position.value.contract.expiry >= DateOf(now) then NotExpired
        else SettledNow
  }

  function SettlementEvent(s: Session, p: Position, price: real, costs: real, reference: string): Event {
    PaperSettlement(s.day, p.id, p.quantity, price, costs, SettlementPnl(p, price, costs), reference, true)
  }

  /** Whether `_apply` gets past its session check: the latest session runs on the call's day. */
  predicate Accepting(st: State, day: int) {
    var latest := Latest(st.sessions);
    latest.Some? && st.sessions[latest.value].day == day && st.sessions[latest.value].state.Running?
  }

  function GateOf(sessions: seq<Session>): Option<CallLedger.Gate> {
    var latest := Latest(sessions);
    if latest.None? then None
    else Some(CallLedger.Gate(sessions[latest.value].state.Running?, sessions[latest.value].day))
  }

  function ApplyOp(callId: nat): CallLedger.Op {
    CallLedger.Apply(callId, true, true)
  }

  /** Whether the call still awaits application and its settled decision is, or is not, a BUY. */
  predicate Decided(calls: CallLedger.Table, callId: nat, buy: bool) {
    CallLedger.Applies(calls, ApplyOp(callId)) && (calls[callId].action == Some(CallLedger.Buy) <==> buy)
  }

  function AfterMonitor(st: State, s: Session, closing: Closing): State {
    st.(sessions := Save(st.sessions, closing.session),
        events := st.events + if closing.fill.Some? then [PaperExit(s.day, closing.fill.value)] else [])
  }

  function AfterEntry(st: State, callId: nat, request: Purchase, entered: Session): State
    requires entered.position.Some? && request.quote.Some?
  {
    State(Save(st.sessions, entered), CallLedger.Step(st.calls, ApplyOp(callId)),
          st.events + [PaperEntry(entered.day, entered.position.value, request.quote.value, request.snapshot)])
  }

  function Step(st: State, op: Op): State {
    var latest := Latest(st.sessions);
    match op
    case Start(request, env, configured) =>
      var started := Started(st.sessions, request, env, configured);
      if started.Ok? then st.(sessions := Save(st.sessions, started.value)) else st
    case Stop =>
      if latest.None? then st else st.(sessions := Save(st.sessions, Stopped(st.sessions[latest.value])))
    case Monitor(env, seen, quote, underlying) =>
      if latest.None? then st
      else AfterMonitor(st, st.sessions[latest.value], Monitored(st.sessions[latest.value], env, seen, quote, underlying))
    case Advise(callId, day) =>
      if Accepting(st, day) && Decided(st.calls, callId, false)
      then st.(calls := CallLedger.Step(st.calls, ApplyOp(callId))) else st
    case Buy(callId, purchase, env) =>
      if Accepting(st, purchase.snapshot.day) && Decided(st.calls, callId, true)
      then
        var entered := Entered(st.sessions[latest.value], callId, purchase, env);
        if entered.Ok? then AfterEntry(st, callId, purchase, entered.value) else st
      else st
    case SettleExpired(id, price, costs, reference, env) =>
      if AnswerSettlement(st, id, price, costs, reference, env.now).SettledNow?
      then
        var s := st.sessions[latest.value];
        var p := s.position.value;
        st.(sessions := Save(st.sessions, Settled(s, p, price, costs)),
            events := st.events + [SettlementEvent(s, p, price, costs, reference)])
      else st
    case Reserve(halted, clock, key, scannedAt) =>
      st.(calls := CallLedger.Step(st.calls, CallLedger.Reserve(GateOf(st.sessions), halted, clock, key, scannedAt)))
    case CallOp(op) =>
      if op.Apply? || op.Reserve? then st else st.(calls := CallLedger.Step(st.calls, op))
  }

  function Run(st: State, ops: seq<Op>): State
    decreases |ops|
  {
    if ops == [] then st else Run(Step(st, ops[0]), ops[1..])
  }

  const EMPTY: State := State([], [], [])

  // ---------------------------------------------------------------- what every run keeps

  function ExitsOn(events: seq<Event>, day: int): nat {
    if events == [] then 0
    else
      var last := events[|events| - 1];
      ExitsOn(events[..|events| - 1], day) + if last.PaperExit? && last.day == day then 1 else 0
  }

  ghost predicate DistinctDays(sessions: seq<Session>) {
    forall i, j :: 0 <= i < j < |sessions| ==> sessions[i].day != sessions[j].day
  }

  /** Every stored session's books are sound against the exits logged for it. */
  ghost predicate BooksSound(st: State) {
    forall i :: 0 <= i < |st.sessions| ==> Sound(st.sessions[i], ExitsOn(st.events, st.sessions[i].day))
  }

  /** Only the latest session can hold a position. */
  ghost predicate OthersFlat(sessions: seq<Session>) {
    forall i :: 0 <= i < |sessions| && sessions[i].position.Some? ==> Latest(sessions) == Some(i)
  }

  /** Each entry consumed its own call: entries have distinct, applied calls. */
  ghost predicate EntriesOwnCalls(st: State) {
    && (forall i :: 0 <= i < |st.events| && st.events[i].PaperEntry? ==>
          st.events[i].position.id < |st.calls| && st.calls[st.events[i].position.id].state.Applied?)
    && (forall i, j :: 0 <= i < j < |st.events| && st.events[i].PaperEntry? && st.events[j].PaperEntry? ==>
          st.events[i].position.id != st.events[j].position.id)
  }

  ghost predicate Valid(st: State) {
    && DistinctDays(st.sessions)
    && BooksSound(st)
    && OthersFlat(st.sessions)
    && CallLedger.Valid(st.calls)
    && EntriesOwnCalls(st)
  }

  /** The plans offered to the model came out of the sizing rule. */
  predicate WellFormed(op: Op) {
    op.Buy? ==> WholeLotPlan(op.purchase.snapshot)
  }

  lemma SaveUpdates(sessions: seq<Session>, i: nat, s: Session)
    requires i < |sessions| && sessions[i].day == s.day && DistinctDays(sessions)
    ensures Save(sessions, s) == sessions[i := s]
  {
    if i > 0 {
      SaveUpdates(sessions[1..], i - 1, s);
      assert sessions == [sessions[0]] + sessions[1..];
    }
  }

  lemma SaveAppends(sessions: seq<Session>, s: Session)
    requires forall i :: 0 <= i < |sessions| ==> sessions[i].day != s.day
    ensures Save(sessions, s) == sessions + [s]
  {
    if sessions != [] {
      SaveAppends(sessions[1..], s);
      assert sessions == [sessions[0]] + sessions[1..];
    }
  }

  lemma LatestByDays(a: seq<Session>, b: seq<Session>)
    requires |a| == |b| && forall i :: 0 <= i < |a| ==> a[i].day == b[i].day
    ensures Latest(a) == Latest(b)
  {
    if a != [] {
      LatestByDays(a[..|a| - 1], b[..|b| - 1]);
    }
  }

  lemma ExitsAppended(events: seq<Event>, e: Event, day: int)
    ensures ExitsOn(events + [e], day) == ExitsOn(events, day) + if e.PaperExit? && e.day == day then 1 else 0
  {
    assert (events + [e])[..|events|] == events;
  }

  ghost predicate ExitsGrow(before: seq<Event>, after: seq<Event>) {
    forall day :: ExitsOn(before, day) <= ExitsOn(after, day)
  }

  ghost predicate SessionsValid(sessions: seq<Session>, events: seq<Event>) {
    && DistinctDays(sessions)
    && (forall i :: 0 <= i < |sessions| ==> Sound(sessions[i], ExitsOn(events, sessions[i].day)))
    && OthersFlat(sessions)
  }

  /** Saving a new version of the latest session keeps the table of sessions valid. */
  lemma SavingLatest(sessions: seq<Session>, events: seq<Event>, s: Session, after: seq<Event>)
    requires SessionsValid(sessions, events) && ExitsGrow(events, after)
    requires Latest(sessions).Some? && s.day == sessions[Latest(sessions).value].day
    requires Sound(s, ExitsOn(after, s.day))
    ensures SessionsValid(Save(sessions, s), after)
    ensures Latest(Save(sessions, s)) == Latest(sessions) && Save(sessions, s) == sessions[Latest(sessions).value := s]
  {
    hide Sound;
    var l := Latest(sessions).value;
    SaveUpdates(sessions, l, s);
    LatestByDays(sessions, sessions[l := s]);
    var saved := sessions[l := s];
    forall i | 0 <= i < |saved| ensures Sound(saved[i], ExitsOn(after, saved[i].day)) {
      if i != l {
        SoundWeakens(sessions[i], ExitsOn(events, sessions[i].day), ExitsOn(after, sessions[i].day));
      }
    }
  }

  /** Saving a fresh session keeps it valid when every stored session is flat. */
  lemma SavingFresh(sessions: seq<Session>, events: seq<Event>, s: Session)
    requires SessionsValid(sessions, events) && Sound(s, ExitsOn(events, s.day)) && s.position.None?
    requires forall i :: 0 <= i < |sessions| ==> sessions[i].position.None?
    ensures SessionsValid(Save(sessions, s), events)
  {
    hide Sound, Save, Latest;
    if i: nat :| i < |sessions| && sessions[i].day == s.day {
      SaveUpdates(sessions, i, s);
    } else {
      SaveAppends(sessions, s);
    }
  }

  lemma CallStepKeepsEntries(st: State, op: CallLedger.Op)
    requires CallLedger.Valid(st.calls) && EntriesOwnCalls(st)
    ensures CallLedger.Valid(CallLedger.Step(st.calls, op))
    ensures EntriesOwnCalls(st.(calls := CallLedger.Step(st.calls, op)))
  {
    hide CallLedger.Valid;
    CallLedger.StepKeepsValid(st.calls, op);
    hide CallLedger.Step;
    var after := CallLedger.Step(st.calls, op);
    forall i | 0 <= i < |st.events| && st.events[i].PaperEntry?
      ensures st.events[i].position.id < |after| && after[st.events[i].position.id].state.Applied?
    {
      var id := st.events[i].position.id;
      assert CallLedger.Advances(st.calls[id], after[id]);
    }
  }

  lemma StartKeepsSessions(st: State, request: Requested, env: Env, configured: bool)
    requires SessionsValid(st.sessions, st.events)
    ensures SessionsValid(Step(st, Start(request, env, configured)).sessions, st.events)
  {
    hide ValidateLimits;
    var started := Started(st.sessions, request, env, configured);
    var latest := Latest(st.sessions);
    if started.Ok? {
      if latest.Some? && st.sessions[latest.value].day == DateOf(env.now) {
        SavingLatest(st.sessions, st.events, started.value, st.events);
      } else {
        hide DateOf, TimeOfDay;
        NewSessionSound(DateOf(env.now), ValidateLimits(request).value, ExitsOn(st.events, DateOf(env.now)));
        SavingFresh(st.sessions, st.events, started.value);
      }
    }
  }

  lemma MonitorKeepsSessions(st: State, env: Env, seen: Option<nat>, quote: Option<Quote>, underlying: Option<Sample>)
    requires SessionsValid(st.sessions, st.events)
    ensures
      var after := Step(st, Monitor(env, seen, quote, underlying));
      SessionsValid(after.sessions, after.events)
  {
    MonitorStep(st, env, seen, quote, underlying);
    hide Sound, Monitored, Save, SessionsValid, Latest, Step;
    var latest := Latest(st.sessions);
    if latest.Some? {
      var s := st.sessions[latest.value];
      LatestSound(st.sessions, st.events);
      MonitorKeepsSound(s, env, seen, quote, underlying, ExitsOn(st.events, s.day));
      MonitorKeepsDay(s, env, seen, quote, underlying);
      var closing := Monitored(s, env, seen, quote, underlying);
      if closing.fill.Some? {
        var e := PaperExit(s.day, closing.fill.value);
        forall day ensures ExitsOn(st.events, day) <= ExitsOn(st.events + [e], day) {
          ExitsAppended(st.events, e, day);
        }
        ExitsAppended(st.events, e, s.day);
        SavingLatest(st.sessions, st.events, closing.session, st.events + [e]);
      } else {
        assert st.events + [] == st.events;
        SavingLatest(st.sessions, st.events, closing.session, st.events);
      }
    }
  }

  lemma MonitorStep(st: State, env: Env, seen: Option<nat>, quote: Option<Quote>, underlying: Option<Sample>)
    ensures
      var latest, after := Latest(st.sessions), Step(st, Monitor(env, seen, quote, underlying));
      if latest.None? then after == st
      else
        var closing := Monitored(st.sessions[latest.value], env, seen, quote, underlying);
        && after.sessions == Save(st.sessions, closing.session)
        && after.events == st.events + if closing.fill.Some? then [PaperExit(st.sessions[latest.value].day, closing.fill.value)] else []
  {
    hide Monitored, Save, Latest;
  }

  lemma LatestSound(sessions: seq<Session>, events: seq<Event>)
    requires SessionsValid(sessions, events) && Latest(sessions).Some?
    ensures
      var s := sessions[Latest(sessions).value];
      Sound(s, ExitsOn(events, s.day))
  {
    hide Sound, Latest, ExitsOn;
  }

  lemma MonitorKeepsDay(s: Session, env: Env, seen: Option<nat>, quote: Option<Quote>, underlying: Option<Sample>)
    ensures Monitored(s, env, seen, quote, underlying).session.day == s.day
  {
    hide MustStop, MarkedPnl, MonitorReason, FillPrice, FillFor, Closable;
  }

  lemma BuyKeepsValid(st: State, callId: nat, purchase: Purchase, env: Env)
    requires Valid(st) && WholeLotPlan(purchase.snapshot)
    ensures Valid(Step(st, Op.Buy(callId, purchase, env)))
  {
    hide Sound, Entered, CallLedger.Valid, WholeLotPlan, Latest, Save, CallLedger.Step;
    var latest := Latest(st.sessions);
    if Accepting(st, purchase.snapshot.day) && Decided(st.calls, callId, true)
       && Entered(st.sessions[latest.value], callId, purchase, env).Ok?
    {
      var s := st.sessions[latest.value];
      EntryKeepsSound(s, callId, purchase, env, ExitsOn(st.events, s.day));
      EntryShape(s, callId, purchase, env);
      var entered := Entered(s, callId, purchase, env).value;
      var e := PaperEntry(entered.day, entered.position.value, purchase.quote.value, purchase.snapshot);
      forall day ensures ExitsOn(st.events + [e], day) == ExitsOn(st.events, day) {
        ExitsAppended(st.events, e, day);
      }
      SavingLatest(st.sessions, st.events, entered, st.events + [e]);
      EntryOwnsCall(st, callId, e);
    }
  }

  lemma EntryOwnsCall(st: State, callId: nat, e: Event)
    requires CallLedger.Valid(st.calls) && EntriesOwnCalls(st)
    requires CallLedger.Applies(st.calls, ApplyOp(callId)) && e.PaperEntry? && e.position.id == callId
    ensures
      var after := CallLedger.Step(st.calls, ApplyOp(callId));
      CallLedger.Valid(after) && EntriesOwnCalls(st.(calls := after, events := st.events + [e]))
  {
    hide CallLedger.Valid;
    CallStepKeepsEntries(st, ApplyOp(callId));
    forall i | 0 <= i < |st.events| && st.events[i].PaperEntry? ensures st.events[i].position.id != callId {
      assert st.calls[st.events[i].position.id].state.Applied?;
    }
  }

  lemma EntryShape(s: Session, callId: nat, purchase: Purchase, env: Env)
    requires Entered(s, callId, purchase, env).Ok?
    ensures
      var entered := Entered(s, callId, purchase, env).value;
      && s.position.None? && entered.position.Some? && entered.position.value.id == callId && entered.day == s.day
      && purchase.quote.Some?
      && entered.limits == s.limits && entered.realized == s.realized
  {
    hide ValidatePlan, SessionLimitReached, EntryWindow, FillPrice, EntryTotal;
  }

  lemma SettleKeepsSessions(st: State, id: nat, price: real, costs: real, reference: string, env: Env)
    requires SessionsValid(st.sessions, st.events)
    ensures
      var after := Step(st, SettleExpired(id, price, costs, reference, env));
      SessionsValid(after.sessions, after.events)
  {
    hide Sound, AnswerSettlement, Save;
    if AnswerSettlement(st, id, price, costs, reference, env.now).SettledNow? {
      SettledNowMeans(st, id, price, costs, reference, env.now);
      var s := st.sessions[Latest(st.sessions).value];
      var p := s.position.value;
      SettlementKeepsSound(s, price, costs, ExitsOn(st.events, s.day));
      var e := SettlementEvent(s, p, price, costs, reference);
      forall day ensures ExitsOn(st.events + [e], day) == ExitsOn(st.events, day) {
        ExitsAppended(st.events, e, day);
      }
      SavingLatest(st.sessions, st.events, Settled(s, p, price, costs), st.events + [e]);
    }
  }

  lemma StopKeepsSessions(st: State)
    requires SessionsValid(st.sessions, st.events)
    ensures SessionsValid(Step(st, Stop).sessions, st.events)
  {
    var latest := Latest(st.sessions);
    if latest.Some? {
      StoppedKeepsSound(st.sessions[latest.value], ExitsOn(st.events, st.sessions[latest.value].day));
      SavingLatest(st.sessions, st.events, Stopped(st.sessions[latest.value]), st.events);
    }
  }

  lemma StepKeepsValid(st: State, op: Op)
    requires Valid(st) && WellFormed(op)
    ensures Valid(Step(st, op))
  {
    hide Sound, Monitored, Entered, Started, CallLedger.Valid, AnswerSettlement, Settled, CallLedger.Step, WholeLotPlan;
    match op
    case Start(request, env, configured) => StartKeepsSessions(st, request, env, configured);
    case Stop => StopKeepsSessions(st);
    case Monitor(env, seen, quote, underlying) => MonitorKeepsSessions(st, env, seen, quote, underlying);
    case Advise(callId, day) => CallStepKeepsEntries(st, ApplyOp(callId));
    case Buy(callId, purchase, env) => BuyKeepsValid(st, callId, purchase, env);
    case SettleExpired(id, price, costs, reference, env) => SettleKeepsSessions(st, id, price, costs, reference, env);
    case Reserve(halted, clock, key, scannedAt) =>
      CallStepKeepsEntries(st, CallLedger.Reserve(GateOf(st.sessions), halted, clock, key, scannedAt));
    case CallOp(callOp) => CallStepKeepsEntries(st, callOp);
  }

  /** Over every interleaving of operators and workers, every stored session balances: its cash
      and open entry cost equal its capital and realized P&L up to half a unit in the eighth
      decimal per recorded exit; its position is positive whole lots; it entered at most ten
      times; completed sessions are flat; only the latest session holds a position; and every
      entry consumed an applied call of its own. */
  lemma {:induction false} RunKeepsValid(st: State, ops: seq<Op>)
    requires Valid(st) && forall i :: 0 <= i < |ops| ==> WellFormed(ops[i])
    ensures Valid(Run(st, ops))
    decreases |ops|
  {
    hide Valid, Step, WellFormed;
    if ops != [] {
      StepKeepsValid(st, ops[0]);
      RunKeepsValid(Step(st, ops[0]), ops[1..]);
    }
  }

  lemma EmptyIsValid()
    ensures Valid(EMPTY)
  {
    CallLedger.EmptyIsValid();
  }

  /** The ledger in every reachable state: cash and remaining entry cost are the capital and the
      realized P&L, give or take the quantizing of each recorded exit; an open position is positive
      whole lots; at most ten entries; a completed session is flat; the calls stay in budget. */
  lemma BooksBalance(ops: seq<Op>, i: nat, day: int)
    requires forall j :: 0 <= j < |ops| ==> WellFormed(ops[j])
    requires i < |Run(EMPTY, ops).sessions|
    ensures
      var st := Run(EMPTY, ops);
      var s := st.sessions[i];
      var remaining := if s.position.Some? then s.position.value.costRemaining else 0.0;
      && Abs(s.cash + remaining - (s.limits.amount + s.realized)) <= ExitsOn(st.events, s.day) as real * HALF_UNIT
      && (s.position.Some? ==> s.position.value.quantity > 0 && s.position.value.quantity % s.position.value.contract.lot == 0)
      && s.entries <= 10
      && (s.state.Completed? ==> s.position.None?)
      && CallLedger.RollingSpent(st.calls, day) <= 50.0
  {
    hide Run, ExitsOn, CallLedger.RollingSpent;
    EmptyIsValid();
    RunKeepsValid(EMPTY, ops);
    var st := Run(EMPTY, ops);
    assert Sound(st.sessions[i], ExitsOn(st.events, st.sessions[i].day));
    SpendInBudget(st.calls, day);
  }

  lemma SpendInBudget(calls: CallLedger.Table, day: int)
    requires CallLedger.Valid(calls)
    ensures CallLedger.RollingSpent(calls, day) <= 50.0
  {
    hide CallLedger.RollingSpent;
  }

  lemma SettledFlat(s: Session, p: Position, price: real, costs: real)
    ensures Settled(s, p, price, costs).day == s.day && Settled(s, p, price, costs).position.None?
  {
  }

  lemma SettledNowMeans(st: State, id: nat, price: real, costs: real, reference: string, now: int)
    requires AnswerSettlement(st, id, price, costs, reference, now).SettledNow?
    ensures Latest(st.sessions).Some? && st.sessions[Latest(st.sessions).value].position.Some?
    ensures st.sessions[Latest(st.sessions).value].position.value.id == id
  {
  }

  lemma SettleStep(st: State, id: nat, price: real, costs: real, reference: string, env: Env)
    ensures
      var after := Step(st, Op.SettleExpired(id, price, costs, reference, env));
      if !AnswerSettlement(st, id, price, costs, reference, env.now).SettledNow? then after == st
      else
        var latest := Latest(st.sessions);
        && latest.Some? && st.sessions[latest.value].position.Some?
        && var s := st.sessions[latest.value];
           var p := s.position.value;
           after == State(Save(st.sessions, Settled(s, p, price, costs)), st.calls,
                          st.events + [SettlementEvent(s, p, price, costs, reference)])
  {
    hide AnswerSettlement, Save, Settled;
    if AnswerSettlement(st, id, price, costs, reference, env.now).SettledNow? {
      SettledNowMeans(st, id, price, costs, reference, env.now);
    }
  }

  // ---------------------------------------------------------------- the service

  class Service {
    var sessions: seq<Session>
    var events: seq<Event>
    const store: CallLedger.CallStore

    ghost function Model(): State
      reads this, store
    {
      State(sessions, store.calls, events)
    }

    ghost predicate Sound()
      reads this, store
    {
      Valid(Model())
    }

    constructor ()
      ensures Sound() && Model() == EMPTY && fresh(store)
    {
      EmptyIsValid();
      sessions, events := [], [];
      store := new CallLedger.CallStore();
    }

    /** Open today's session, resume it once, or return it unchanged. */
    method Start(request: Requested, env: Env, configured: bool) returns (r: Result<Session, StartError>)
      requires Sound()
      modifies this
      ensures Model() == Step(old(Model()), Op.Start(request, env, configured))
      ensures r == Started(old(sessions), request, env, configured)
      ensures Sound()
    {
      StepKeepsValid(Model(), Op.Start(request, env, configured));
      hide Valid;
      var limits := ValidateLimits(request);
      if limits.None? {
        return Err(BadLimits);
      }
      var today := DateOf(env.now);
      var latest := Latest(sessions);
      if latest.Some? && sessions[latest.value].day == today {
        var current := sessions[latest.value];
        if current.limits != limits.value {
          return Err(LimitsImmutable);
        }
        if Resumable(current, env.now) {
          current := current.(state := Running);
          current := current.(resumes := 1);
        }
        sessions := Save(sessions, current);
        return Ok(current);
      }
      if latest.Some? && (sessions[latest.value].position.Some? || !sessions[latest.value].state.Completed?) {
        return Err(PreviousUnreconciled);
      }
      if today !in env.cal || TimeOfDay(env.now) >= 15 * HOUR {
        return Err(OutsideSession);
      }
      if !env.enabled || !configured {
        return Err(NotConfigured);
      }
      if env.halted {
        return Err(HaltActive);
      }
      var s := NewSession(today, limits.value);
      sessions := Save(sessions, s);
      r := Ok(s);
    }

    method Stop()
      requires Sound()
      modifies this
      ensures Model() == Step(old(Model()), Op.Stop)
      ensures Sound()
    {
      StepKeepsValid(Model(), Op.Stop);
      hide Valid;
      var latest := Latest(sessions);
      if latest.Some? {
        var s := sessions[latest.value];
        if !s.state.Completed? {
          s := s.(state := if s.position.Some? then Stopping else Completed);
        }
        sessions := Save(sessions, s);
      }
    }

    /** `_close`: sell what the bid takes, move the books, log the exit. */
    method Close(s: Session, quote: Option<Quote>, reason: ExitReason, now: int, cal: Calendar) returns (after: Session,
        sold: bool)
      modifies this`events
      ensures
        var closing := Closed(s, quote, reason, now, cal);
        && after == closing.session && sold == closing.fill.Some?
        && events == old(events) + if closing.fill.Some? then [PaperExit(s.day, closing.fill.value)] else []
    {
      after, sold := s, false;
      if s.position.None? || !MarketWindow(cal, now) || !Fresh(quote, now) {
        return;
      }
      var p := s.position.value;
      if p.contract.expiry < DateOf(now) || p.lastExitQuote == Some(quote.value.stamp) {
        return;
      }
      var quantity := ExitQuantity(p, quote.value);
      if quantity <= 0 {
        return;
      }
      var price := FillPrice(quote.value, p.contract, false);
      if price <= 0.0 {
        return;
      }
      var proceeds := Proceeds(price, quantity as real);
      var basis := ExitBasis(p, quantity);
      after := after.(cash := after.cash + proceeds);
      var realized := Quantize8(proceeds - basis);
      after := after.(realized := after.realized + realized);
      var left := p.(costRemaining := p.costRemaining - basis);
      left := left.(quantity := left.quantity - quantity, lastExitQuote := Some(quote.value.stamp));
      var fill := Fill(p.id, quantity, price, reason, realized, quote.value, left.quantity == 0, now);
      events := events + [PaperExit(s.day, fill)];
      if left.quantity == 0 {
        after := after.(position := None, lastExit := Some(now), pnl := after.realized);
        if after.state.Stopping? {
          after := after.(state := Completed);
        }
      } else {
        after := after.(position := Some(left.(exitPending := Some(reason))));
      }
      sold := true;
    }

    /** The locked half of `_monitor`. */
    method Monitor(env: Env, seen: Option<nat>, quote: Option<Quote>, underlying: Option<Sample>)
      requires Sound()
      modifies this
      ensures Model() == Step(old(Model()), Op.Monitor(env, seen, quote, underlying))
      ensures Sound()
    {
      StepKeepsValid(Model(), Op.Monitor(env, seen, quote, underlying));
      MonitorStep(Model(), env, seen, quote, underlying);
      hide Valid, Step, Closed, FillPrice, MarkedPnl, PositionReason, SessionLimitReached, Save, Latest, EndOfDay, Fresh;
      var latest := Latest(sessions);
      if latest.None? {
        return;
      }
      var s := sessions[latest.value];
      ghost var was := s;
      var sold := false;
      if !s.state.Completed? {
        if EndOfDay(s.day, env.now) {
          s := s.(state := Stopping);
        }
        if !env.enabled || env.halted {
          s := s.(state := Stopping);
        }
        if s.position.Some? && seen == Some(s.position.value.id) && Fresh(quote, env.now) {
          var p := s.position.value;
          var price := FillPrice(quote.value, p.contract, false);
          s := s.(pnl := MarkedPnl(s, p, price));
          var limitHit := SessionLimitReached(s.limits, s.pnl);
          var reason := if s.state.Stopping? || limitHit then Some(SessionStop)
                        else PositionReason(p, price, underlying, env.now);
          if reason.Some? {
            s, sold := Close(s, quote, reason.value, env.now, env.cal);
          }
        }
        if s.position.None? {
          s := s.(pnl := s.realized);
          if s.state.Stopping? {
            s := s.(state := Completed);
          }
        }
      }
      assert s == Monitored(was, env, seen, quote, underlying).session;
      sessions := Save(sessions, s);
    }

    /** A HOLD or EXIT decision claims its call and moves no money. */
    method Advise(callId: nat, day: int)
      requires Sound()
      modifies store
      ensures Model() == Step(old(Model()), Op.Advise(callId, day))
      ensures Sound()
    {
      StepKeepsValid(Model(), Op.Advise(callId, day));
      if Accepting(State(sessions, store.calls, events), day) && Decided(store.calls, callId, false) {
        var claimed := store.Claim(callId);
      }
    }

    /** A BUY decision: claim the call, then open the position or roll the claim back. */
    method Buy(callId: nat, purchase: Purchase, env: Env) returns (refusal: Option<EntryError>)
      requires Sound() && WholeLotPlan(purchase.snapshot)
      modifies this, store
      ensures Model() == Step(old(Model()), Op.Buy(callId, purchase, env))
      ensures refusal.Some? ==> Model() == old(Model())
      ensures Sound()
    {
      StepKeepsValid(Model(), Op.Buy(callId, purchase, env));
      ghost var before := Model();
      refusal := None;
      if !Accepting(State(sessions, store.calls, events), purchase.snapshot.day) || !Decided(store.calls, callId, true) {
        return;
      }
      var saved := store.calls;
      var claimed := store.Claim(callId);
      hide Valid, CallLedger.Valid, Entered, CallLedger.Step;
      var s := sessions[Latest(sessions).value];
      var entered := Enter(s, callId, purchase, env);
      if entered.Err? {
        store.calls := saved;
        return Some(entered.error);
      }
      EntryShape(s, callId, purchase, env);
      sessions := Save(sessions, entered.value);
      events := events + [PaperEntry(s.day, entered.value.position.value, purchase.quote.value, purchase.snapshot)];
    }

    /** The entry checks and bookkeeping of `_apply`, branch by branch. */
    method Enter(s: Session, callId: nat, purchase: Purchase, env: Env) returns (r: Result<Session, EntryError>)
      ensures r == Entered(s, callId, purchase, env)
    {
      hide ValidatePlan, ExitLevelsFor, FillPrice, EntryTotal, SessionLimitReached, EntryWindow;
      if s.position.Some? || !EntryWindow(env.cal, env.now) || env.halted || !env.enabled
         || s.entries >= ENTRY_CAP || !purchase.strategyNamed {
        return Err(SessionBlocksEntry);
      }
      if s.lastExit.Some? && env.now - s.lastExit.value < COOLDOWN {
        return Err(Cooldown);
      }
      if !Fresh(purchase.quote, env.now) || !(0 <= env.now - purchase.snapshot.spotAt <= 180 * SECOND) {
        return Err(StaleInputs);
      }
      if SessionLimitReached(s.limits, s.realized) {
        return Err(SessionLimit);
      }
      var contract := purchase.snapshot.contract;
      if contract.expiry <= s.day {
        return Err(ExpiryDay);
      }
      if !purchase.chartSetup {
        return Err(NoChartSetup);
      }
      if !purchase.calendarClear {
        return Err(CalendarBlocked);
      }
      var levels := ValidatePlan(purchase.snapshot, s.limits, s.cash, s.realized, purchase.quote.value, env.now);
      if levels.Err? {
        return Err(levels.error);
      }
      var plan := purchase.snapshot.plan;
      var fill := FillPrice(purchase.quote.value, contract, true);
      var cost := EntryTotal(fill, plan.quantity as real);
      var after := s.(cash := s.cash - cost);
      after := after.(position := Some(
        Position(callId, contract, plan.quantity, fill, cost, levels.value.stop, levels.value.target, env.now,
                 env.now + levels.value.maxHold * MINUTE, plan, None, None)));
      after := after.(entries := after.entries + 1);
      r := Ok(after);
    }

    /** Record operator-attested settlement of an expired residual, once. */
    method SettleExpired(id: nat, price: real, costs: real, reference: string, env: Env) returns (answer: SettlementAnswer)
      requires Sound()
      modifies this
      ensures Model() == Step(old(Model()), Op.SettleExpired(id, price, costs, reference, env))
      ensures answer == AnswerSettlement(old(Model()), id, price, costs, reference, env.now)
      ensures Sound()
    {
      StepKeepsValid(Model(), Op.SettleExpired(id, price, costs, reference, env));
      SettleStep(Model(), id, price, costs, reference, env);
      hide Valid, AnswerSettlement, Save, Latest, Step, Settled, SettlementPnl;
      answer := AnswerSettlement(State(sessions, store.calls, events), id, price, costs, reference, env.now);
      if answer.SettledNow? {
        var s := sessions[Latest(sessions).value];
        var p := s.position.value;
        var pnl;
        s, pnl := Settle(s, p, price, costs);
        events := events + [PaperSettlement(s.day, p.id, p.quantity, price, costs, pnl, reference, true)];
        sessions := Save(sessions, s);
      }
    }

    /** The session's books after settlement, field by field. */
    static method Settle(was: Session, p: Position, price: real, costs: real) returns (s: Session, pnl: real)
      ensures s == Settled(was, p, price, costs) && s.day == was.day
      ensures pnl == SettlementPnl(p, price, costs)
    {
      s := was;
      var proceeds := SettlementNet(p, price, costs);
      pnl := proceeds - p.costRemaining;
      s := s.(cash := s.cash + proceeds);
      s := s.(realized := s.realized + pnl);
      s := s.(pnl := s.realized, position := None, state := Completed);
    }

    /** Reserve a paid call for the latest session. */
    method Reserve(halted: bool, clock: CallLedger.Clock, key: Option<CallLedger.EventKey>, scannedAt: Option<int>)
      returns (id: Option<nat>)
      requires Sound()
      modifies store
      ensures Model() == Step(old(Model()), Op.Reserve(halted, clock, key, scannedAt))
      ensures id == if CallLedger.Admits(old(store.calls), GateOf(sessions), halted, clock, key)
                    then Some(|old(store.calls)|) else None
      ensures Sound()
    {
      StepKeepsValid(Model(), Op.Reserve(halted, clock, key, scannedAt));
      id := store.Reserve(GateOf(sessions), halted, clock, key, scannedAt);
    }
  }
}
