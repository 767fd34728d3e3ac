/** Paid model calls: reservation under the desk lock, settlement, application, rejection and
    the recovery of abandoned calls (`BankNiftyStore.reserve`, `settle`,
    `reconcile_interrupted_calls`, the compare-and-set in `_apply` and `run_once`, and
    `reconsider_event` in `options_policy.py`).

    A row's identifier is its position in the table, which stands for the fresh UUID each
    insertion draws. Every operation is one transaction. */
module CallLedger {
  import opened Common

  const RECONSIDER: int := 120 * SECOND
  const SLOT: int := 120 * SECOND
  const MAX_EVENT_ATTEMPTS: nat := 3
  const RESERVATION: real := 0.2
  const DAILY_BUDGET: real := 5.0
  const ROLLING_BUDGET: real := 50.0
  const BUDGET_DAYS: int := 30

  datatype CallState = Reserved | Completed | Failed | Applied | Rejected | Interrupted

  datatype Action = Hold | Buy | Exit

  /** The two kinds of material change that may pay for a call. */
  datatype EventKind = PlanSetChanged | PositionRiskBand

  /** The digest covers the kind's own material, so the kind travels with the key. */
  datatype EventKey = EventKey(kind: EventKind, digest: int)

  datatype Call = Call(day: int, slot: int, createdAt: int, state: CallState, charge: real,
                       key: Option<EventKey>, scannedAt: Option<int>, action: Option<Action>)

  type Table = seq<Call>

  predicate InFlight(state: CallState) {
    state.Reserved? || state.Completed?
  }

  predicate SameEvent(c: Call, day: int, key: EventKey) {
    c.day == day && c.key == Some(key)
  }

  // ---------------------------------------------------------------- queries

  /** Sum of charges over calls dated in `[from, to]`. */
  function Spent(calls: Table, from: int, to: int): real {
    if calls == [] then 0.0
    else
      var last := calls[|calls| - 1];
      Spent(calls[..|calls| - 1], from, to) + if from <= last.day <= to then last.charge else 0.0
  }

  /** Sum of charges over calls dated `from` or later, whatever their date. */
  function SpentSince(calls: Table, from: int): real {
    if calls == [] then 0.0
    else
      var last := calls[|calls| - 1];
      SpentSince(calls[..|calls| - 1], from) + if from <= last.day then last.charge else 0.0
  }

  function Attempts(calls: Table, day: int, key: EventKey): nat {
    if calls == [] then 0
    else Attempts(calls[..|calls| - 1], day, key) + if SameEvent(calls[|calls| - 1], day, key) then 1 else 0
  }

  /** The attempt with the latest creation time. */
  function Newest(calls: Table, day: int, key: EventKey): (r: Option<nat>)
    ensures r.None? <==> Attempts(calls, day, key) == 0
    ensures r.Some? ==> r.value < |calls| && SameEvent(calls[r.value], day, key)
    ensures r.Some? ==> forall i :: 0 <= i < |calls| && SameEvent(calls[i], day, key) ==>
                          calls[i].createdAt <= calls[r.value].createdAt
    ensures r.None? ==> forall i :: 0 <= i < |calls| ==> !SameEvent(calls[i], day, key)
  {
    if calls == [] then None
    else
      var n := |calls| - 1;
      var before := Newest(calls[..n], day, key);
      if SameEvent(calls[n], day, key) && (before.None? || calls[before.value].createdAt <= calls[n].createdAt)
      then Some(n) else before
  }

  /** A call of the day whose slot lies below the bound, if there is one. */
  predicate OfDay(c: Call, day: int, bound: Option<int>) {
    c.day == day && (bound.None? || c.slot < bound.value)
  }

  /** The call of a day with the highest slot below `bound`. */
  function HighestSlot(calls: Table, day: int, bound: Option<int>): (r: Option<nat>)
    ensures r.None? ==> forall i :: 0 <= i < |calls| ==> !OfDay(calls[i], day, bound)
    ensures r.Some? ==> r.value < |calls| && OfDay(calls[r.value], day, bound)
    ensures r.Some? ==> forall i :: 0 <= i < |calls| && OfDay(calls[i], day, bound) ==> calls[i].slot <= calls[r.value].slot
  {
    if calls == [] then None
    else
      var n := |calls| - 1;
      var before := HighestSlot(calls[..n], day, bound);
      if OfDay(calls[n], day, bound) && (before.None? || calls[before.value].slot < calls[n].slot)
      then Some(n) else before
  }

  /** Three latest calls of the day all failed and the latest scan is under 15 minutes old. */
  predicate CircuitOpen(calls: Table, day: int, now: int) {
    var first := HighestSlot(calls, day, None);
    first.Some? &&
    var second := HighestSlot(calls, day, Some(calls[first.value].slot));
    second.Some? &&
    var third := HighestSlot(calls, day, Some(calls[second.value].slot));
    third.Some? &&
    calls[first.value].state.Failed? && calls[second.value].state.Failed? && calls[third.value].state.Failed? &&
    calls[first.value].scannedAt.Some? && now < calls[first.value].scannedAt.value + 15 * MINUTE
  }

  /** `reconsider_event`: whether one more attempt at this event is due. */
  predicate AttemptDue(calls: Table, day: int, key: EventKey, now: int) {
    var newest := Newest(calls, day, key);
    newest.None? || (
      var last := calls[newest.value];
      && Attempts(calls, day, key) < MAX_EVENT_ATTEMPTS
      && (last.state.Failed? || last.state.Interrupted? || last.state.Rejected?
          || (last.state.Applied? && last.action == Some(Hold) && key.kind.PlanSetChanged?))
      && last.createdAt + RECONSIDER <= now)
  }

  predicate SlotTaken(calls: Table, slot: int) {
    exists i :: 0 <= i < |calls| && calls[i].slot == slot
  }

  /** Conservative accounting of one response, or nothing when it exceeds the reservation. */
  function ParseUsage(incoming: int, outgoing: int): (charge: Option<real>)
    ensures charge.Some? ==> 0.0 <= charge.value <= RESERVATION
    ensures charge.Some? <==> incoming >= 0 && outgoing >= 0 && 5 * incoming + 30 * outgoing <= 200_000
    ensures charge.Some? ==> charge.value * 1_000_000.0 == 5.0 * incoming as real + 30.0 * outgoing as real
  {
    if incoming < 0 || outgoing < 0 then None
    else
      var cost := (incoming as real * 5.0 + outgoing as real * 30.0) / 1_000_000.0;
      if cost > RESERVATION then None else Some(cost)
  }

  // ---------------------------------------------------------------- transactions

  /** A session as reservation sees it: its day and whether it is running. */
  datatype Gate = Gate(running: bool, day: int)

  /** Where the wall clock stands: an instant and its exchange date. */
  datatype Clock = Clock(now: int, date: int)

  function SlotOf(now: int): int {
    now / SLOT
  }

  predicate Admits(calls: Table, gate: Option<Gate>, halted: bool, clock: Clock, key: Option<EventKey>) {
    && gate.Some? && gate.value.running && gate.value.day == clock.date
    && !halted
    && (key.Some? ==> AttemptDue(calls, clock.date, key.value, clock.now))
    && !CircuitOpen(calls, clock.date, clock.now)
    && SpentSince(calls, clock.date - (BUDGET_DAYS - 1)) + RESERVATION <= ROLLING_BUDGET
    && Spent(calls, clock.date, clock.date) + RESERVATION <= DAILY_BUDGET
    && !SlotTaken(calls, SlotOf(clock.now))
  }

  function NewCall(clock: Clock, key: Option<EventKey>, scannedAt: Option<int>): Call {
    Call(clock.date, SlotOf(clock.now), clock.now, Reserved, RESERVATION, key, scannedAt, None)
  }

  function AfterReserve(calls: Table, gate: Option<Gate>, halted: bool, clock: Clock,
                        key: Option<EventKey>, scannedAt: Option<int>): Table
  {
    if Admits(calls, gate, halted, clock, key) then calls + [NewCall(clock, key, scannedAt)] else calls
  }

  function SettledResponse(c: Call, incoming: int, outgoing: int, action: Action): Call {
    var charge := ParseUsage(incoming, outgoing);
    if charge.None? then c.(state := Failed, charge := RESERVATION)
    else c.(state := Completed, charge := charge.value, action := Some(action))
  }

  function SettledFailure(c: Call, dispatched: bool): Call {
    c.(state := Failed, charge := if dispatched then RESERVATION else 0.0)
  }

  /** One transaction over the call table. `Apply` carries whether its session gate matched and
      whether the entry checks accepted: a refused entry rolls the transaction back. */
  datatype Op =
    | Reserve(gate: Option<Gate>, halted: bool, clock: Clock, key: Option<EventKey>, scannedAt: Option<int>)
    | SettleResponse(id: nat, incoming: int, outgoing: int, action: Action)
    | SettleFailure(id: nat, dispatched: bool)
    | Apply(id: nat, gateMatches: bool, accepted: bool)
    | Reject(id: nat)
    | Reconcile(now: int)

  function ReconcileOne(c: Call, now: int): Call {
    if InFlight(c.state) && c.createdAt < now - 10 * MINUTE then c.(state := Interrupted) else c
  }

  predicate Applies(calls: Table, op: Op) {
    op.Apply? && op.gateMatches && op.accepted && op.id < |calls| && calls[op.id].state.Completed?
  }

  function Step(calls: Table, op: Op): Table {
    match op
    case Reserve(gate, halted, clock, key, scannedAt) => AfterReserve(calls, gate, halted, clock, key, scannedAt)
    case SettleResponse(id, incoming, outgoing, action) =>
      if id < |calls| && calls[id].state.Reserved?
      then calls[id := SettledResponse(calls[id], incoming, outgoing, action)] else calls
    case SettleFailure(id, dispatched) =>
      if id < |calls| && calls[id].state.Reserved? then calls[id := SettledFailure(calls[id], dispatched)] else calls
    case Apply(id, _, _) =>
      if Applies(calls, op) then calls[id := calls[id].(state := Applied)] else calls
    case Reject(id) =>
      if id < |calls| && calls[id].state.Completed? then calls[id := calls[id].(state := Rejected)] else calls
    case Reconcile(now) => seq(|calls|, i requires 0 <= i < |calls| => ReconcileOne(calls[i], now))
  }

  function Run(calls: Table, ops: seq<Op>): Table
    decreases |ops|
  {
    if ops == [] then calls else Run(Step(calls, ops[0]), ops[1..])
  }

  // ---------------------------------------------------------------- what every run keeps

  /** Charges dated in the thirty days ending with `day`. */
  function RollingSpent(calls: Table, day: int): real {
    Spent(calls, day - (BUDGET_DAYS - 1), day)
  }

  ghost predicate WithinBudget(calls: Table) {
    && (forall day :: RollingSpent(calls, day) <= ROLLING_BUDGET)
    && (forall day :: Spent(calls, day, day) <= DAILY_BUDGET)
  }

  /** Whether an earlier attempt leaves room for another one at the same event. */
  predicate LeavesRoom(c: Call) {
    && !InFlight(c.state)
    && (c.state.Applied? ==> c.action == Some(Hold) && c.key.Some? && c.key.value.kind.PlanSetChanged?)
  }

  ghost predicate EventsBounded(calls: Table) {
    && (forall day, key :: Attempts(calls, day, key) <= MAX_EVENT_ATTEMPTS)
    && (forall i, j :: 0 <= i < j < |calls| && calls[i].key.Some? && SameEvent(calls[j], calls[i].day, calls[i].key.value)
          ==> calls[i].createdAt + RECONSIDER <= calls[j].createdAt && LeavesRoom(calls[i]))
  }

  predicate RowValid(c: Call) {
    && 0.0 <= c.charge <= RESERVATION
    && (c.state.Reserved? ==> c.charge == RESERVATION)
    && (c.state.Applied? || c.state.Completed? ==> c.action.Some?)
  }

  ghost predicate Valid(calls: Table) {
    && (forall i :: 0 <= i < |calls| ==> RowValid(calls[i]))
    && (forall i, j :: 0 <= i < j < |calls| ==> calls[i].slot != calls[j].slot)
    && WithinBudget(calls)
    && EventsBounded(calls)
  }

  /** How one row may change: its identity is fixed, its charge only falls, and its state only
      moves along the protocol, so a finished row never changes again. */
  predicate Advances(old': Call, new': Call) {
    && new'.day == old'.day && new'.slot == old'.slot && new'.createdAt == old'.createdAt
    && new'.key == old'.key && new'.scannedAt == old'.scannedAt
    && new'.charge <= old'.charge
    && (old'.state.Completed? ==> !new'.state.Reserved? && !new'.state.Failed?)
    && (!old'.state.Reserved? ==> new'.charge == old'.charge && new'.action == old'.action)
    && (!InFlight(old'.state) ==> new' == old')
  }

  ghost predicate TableAdvances(before: Table, after: Table) {
    |before| <= |after| && forall i :: 0 <= i < |before| ==> Advances(before[i], after[i])
  }

  lemma SpentPointwise(a: Table, b: Table, from: int, to: int)
    requires |a| == |b| && forall i :: 0 <= i < |a| ==> b[i].day == a[i].day && b[i].charge <= a[i].charge
    ensures Spent(b, from, to) <= Spent(a, from, to)
  {
    if a != [] {
      SpentPointwise(a[..|a| - 1], b[..|b| - 1], from, to);
    }
  }

  lemma AttemptsPointwise(a: Table, b: Table, day: int, key: EventKey)
    requires |a| == |b| && forall i :: 0 <= i < |a| ==> b[i].day == a[i].day && b[i].key == a[i].key
    ensures Attempts(b, day, key) == Attempts(a, day, key)
  {
    if a != [] {
      AttemptsPointwise(a[..|a| - 1], b[..|b| - 1], day, key);
    }
  }

  /** A window that contains day `from` spends no more than everything since `from - reach`. */
  lemma WindowWithinSince(calls: Table, from: int, lower: int, to: int)
    requires from <= lower && forall i :: 0 <= i < |calls| ==> calls[i].charge >= 0.0
    ensures Spent(calls, lower, to) <= SpentSince(calls, from)
  {
    if calls != [] {
      WindowWithinSince(calls[..|calls| - 1], from, lower, to);
    }
  }

  /** Any step that only advances rows keeps a valid table valid. */
  lemma AdvanceKeepsValid(before: Table, after: Table)
    requires Valid(before) && TableAdvances(before, after) && |before| == |after|
    requires forall i :: 0 <= i < |after| ==> RowValid(after[i])
    ensures Valid(after)
  {
    forall day ensures RollingSpent(after, day) <= ROLLING_BUDGET && Spent(after, day, day) <= DAILY_BUDGET {
      assert RollingSpent(before, day) <= ROLLING_BUDGET;
      SpentPointwise(before, after, day - (BUDGET_DAYS - 1), day);
      SpentPointwise(before, after, day, day);
    }
    forall day, key ensures Attempts(after, day, key) <= MAX_EVENT_ATTEMPTS {
      AttemptsPointwise(before, after, day, key);
    }
    forall i, j | 0 <= i < j < |after| && after[i].key.Some? && SameEvent(after[j], after[i].day, after[i].key.value)
      ensures after[i].createdAt + RECONSIDER <= after[j].createdAt && LeavesRoom(after[i])
    {
      assert Advances(before[i], after[i]) && Advances(before[j], after[j]);
      assert SameEvent(before[j], before[i].day, before[i].key.value);
    }
  }

  /** An admitted reservation fits the daily and the rolling budget of every window it falls in. */
  lemma ReserveKeepsBudget(calls: Table, gate: Option<Gate>, halted: bool, clock: Clock,
                           key: Option<EventKey>, scannedAt: Option<int>)
    requires Valid(calls) && Admits(calls, gate, halted, clock, key)
    ensures WithinBudget(calls + [NewCall(clock, key, scannedAt)])
  {
    hide Spent, SpentSince, CircuitOpen, AttemptDue, SlotTaken, EventsBounded;
    var call := NewCall(clock, key, scannedAt);
    forall day ensures RollingSpent(calls + [call], day) <= ROLLING_BUDGET && Spent(calls + [call], day, day) <= DAILY_BUDGET {
      assert RollingSpent(calls, day) <= ROLLING_BUDGET && Spent(calls, day, day) <= DAILY_BUDGET;
      SpentAppended(calls, call, day - (BUDGET_DAYS - 1), day);
      SpentAppended(calls, call, day, day);
      if clock.date <= day {
        WindowWithinSince(calls, clock.date - (BUDGET_DAYS - 1), day - (BUDGET_DAYS - 1), day);
      }
    }
  }

  lemma SpentAppended(calls: Table, call: Call, from: int, to: int)
    ensures Spent(calls + [call], from, to) == Spent(calls, from, to) + if from <= call.day <= to then call.charge else 0.0
  {
    assert (calls + [call])[..|calls|] == calls;
  }

  lemma ReserveKeepsEvents(calls: Table, gate: Option<Gate>, halted: bool, clock: Clock,
                           key: Option<EventKey>, scannedAt: Option<int>)
    requires Valid(calls) && Admits(calls, gate, halted, clock, key)
    ensures EventsBounded(calls + [NewCall(clock, key, scannedAt)])
  {
    var call := NewCall(clock, key, scannedAt);
    var after := calls + [call];
    assert after[..|after| - 1] == calls;
    forall day, k ensures Attempts(after, day, k) <= MAX_EVENT_ATTEMPTS {
      assert Attempts(calls, day, k) <= MAX_EVENT_ATTEMPTS;
    }
    forall i, j | 0 <= i < j < |after| && after[i].key.Some? && SameEvent(after[j], after[i].day, after[i].key.value)
      ensures after[i].createdAt + RECONSIDER <= after[j].createdAt && LeavesRoom(after[i])
    {
      if j == |calls| {
        var newest := Newest(calls, clock.date, key.value);
        assert SameEvent(calls[i], clock.date, key.value);
        assert calls[i].createdAt <= calls[newest.value].createdAt;
      }
    }
  }

  /** Every transaction keeps the table valid and only moves rows forward. */
  lemma StepKeepsValid(calls: Table, op: Op)
    requires Valid(calls)
    ensures Valid(Step(calls, op))
    ensures TableAdvances(calls, Step(calls, op))
  {
    hide EventsBounded, WithinBudget, AttemptDue, CircuitOpen, Spent, SpentSince;
    if op.Reserve? {
      if Admits(calls, op.gate, op.halted, op.clock, op.key) {
        ReserveKeepsBudget(calls, op.gate, op.halted, op.clock, op.key, op.scannedAt);
        ReserveKeepsEvents(calls, op.gate, op.halted, op.clock, op.key, op.scannedAt);
      }
    } else {
      AdvanceKeepsValid(calls, Step(calls, op));
    }
  }

  lemma AdvancesTransitive(a: Table, b: Table, c: Table)
    requires TableAdvances(a, b) && TableAdvances(b, c)
    ensures TableAdvances(a, c)
  {
    forall i | 0 <= i < |a| ensures Advances(a[i], c[i]) {
      assert Advances(a[i], b[i]) && Advances(b[i], c[i]);
    }
  }

  /** Over any interleaving of any number of workers' transactions, with any clock readings:
      no thirty-day window is ever charged more than 50 and no day more than 5, each event of a
      day gets at most three attempts, 120 seconds apart, never two in flight and none after an
      applied BUY or EXIT, and finished rows are final. */
  lemma {:induction false} RunKeepsValid(calls: Table, ops: seq<Op>)
    requires Valid(calls)
    ensures Valid(Run(calls, ops))
    ensures TableAdvances(calls, Run(calls, ops))
    decreases |ops|
  {
    if ops != [] {
      StepKeepsValid(calls, ops[0]);
      RunKeepsValid(Step(calls, ops[0]), ops[1..]);
      AdvancesTransitive(calls, Step(calls, ops[0]), Run(calls, ops));
    }
  }

  lemma EmptyIsValid()
    ensures Valid([])
  {
  }

  /** The spend bound in every reachable table: any thirty days cost at most 50 dollars, any day at
      most 5, whatever the interleaving and whatever the clocks read. */
  lemma SpendSafe(ops: seq<Op>, day: int)
    ensures Spent(Run([], ops), day - 29, day) <= 50.0 && Spent(Run([], ops), day, day) <= 5.0
  {
    hide Spent, Run;
    EmptyIsValid();
    RunKeepsValid([], ops);
    assert RollingSpent(Run([], ops), day) <= ROLLING_BUDGET;
  }

  /** What the invariant means for one event: at most three calls, strictly spaced, at most one
      in flight, and an applied BUY is the last of them. */
  lemma EventHistory(ops: seq<Op>, day: int, key: EventKey, i: int, j: int)
    requires 0 <= i < |Run([], ops)| && 0 <= j < |Run([], ops)| && i != j
    requires SameEvent(Run([], ops)[i], day, key) && SameEvent(Run([], ops)[j], day, key)
    ensures
      var calls := Run([], ops);
      && Attempts(calls, day, key) <= 3
      && !(InFlight(calls[i].state) && InFlight(calls[j].state))
      && (calls[i].createdAt + 120 * SECOND <= calls[j].createdAt || calls[j].createdAt + 120 * SECOND <= calls[i].createdAt)
      && (calls[i].state.Applied? && calls[i].action == Some(Buy) ==> calls[j].createdAt + 120 * SECOND <= calls[i].createdAt)
  {
    EmptyIsValid();
    RunKeepsValid([], ops);
  }

  /** How many times a run's `Apply` transactions take effect on one call. */
  function Applications(calls: Table, ops: seq<Op>, id: nat): nat
    decreases |ops|
  {
    if ops == [] then 0
    else
      (if Applies(calls, ops[0]) && ops[0].id == id then 1 else 0) + Applications(Step(calls, ops[0]), ops[1..], id)
  }

  /** A call is applied at most once, and exactly when it ends up applied; never once it has
      been interrupted, rejected, failed or applied before. */
  lemma {:induction false} AppliedAtMostOnce(calls: Table, ops: seq<Op>, id: nat)
    requires Valid(calls)
    ensures Applications(calls, ops, id) <= 1
    ensures id < |calls| && !InFlight(calls[id].state) ==> Applications(calls, ops, id) == 0
    ensures Applications(calls, ops, id) == 1
      <==> id < |Run(calls, ops)| && Run(calls, ops)[id].state.Applied? && !(id < |calls| && calls[id].state.Applied?)
    decreases |ops|
  {
    hide Valid;
    if ops != [] {
      StepKeepsValid(calls, ops[0]);
      RunKeepsValid(Step(calls, ops[0]), ops[1..]);
      AppliedAtMostOnce(Step(calls, ops[0]), ops[1..], id);
      if id < |calls| {
        assert Advances(calls[id], Step(calls, ops[0])[id]);
      }
    }
  }

  /** A refused entry leaves the call as it was; the rejection that follows is final, so no
      later transaction can apply that decision. */
  lemma RefusedApplyBecomesRejected(calls: Table, id: nat, gateMatches: bool, later: seq<Op>)
    requires Valid(calls) && id < |calls| && calls[id].state.Completed?
    ensures Step(calls, Apply(id, gateMatches, false)) == calls
    ensures
      var rejected := Step(calls, Reject(id));
      && rejected == calls[id := calls[id].(state := Rejected)]
      && Applications(rejected, later, id) == 0
      && id < |Run(rejected, later)| && Run(rejected, later)[id] == rejected[id]
  {
    var rejected := Step(calls, Reject(id));
    StepKeepsValid(calls, Reject(id));
    AppliedAtMostOnce(rejected, later, id);
    RunKeepsValid(rejected, later);
    assert Advances(rejected[id], Run(rejected, later)[id]);
  }

  /** A clock that runs backwards across midnight cannot be used to overspend either: the
      rolling check looks at every later date as well. */
  lemma ReservationCoversItsWindows(calls: Table, gate: Option<Gate>, halted: bool, clock: Clock,
                                    key: Option<EventKey>, scannedAt: Option<int>, day: int)
    requires Valid(calls) && Admits(calls, gate, halted, clock, key)
    requires clock.date <= day <= clock.date + BUDGET_DAYS - 1
    ensures RollingSpent(calls, day) + RESERVATION <= ROLLING_BUDGET
  {
    WindowWithinSince(calls, clock.date - (BUDGET_DAYS - 1), day - (BUDGET_DAYS - 1), day);
  }

  // ---------------------------------------------------------------- the circuit breaker

  /** Three calls of the day, latest first, with no other call of the day above the third. */
  predicate LatestThree(calls: Table, day: int, i: nat, j: nat, k: nat) {
    && i < |calls| && j < |calls| && k < |calls|
    && calls[i].day == day && calls[j].day == day && calls[k].day == day
    && calls[i].slot > calls[j].slot > calls[k].slot
    && forall m :: 0 <= m < |calls| && calls[m].day == day && m != i && m != j && m != k ==> calls[m].slot < calls[k].slot
  }

  /** What keeps the circuit open: the three failed, and the latest one's scan is recent. */
  predicate ThreeFailures(calls: Table, day: int, now: int, i: nat, j: nat, k: nat) {
    && LatestThree(calls, day, i, j, k)
    && calls[i].state.Failed? && calls[j].state.Failed? && calls[k].state.Failed?
    && calls[i].scannedAt.Some? && now < calls[i].scannedAt.value + 15 * MINUTE
  }

  ghost predicate DistinctSlots(calls: Table) {
    forall i, j :: 0 <= i < j < |calls| ==> calls[i].slot != calls[j].slot
  }

  /** The circuit is open exactly when the three latest calls of the day all failed and the latest
      one was scanned less than fifteen minutes ago. */
  lemma CircuitOpenIff(calls: Table, day: int, now: int)
    requires DistinctSlots(calls)
    ensures CircuitOpen(calls, day, now) <==> exists i: nat, j: nat, k: nat :: ThreeFailures(calls, day, now, i, j, k)
  {
    hide HighestSlot;
    if CircuitOpen(calls, day, now) {
      var first := HighestSlot(calls, day, None).value;
      var second := HighestSlot(calls, day, Some(calls[first].slot)).value;
      var third := HighestSlot(calls, day, Some(calls[second].slot)).value;
      forall m | 0 <= m < |calls| && calls[m].day == day && m != first && m != second && m != third
        ensures calls[m].slot < calls[third].slot
      {
        assert OfDay(calls[m], day, None);
        assert calls[m].slot != calls[first].slot && calls[m].slot != calls[second].slot && calls[m].slot != calls[third].slot;
        assert OfDay(calls[m], day, Some(calls[first].slot));
        assert OfDay(calls[m], day, Some(calls[second].slot));
      }
      assert ThreeFailures(calls, day, now, first, second, third);
    }
    if i: nat, j: nat, k: nat :| ThreeFailures(calls, day, now, i, j, k) {
      HighestAre(calls, day, i, j, k);
    }
  }

  lemma HighestAre(calls: Table, day: int, i: nat, j: nat, k: nat)
    requires DistinctSlots(calls) && LatestThree(calls, day, i, j, k)
    ensures HighestSlot(calls, day, None) == Some(i)
    ensures HighestSlot(calls, day, Some(calls[i].slot)) == Some(j)
    ensures HighestSlot(calls, day, Some(calls[j].slot)) == Some(k)
  {
    hide HighestSlot;
    assert OfDay(calls[i], day, None);
    assert OfDay(calls[j], day, Some(calls[i].slot));
    assert OfDay(calls[k], day, Some(calls[j].slot));
    var a, b, c := HighestSlot(calls, day, None), HighestSlot(calls, day, Some(calls[i].slot)), HighestSlot(calls, day, Some(calls[j].slot));
    assert a.Some? && b.Some? && c.Some?;
    assert a.value == i;
    assert b.value == j;
    assert c.value == k;
  }

  /** A failed call is final, so an open circuit stays open while the day gains no call. */
  lemma CircuitPersists(before: Table, after: Table, day: int, now: int)
    requires DistinctSlots(before) && DistinctSlots(after) && TableAdvances(before, after) && CircuitOpen(before, day, now)
    requires forall m :: |before| <= m < |after| ==> after[m].day != day
    ensures CircuitOpen(after, day, now)
  {
    hide CircuitOpen, DistinctSlots;
    CircuitOpenIff(before, day, now);
    CircuitOpenIff(after, day, now);
    var i: nat, j: nat, k: nat :| ThreeFailures(before, day, now, i, j, k);
    forall m | 0 <= m < |before| ensures Advances(before[m], after[m]) {
    }
    assert ThreeFailures(after, day, now, i, j, k);
  }

  /** Over any run, while the circuit is open at the instant of every reservation attempted for the
      day, the day gains no call, whatever else workers do. */
  lemma {:induction false} OpenCircuitReservesNothing(calls: Table, ops: seq<Op>, day: int)
    requires Valid(calls)
    requires forall k :: 0 <= k < |ops| && ops[k].Reserve? && ops[k].clock.date == day ==> CircuitOpen(calls, day, ops[k].clock.now)
    ensures |calls| <= |Run(calls, ops)|
    ensures forall m :: |calls| <= m < |Run(calls, ops)| ==> Run(calls, ops)[m].day != day
    decreases |ops|
  {
    hide Valid, CircuitOpen;
    if ops != [] {
      var next, rest := Step(calls, ops[0]), ops[1..];
      StepKeepsValid(calls, ops[0]);
      ValidSlots(calls);
      ValidSlots(next);
      NewCallsOfOtherDays(calls, ops[0], day);
      hide Step, TableAdvances;
      forall k | 0 <= k < |rest| && rest[k].Reserve? && rest[k].clock.date == day ensures CircuitOpen(next, day, rest[k].clock.now) {
        assert rest[k] == ops[k + 1];
        CircuitPersists(calls, next, day, rest[k].clock.now);
      }
      OpenCircuitReservesNothing(next, rest, day);
      RunKeepsValid(next, rest);
      LaterDays(next, Run(next, rest), |calls|, day);
    }
  }

  lemma LaterDays(next: Table, last: Table, from: nat, day: int)
    requires TableAdvances(next, last)
    requires forall m :: from <= m < |next| ==> next[m].day != day
    requires forall m :: |next| <= m < |last| ==> last[m].day != day
    ensures forall m :: from <= m < |last| ==> last[m].day != day
  {
    forall m | from <= m < |next| ensures last[m].day != day {
      assert Advances(next[m], last[m]);
    }
  }

  lemma ValidSlots(calls: Table)
    requires Valid(calls)
    ensures DistinctSlots(calls)
  {
  }

  lemma NewCallsOfOtherDays(calls: Table, op: Op, day: int)
    requires op.Reserve? && op.clock.date == day ==> CircuitOpen(calls, day, op.clock.now)
    ensures |calls| <= |Step(calls, op)|
    ensures forall m :: |calls| <= m < |Step(calls, op)| ==> Step(calls, op)[m].day != day
  {
    hide CircuitOpen, AttemptDue, Spent, SpentSince, SlotTaken;
  }

  // ---------------------------------------------------------------- the store

  class CallStore {
    var calls: Table

    constructor ()
      ensures calls == []
      ensures Valid(calls)
    {
      calls := [];
    }

    /** Reserve a paid call, or return nothing and leave the table alone. */
    method Reserve(gate: Option<Gate>, halted: bool, clock: Clock, key: Option<EventKey>, scannedAt: Option<int>)
      returns (id: Option<nat>)
      requires Valid(calls)
      modifies this
      ensures calls == Step(old(calls), Op.Reserve(gate, halted, clock, key, scannedAt))
      ensures id == if Admits(old(calls), gate, halted, clock, key) then Some(|old(calls)|) else None
      ensures Valid(calls)
    {
      StepKeepsValid(calls, Op.Reserve(gate, halted, clock, key, scannedAt));
      if gate.None? || !gate.value.running || gate.value.day != clock.date {
        return None;
      }
      if halted {
        return None;
      }
      var day := gate.value.day;
      if key.Some? && !AttemptDue(calls, day, key.value, clock.now) {
        return None;
      }
      if CircuitOpen(calls, day, clock.now) {
        return None;
      }
      var used, today := SpentSince(calls, clock.date - (BUDGET_DAYS - 1)), Spent(calls, day, day);
      if used + RESERVATION > ROLLING_BUDGET || today + RESERVATION > DAILY_BUDGET {
        return None;
      }
      if SlotTaken(calls, SlotOf(clock.now)) {
        return None;
      }
      id := Some(|calls|);
      calls := calls + [NewCall(clock, key, scannedAt)];
    }

    /** Settle a response: completed at its own cost, or failed at the full reservation when
        its usage cannot be accounted for. */
    method SettleResponse(id: nat, incoming: int, outgoing: int, action: Action)
      requires Valid(calls)
      modifies this
      ensures calls == Step(old(calls), Op.SettleResponse(id, incoming, outgoing, action))
      ensures Valid(calls)
    {
      StepKeepsValid(calls, Op.SettleResponse(id, incoming, outgoing, action));
      if id < |calls| && calls[id].state.Reserved? {
        var charge := ParseUsage(incoming, outgoing);
        if charge.None? {
          calls := calls[id := calls[id].(state := Failed, charge := RESERVATION)];
        } else {
          calls := calls[id := calls[id].(state := Completed, charge := charge.value, action := Some(action))];
        }
      }
    }

    method SettleFailure(id: nat, dispatched: bool)
      requires Valid(calls)
      modifies this
      ensures calls == Step(old(calls), Op.SettleFailure(id, dispatched))
      ensures Valid(calls)
    {
      StepKeepsValid(calls, Op.SettleFailure(id, dispatched));
      if id < |calls| && calls[id].state.Reserved? {
        calls := calls[id := calls[id].(state := Failed, charge := if dispatched then RESERVATION else 0.0)];
      }
    }

    /** The compare-and-set that claims a decision for application. */
    method Claim(id: nat) returns (claimed: bool)
      requires Valid(calls)
      modifies this
      ensures calls == Step(old(calls), Op.Apply(id, true, true))
      ensures claimed == Applies(old(calls), Op.Apply(id, true, true))
      ensures Valid(calls)
    {
      StepKeepsValid(calls, Op.Apply(id, true, true));
      claimed := id < |calls| && calls[id].state.Completed?;
      if claimed {
        calls := calls[id := calls[id].(state := Applied)];
      }
    }

    method Reject(id: nat)
      requires Valid(calls)
      modifies this
      ensures calls == Step(old(calls), Op.Reject(id))
      ensures Valid(calls)
    {
      StepKeepsValid(calls, Op.Reject(id));
      if id < |calls| && calls[id].state.Completed? {
        calls := calls[id := calls[id].(state := Rejected)];
      }
    }

    /** Close every call still unfinished after ten minutes; its charge is kept. */
    method Reconcile(now: int) returns (closed: seq<nat>)
      requires Valid(calls)
      modifies this
      ensures calls == Step(old(calls), Op.Reconcile(now))
      ensures forall id :: id in closed <==>
        0 <= id < |old(calls)| && InFlight(old(calls)[id].state) && old(calls)[id].createdAt < now - 10 * MINUTE
      ensures Valid(calls)
    {
      ghost var was := calls;
      StepKeepsValid(calls, Op.Reconcile(now));
      closed := [];
      var rows := calls;
      for i := 0 to |rows|
        invariant |rows| == |was|
        invariant forall j :: 0 <= j < i ==> rows[j] == ReconcileOne(was[j], now)
        invariant forall j :: i <= j < |was| ==> rows[j] == was[j]
        invariant forall id :: id in closed <==>
          0 <= id < i && InFlight(was[id].state) && was[id].createdAt < now - 10 * MINUTE
      {
        if InFlight(rows[i].state) && rows[i].createdAt < now - 10 * MINUTE {
          rows := rows[i := rows[i].(state := Interrupted)];
          closed := closed + [i];
        }
      }
      calls := rows;
    }
  }
}
