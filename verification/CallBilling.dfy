/** What answered calls cost, counted from the operations of a run alone, and the charges the call
    table records for them (`settle` in `banknifty.py`, the accounting rates in `options_ai.py`). */
module CallBilling {
  import opened Common
  import opened CallLedger

  // ---------------------------------------------------------------- what a settlement costs

  /** A response whose usage is accounted for: token counts that cost at most the reservation. */
  predicate Accountable(incoming: int, outgoing: int) {
    incoming >= 0 && outgoing >= 0 && 5 * incoming + 30 * outgoing <= 200_000
  }

  /** Dollars owed for one settlement: 5 and 30 a million tokens for an accountable response, a fifth
      of a dollar for any other response or a request that was sent and failed, nothing for one that
      was never sent. */
  function CostOf(op: Op): real
    requires op.SettleResponse? || op.SettleFailure?
  {
    match op
    case SettleResponse(_, incoming, outgoing, _) =>
      if Accountable(incoming, outgoing) then (5 * incoming + 30 * outgoing) as real / 1_000_000.0 else 0.2
    case SettleFailure(_, dispatched) => if dispatched then 0.2 else 0.0
  }

  /** The operation settles a call dated in [from, to] that awaits its answer. */
  predicate Settles(calls: Table, op: Op, from: int, to: int) {
    (op.SettleResponse? || op.SettleFailure?) && op.id < |calls| && calls[op.id].state == CallState.Reserved && from <= calls[op.id].day <= to
  }

  /** The operation reserves a call dated in [from, to]. */
  predicate Reserves(calls: Table, op: Op, from: int, to: int) {
    op.Reserve? && Admits(calls, op.gate, op.halted, op.clock, op.key) && from <= op.clock.date <= to
  }

  /** What the settlements of a run cost. */
  function Bill(calls: Table, ops: seq<Op>, from: int, to: int): real
    decreases |ops|
  {
    if ops == [] then 0.0
    else (if Settles(calls, ops[0], from, to) then CostOf(ops[0]) else 0.0) + Bill(Step(calls, ops[0]), ops[1..], from, to)
  }

  /** Reservations less settlements: the calls of a run that were never answered. */
  function Unanswered(calls: Table, ops: seq<Op>, from: int, to: int): int
    decreases |ops|
  {
    if ops == [] then 0
    else
      (if Reserves(calls, ops[0], from, to) then 1 else 0) - (if Settles(calls, ops[0], from, to) then 1 else 0)
      + Unanswered(Step(calls, ops[0]), ops[1..], from, to)
  }

  /** Calls dated in [from, to] that await their answer. */
  function Awaiting(calls: Table, from: int, to: int): nat {
    if calls == [] then 0
    else
      var last := calls[|calls| - 1];
      Awaiting(calls[..|calls| - 1], from, to) + if from <= last.day <= to && last.state == CallState.Reserved then 1 else 0
  }

  // ---------------------------------------------------------------- the settled row

  /** A settled call: an accountable response completes it at its own cost with the action it chose;
      any other fails it, at the full reservation unless nothing was sent. Nothing else changes. */
  lemma SettledRow(calls: Table, op: Op)
    requires op.SettleResponse? || op.SettleFailure?
    ensures
      var after := Step(calls, op);
      if op.id < |calls| && calls[op.id].state == CallState.Reserved then
        && |after| == |calls| && (forall j :: 0 <= j < |calls| && j != op.id ==> after[j] == calls[j])
        && (if op.SettleResponse? && Accountable(op.incoming, op.outgoing)
            then after[op.id] == calls[op.id].(state := CallState.Completed, charge := CostOf(op), action := Some(op.action))
            else after[op.id] == calls[op.id].(state := CallState.Failed, charge := CostOf(op)))
      else after == calls
  {
  }

  lemma SpentUpdated(calls: Table, i: nat, row: Call, from: int, to: int)
    requires i < |calls| && row.day == calls[i].day
    ensures Spent(calls[i := row], from, to) == Spent(calls, from, to) + if from <= row.day <= to then row.charge - calls[i].charge else 0.0
  {
    var n := |calls| - 1;
    if i < n {
      SpentUpdated(calls[..n], i, row, from, to);
      assert calls[i := row][..n] == calls[..n][i := row];
    } else {
      assert calls[i := row][..n] == calls[..n];
    }
  }

  lemma AwaitingUpdated(calls: Table, i: nat, row: Call, from: int, to: int)
    requires i < |calls| && row.day == calls[i].day
    ensures Awaiting(calls[i := row], from, to) == Awaiting(calls, from, to)
      + (if from <= row.day <= to && row.state == CallState.Reserved then 1 else 0)
      - (if from <= row.day <= to && calls[i].state == CallState.Reserved then 1 else 0)
  {
    var n := |calls| - 1;
    if i < n {
      AwaitingUpdated(calls[..n], i, row, from, to);
      assert calls[i := row][..n] == calls[..n][i := row];
    } else {
      assert calls[i := row][..n] == calls[..n];
    }
  }

  lemma AwaitingAppended(calls: Table, call: Call, from: int, to: int)
    ensures Awaiting(calls + [call], from, to)
         == Awaiting(calls, from, to) + if from <= call.day <= to && call.state == CallState.Reserved then 1 else 0
  {
    assert (calls + [call])[..|calls|] == calls;
  }

  /** Rows that keep day and charge, none becoming reserved. */
  lemma Pointwise(a: Table, b: Table, from: int, to: int)
    requires |a| == |b|
    requires forall i :: 0 <= i < |a| ==> b[i].day == a[i].day && b[i].charge == a[i].charge
    requires forall i :: 0 <= i < |a| && b[i].state == CallState.Reserved ==> a[i].state == CallState.Reserved
    ensures Spent(b, from, to) == Spent(a, from, to) && Awaiting(b, from, to) <= Awaiting(a, from, to)
  {
    if a != [] {
      Pointwise(a[..|a| - 1], b[..|b| - 1], from, to);
    }
  }

  /** One operation moves the recorded charges by a reservation or by a settlement, and nothing else. */
  lemma StepBilled(calls: Table, op: Op, from: int, to: int)
    requires Valid(calls)
    ensures
      var after := Step(calls, op);
      && Spent(after, from, to) == Spent(calls, from, to) + (if Reserves(calls, op, from, to) then 0.2 else 0.0)
                                   + (if Settles(calls, op, from, to) then CostOf(op) - 0.2 else 0.0)
      && Awaiting(after, from, to) <= Awaiting(calls, from, to) + (if Reserves(calls, op, from, to) then 1 else 0)
                                      - (if Settles(calls, op, from, to) then 1 else 0)
  {
    hide Spent, Awaiting, Admits, WithinBudget, EventsBounded;
    match op
    case Reserve(gate, halted, clock, key, scannedAt) =>
      SpentAppended(calls, NewCall(clock, key, scannedAt), from, to);
      AwaitingAppended(calls, NewCall(clock, key, scannedAt), from, to);
    case SettleResponse(id, _, _, _) =>
      if id < |calls| && calls[id].state == CallState.Reserved {
        SettledRow(calls, op);
        SpentUpdated(calls, id, Step(calls, op)[id], from, to);
        AwaitingUpdated(calls, id, Step(calls, op)[id], from, to);
        assert Step(calls, op) == calls[id := Step(calls, op)[id]];
      }
    case SettleFailure(id, _) =>
      if id < |calls| && calls[id].state == CallState.Reserved {
        SettledRow(calls, op);
        SpentUpdated(calls, id, Step(calls, op)[id], from, to);
        AwaitingUpdated(calls, id, Step(calls, op)[id], from, to);
        assert Step(calls, op) == calls[id := Step(calls, op)[id]];
      }
    case Apply(_, _, _) => Pointwise(calls, Step(calls, op), from, to);
    case Reject(_) => Pointwise(calls, Step(calls, op), from, to);
    case Reconcile(_) => Pointwise(calls, Step(calls, op), from, to);
  }

  // ---------------------------------------------------------------- every run

  lemma {:induction false} RunBilled(calls: Table, ops: seq<Op>, from: int, to: int)
    requires Valid(calls)
    ensures Spent(Run(calls, ops), from, to)
         == Spent(calls, from, to) + Bill(calls, ops, from, to) + 0.2 * Unanswered(calls, ops, from, to) as real
    ensures Awaiting(Run(calls, ops), from, to) <= Awaiting(calls, from, to) + Unanswered(calls, ops, from, to)
    decreases |ops|
  {
    hide Step, Spent, Awaiting, Valid, Settles, Reserves, CostOf;
    if ops != [] {
      StepBilled(calls, ops[0], from, to);
      StepKeepsValid(calls, ops[0]);
      RunBilled(Step(calls, ops[0]), ops[1..], from, to);
    }
  }

  /** The books of the call table, over any dates and every run: what is recorded as spent is what
      the answered calls cost and a fifth of a dollar for each call never answered. */
  lemma SpentIsOwed(ops: seq<Op>, from: int, to: int)
    ensures Unanswered([], ops, from, to) >= 0
    ensures Spent(Run([], ops), from, to) == Bill([], ops, from, to) + 0.2 * Unanswered([], ops, from, to) as real
  {
    EmptyIsValid();
    RunBilled([], ops, from, to);
  }

  /** Money, not bookkeeping: whatever the interleaving and the clocks, what the settled calls of any
      thirty days cost is at most 50 dollars, and of any day at most 5. */
  lemma MoneySafe(ops: seq<Op>, day: int)
    ensures Bill([], ops, day - 29, day) <= 50.0 && Bill([], ops, day, day) <= 5.0
  {
    hide Bill, Spent, Run, Unanswered;
    SpendSafe(ops, day);
    SpentIsOwed(ops, day - 29, day);
    SpentIsOwed(ops, day, day);
  }
}
