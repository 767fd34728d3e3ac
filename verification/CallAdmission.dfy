/** When a paid call is reserved, and what each later transaction makes of it (`reserve`,
    `reconcile_interrupted_calls`, the compare-and-set of `_apply` and the rejection in
    `banknifty.py`; `reconsider_event` in `options_policy.py`). */
module CallAdmission {
  import opened Common
  import opened CallLedger

  /** The event may be tried: never tried that day, or tried fewer than three times, the last attempt
      at least 120 seconds ago and ended without an effect: failed, interrupted, rejected, or applied
      as a HOLD on a changed plan set. */
  ghost predicate EventOpen(calls: Table, day: int, key: EventKey, now: int) {
    || (forall i :: 0 <= i < |calls| ==> !(calls[i].day == day && calls[i].key == Some(key)))
    || (Attempts(calls, day, key) < 3 && exists i :: 0 <= i < |calls| && LastAttempt(calls, day, key, i) && Reconsidered(calls[i], now))
  }

  predicate LastAttempt(calls: Table, day: int, key: EventKey, i: nat)
    requires i < |calls|
  {
    && calls[i].day == day && calls[i].key == Some(key)
    && forall j :: 0 <= j < |calls| && calls[j].day == day && calls[j].key == Some(key) ==> calls[j].createdAt <= calls[i].createdAt
  }

  predicate Reconsidered(c: Call, now: int) {
    && c.createdAt + 120_000_000 <= now
    && (c.state == Failed || c.state == Interrupted || c.state == Rejected
        || (c.state == Applied && c.action == Some(Hold) && c.key.Some? && c.key.value.kind == PlanSetChanged))
  }

  lemma DueIff(calls: Table, day: int, key: EventKey, now: int)
    requires Valid(calls)
    ensures AttemptDue(calls, day, key, now) <==> EventOpen(calls, day, key, now)
  {
    hide Newest, Attempts, WithinBudget;
    var newest := Newest(calls, day, key);
    if newest.Some? {
      assert SameEvent(calls[newest.value], day, key);
      assert LastAttempt(calls, day, key, newest.value);
      forall i: nat | i < |calls| && LastAttempt(calls, day, key, i) ensures i == newest.value {
        OneLatest(calls, day, key, i, newest.value);
      }
    } else {
      assert forall i :: 0 <= i < |calls| ==> !SameEvent(calls[i], day, key);
    }
  }

  lemma OneLatest(calls: Table, day: int, key: EventKey, i: nat, j: nat)
    requires Valid(calls) && i < |calls| && j < |calls| && LastAttempt(calls, day, key, i) && LastAttempt(calls, day, key, j)
    ensures i == j
  {
    if i < j {
      Spaced(calls, day, key, i, j);
    } else if j < i {
      Spaced(calls, day, key, j, i);
    }
  }

  lemma Spaced(calls: Table, day: int, key: EventKey, i: nat, j: nat)
    requires Valid(calls) && i < j < |calls| && SameEvent(calls[i], day, key) && SameEvent(calls[j], day, key)
    ensures calls[i].createdAt + 120_000_000 <= calls[j].createdAt
  {
    hide Attempts, WithinBudget;
    assert SameEvent(calls[j], calls[i].day, calls[i].key.value);
  }

  /** A call is reserved exactly when the session runs on today's date, nothing is halted, its event may
      be tried, the three latest calls of the day have not just failed, another fifth of a dollar fits
      the day and the thirty days, and no call was reserved in the same two minutes. */
  lemma ReservedIff(calls: Table, gate: Option<Gate>, halted: bool, clock: Clock, key: Option<EventKey>)
    requires Valid(calls)
    ensures Admits(calls, gate, halted, clock, key) <==>
      && gate == Some(Gate(true, clock.date)) && !halted
      && (key.Some? ==> EventOpen(calls, clock.date, key.value, clock.now))
      && !(exists i: nat, j: nat, k: nat :: ThreeFailures(calls, clock.date, clock.now, i, j, k))
      && Spent(calls, clock.date, clock.date) + 0.2 <= 5.0 && SpentSince(calls, clock.date - 29) + 0.2 <= 50.0
      && (forall i :: 0 <= i < |calls| ==> calls[i].slot != clock.now / 120_000_000)
  {
    ValidSlots(calls);
    hide EventOpen, AttemptDue, CircuitOpen, Spent, SpentSince, ThreeFailures, Valid;
    CircuitOpenIff(calls, clock.date, clock.now);
    if key.Some? {
      DueIff(calls, clock.date, key.value, clock.now);
    }
  }

  /** A reservation appends one call at the full fifth of a dollar and touches no other. */
  lemma ReservationIs(calls: Table, op: Op)
    requires op.Reserve?
    ensures Step(calls, op) ==
      if Admits(calls, op.gate, op.halted, op.clock, op.key)
      then calls + [Call(op.clock.date, op.clock.now / 120_000_000, op.clock.now, Reserved, 0.2, op.key, op.scannedAt, None)]
      else calls
  {
    hide Admits;
  }

  /** What the other transactions make of the i-th call: an accepted application claims a completed
      call of its own, a rejection ends one, and recovery interrupts whatever is unfinished after ten
      minutes. A refused or mismatched application, and any other call, changes nothing. */
  lemma TransactionLeaves(calls: Table, op: Op, i: nat)
    requires i < |calls| && (op.Apply? || op.Reject? || op.Reconcile?)
    ensures |Step(calls, op)| == |calls|
    ensures
      var was, now := calls[i], Step(calls, op)[i];
      if op.Apply? && op.id == i && op.gateMatches && op.accepted && was.state == Completed then now == was.(state := Applied)
      else if op.Reject? && op.id == i && was.state == Completed then now == was.(state := Rejected)
      else if op.Reconcile? && (was.state == Reserved || was.state == Completed) && was.createdAt + 600_000_000 < op.now
      then now == was.(state := Interrupted)
      else now == was
  {
  }
}
