/** Delivery of daily reports under a bounded claim lease (`report_backlog` in
    `options_operations.py`). Each of its transactions is one step; the mail is sent between a
    worker's claim and its finish. A lease identifier is the position of its claim, which stands
    for the fresh UUID each claim draws. */
module ReportLease {
  import opened Common

  const LEASE: int := 5 * MINUTE
  const RETRY: int := 15 * MINUTE

  datatype Status = Pending | Sent | Unsent | NotConfigured

  datatype Report = Report(day: int, status: Status, attempts: nat, attemptedAt: Option<int>,
                           lease: Option<nat>, leaseUntil: Option<int>, nextAttempt: Option<int>)

  /** A worker's claim: which report, and the worker's clock when it claimed. */
  datatype Claim = Claim(day: int, now: int)

  datatype State = State(reports: seq<Report>, claims: seq<Claim>)

  const EMPTY := State([], [])

  // ---------------------------------------------------------------- steps

  function IndexOf(reports: seq<Report>, day: int): (r: Option<nat>)
    ensures r.Some? ==> r.value < |reports| && reports[r.value].day == day
    ensures r.None? ==> forall i :: 0 <= i < |reports| ==> reports[i].day != day
  {
    if reports == [] then None
    else
      var n := |reports| - 1;
      if reports[n].day == day then Some(n) else IndexOf(reports[..n], day)
  }

  function FreshReport(day: int): Report {
    Report(day, Pending, 0, None, None, None, None)
  }

  predicate Passed(at: Option<int>, now: int) {
    at.None? || at.value <= now
  }

  predicate Eligible(r: Report, now: int) {
    !r.status.Sent? && Passed(r.leaseUntil, now) && Passed(r.nextAttempt, now)
  }

  /** The claim order: fewest attempts, then earliest next attempt with unset ones first, then date. */
  predicate ClaimedBefore(a: Report, b: Report) {
    || a.attempts < b.attempts
    || (a.attempts == b.attempts &&
          (|| (a.nextAttempt.None? && b.nextAttempt.Some?)
           || (a.nextAttempt.Some? && b.nextAttempt.Some? && a.nextAttempt.value < b.nextAttempt.value)
           || (a.nextAttempt == b.nextAttempt && a.day < b.day)))
  }

  function Picked(reports: seq<Report>, now: int): (r: Option<nat>)
    ensures r.Some? ==> r.value < |reports| && Eligible(reports[r.value], now)
    ensures r.None? ==> forall i :: 0 <= i < |reports| ==> !Eligible(reports[i], now)
  {
    if reports == [] then None
    else
      var n := |reports| - 1;
      var before := Picked(reports[..n], now);
      if !Eligible(reports[n], now) then before
      else if before.Some? && !ClaimedBefore(reports[n], reports[before.value]) then before
      else Some(n)
  }

  function Generated(st: State, day: int): State {
    if IndexOf(st.reports, day).Some? then st else st.(reports := st.reports + [FreshReport(day)])
  }

  function Claimed(st: State, now: int): State {
    var i := Picked(st.reports, now);
    if i.None? then st
    else
      var r := st.reports[i.value];
      State(st.reports[i.value := r.(lease := Some(|st.claims|), leaseUntil := Some(now + LEASE))],
            st.claims + [Claim(r.day, now)])
  }

  function Recorded(r: Report, claim: Claim, status: Status): Report {
    Report(r.day, status, if status.NotConfigured? then r.attempts else r.attempts + 1, Some(claim.now), None, None,
           if status.Sent? then None else Some(claim.now + RETRY))
  }

  /** Whether a finish finds its own lease still on the row. */
  predicate Holds(st: State, lease: nat) {
    lease < |st.claims| &&
    var i := IndexOf(st.reports, st.claims[lease].day);
    i.Some? && st.reports[i.value].lease == Some(lease)
  }

  function Finished(st: State, lease: nat, status: Status): State {
    if !Holds(st, lease) then st
    else
      var i := IndexOf(st.reports, st.claims[lease].day).value;
      st.(reports := st.reports[i := Recorded(st.reports[i], st.claims[lease], status)])
  }

  /** A send ends sent, unsent, or not configured; an adapter that raises counts as unsent. */
  type SendStatus = s: Status | !s.Pending? witness Sent

  datatype Op =
    | Generate(day: int)
    | TakeClaim(now: int)
    | Finish(lease: nat, status: SendStatus)

  function Step(st: State, op: Op): State {
    match op
    case Generate(day) => Generated(st, day)
    case TakeClaim(now) => Claimed(st, now)
    case Finish(lease, status) => Finished(st, lease, status)
  }

  function Run(st: State, ops: seq<Op>): State
    decreases |ops|
  {
    if ops == [] then st else Run(Step(st, ops[0]), ops[1..])
  }

  // ---------------------------------------------------------------- invariant

  function ClaimsOf(claims: seq<Claim>, day: int): nat {
    if claims == [] then 0
    else ClaimsOf(claims[..|claims| - 1], day) + if claims[|claims| - 1].day == day then 1 else 0
  }

  predicate LastClaim(claims: seq<Claim>, k: nat) {
    k < |claims| && forall j :: k < j < |claims| ==> claims[j].day != claims[k].day
  }

  /** The row cannot be claimed before `t`. */
  predicate HeldUntil(r: Report, t: int) {
    r.status.Sent? || (r.leaseUntil.Some? && r.leaseUntil.value >= t) || (r.nextAttempt.Some? && r.nextAttempt.value >= t)
  }

  ghost predicate RowSound(r: Report, claims: seq<Claim>) {
    && (r.status.Sent? ==> r.lease.None?)
    && (r.lease.Some? ==> LastClaim(claims, r.lease.value) && claims[r.lease.value].day == r.day)
    && (forall i :: 0 <= i < |claims| && claims[i].day == r.day ==> HeldUntil(r, claims[i].now + LEASE))
    && r.attempts + (if r.lease.Some? then 1 else 0) <= ClaimsOf(claims, r.day)
  }

  ghost predicate Spaced(claims: seq<Claim>) {
    forall i, j :: 0 <= i < j < |claims| && claims[i].day == claims[j].day ==> claims[i].now + LEASE <= claims[j].now
  }

  ghost predicate Valid(st: State) {
    && (forall i, j :: 0 <= i < j < |st.reports| ==> st.reports[i].day != st.reports[j].day)
    && (forall i :: 0 <= i < |st.reports| ==> RowSound(st.reports[i], st.claims))
    && (forall i :: 0 <= i < |st.claims| ==> IndexOf(st.reports, st.claims[i].day).Some?)
    && Spaced(st.claims)
  }

  lemma {:induction false} IndexByDays(a: seq<Report>, b: seq<Report>, day: int)
    requires |a| == |b| && forall i :: 0 <= i < |a| ==> a[i].day == b[i].day
    ensures IndexOf(a, day) == IndexOf(b, day)
  {
    if a != [] {
      IndexByDays(a[..|a| - 1], b[..|b| - 1], day);
    }
  }

  lemma RowByDay(st: State, i: nat)
    requires Valid(st) && i < |st.reports|
    ensures IndexOf(st.reports, st.reports[i].day) == Some(i)
  {
    hide RowSound, Spaced;
  }

  lemma ClaimCounted(claims: seq<Claim>, c: Claim, day: int)
    ensures ClaimsOf(claims + [c], day) == ClaimsOf(claims, day) + if c.day == day then 1 else 0
  {
    assert (claims + [c])[..|claims|] == claims;
  }

  lemma {:induction false} NoClaims(claims: seq<Claim>, day: int)
    requires forall i :: 0 <= i < |claims| ==> claims[i].day != day
    ensures ClaimsOf(claims, day) == 0
  {
    if claims != [] {
      NoClaims(claims[..|claims| - 1], day);
    }
  }

  lemma GenerateKeeps(st: State, day: int)
    requires Valid(st)
    ensures Valid(Generated(st, day))
  {
    hide Spaced;
    if IndexOf(st.reports, day).None? {
      forall i | 0 <= i < |st.claims| ensures st.claims[i].day != day {
      }
      NoClaims(st.claims, day);
      var after := st.reports + [FreshReport(day)];
      assert after[..|st.reports|] == st.reports;
    }
  }

  lemma ClaimKeeps(st: State, now: int)
    requires Valid(st)
    ensures Valid(Claimed(st, now))
  {
    hide ClaimsOf, IndexOf;
    var p := Picked(st.reports, now);
    if p.Some? {
      var i := p.value;
      var r := st.reports[i];
      var c := Claim(r.day, now);
      var after := Claimed(st, now);
      RowByDay(st, i);
      ClaimSpaced(st, i, now);
      forall d ensures IndexOf(after.reports, d) == IndexOf(st.reports, d) {
        IndexByDays(after.reports, st.reports, d);
      }
      forall k | 0 <= k < |st.reports| ensures RowSound(after.reports[k], after.claims) {
        ClaimCounted(st.claims, c, st.reports[k].day);
        if k == i {
          ClaimedRow(st, i, now);
        } else {
          OtherRow(st.reports[k], st.claims, c);
        }
      }
    }
  }

  /** A row that can be claimed at `now` was last claimed at least a lease ago. */
  lemma ClaimSpaced(st: State, i: nat, now: int)
    requires Valid(st) && i < |st.reports| && Eligible(st.reports[i], now)
    ensures Spaced(st.claims + [Claim(st.reports[i].day, now)])
  {
    hide ClaimsOf, IndexOf;
    forall k | 0 <= k < |st.claims| && st.claims[k].day == st.reports[i].day ensures st.claims[k].now + LEASE <= now {
      assert HeldUntil(st.reports[i], st.claims[k].now + LEASE);
    }
  }

  lemma ClaimedRow(st: State, i: nat, now: int)
    requires Valid(st) && i < |st.reports| && Eligible(st.reports[i], now)
    ensures
      var r := st.reports[i];
      RowSound(r.(lease := Some(|st.claims|), leaseUntil := Some(now + LEASE)), st.claims + [Claim(r.day, now)])
  {
    hide IndexOf;
    var r := st.reports[i];
    ClaimCounted(st.claims, Claim(r.day, now), r.day);
    ClaimSpaced(st, i, now);
    hide ClaimsOf;
    var claims := st.claims + [Claim(r.day, now)];
    forall k | 0 <= k < |claims| && claims[k].day == r.day ensures claims[k].now + LEASE <= now + LEASE {
    }
  }

  lemma OtherRow(r: Report, claims: seq<Claim>, c: Claim)
    requires RowSound(r, claims) && c.day != r.day
    ensures RowSound(r, claims + [c])
  {
    ClaimCounted(claims, c, r.day);
    hide ClaimsOf;
  }

  lemma FinishKeeps(st: State, lease: nat, status: SendStatus)
    requires Valid(st)
    ensures Valid(Finished(st, lease, status))
  {
    hide ClaimsOf, IndexOf;
    if Holds(st, lease) {
      var i := IndexOf(st.reports, st.claims[lease].day).value;
      var after := Finished(st, lease, status);
      forall d ensures IndexOf(after.reports, d) == IndexOf(st.reports, d) {
        IndexByDays(after.reports, st.reports, d);
      }
      RecordedRow(st, i, lease, status);
    }
  }

  lemma RecordedRow(st: State, i: nat, lease: nat, status: SendStatus)
    requires Valid(st) && i < |st.reports| && lease < |st.claims| && st.reports[i].lease == Some(lease)
    ensures RowSound(Recorded(st.reports[i], st.claims[lease], status), st.claims)
  {
    hide ClaimsOf, IndexOf;
    var r, c := st.reports[i], st.claims[lease];
    forall k | 0 <= k < |st.claims| && st.claims[k].day == r.day ensures st.claims[k].now <= c.now {
      assert LastClaim(st.claims, lease);
      if k < lease {
        assert st.claims[k].now + LEASE <= c.now;
      }
    }
  }

  lemma StepKeeps(st: State, op: Op)
    requires Valid(st)
    ensures Valid(Step(st, op))
  {
    hide Valid, Generated, Claimed, Finished;
    match op
    case Generate(day) => GenerateKeeps(st, day);
    case TakeClaim(now) => ClaimKeeps(st, now);
    case Finish(lease, status) => FinishKeeps(st, lease, status);
  }

  lemma {:induction false} RunKeeps(st: State, ops: seq<Op>)
    requires Valid(st)
    ensures Valid(Run(st, ops))
    decreases |ops|
  {
    hide Valid, Step;
    if ops != [] {
      StepKeeps(st, ops[0]);
      RunKeeps(Step(st, ops[0]), ops[1..]);
    }
  }

  // ---------------------------------------------------------------- what every interleaving keeps

  /** Over every interleaving of workers, two claims of one report are at least a lease apart by
      the claimants' own clocks: a second send can begin during the first only after the first has
      outlived its five minutes. Recorded attempts never outnumber the report's claims. */
  lemma ClaimsAreSpaced(ops: seq<Op>, i: nat, j: nat, k: nat)
    requires
      var st := Run(EMPTY, ops);
      i < j < |st.claims| && st.claims[i].day == st.claims[j].day && k < |st.reports|
    ensures
      var st := Run(EMPTY, ops);
      && st.claims[i].now + LEASE <= st.claims[j].now
      && st.reports[k].attempts <= ClaimsOf(st.claims, st.reports[k].day)
  {
    hide Run, ClaimsOf;
    RunKeeps(EMPTY, ops);
    assert RowSound(Run(EMPTY, ops).reports[k], Run(EMPTY, ops).claims);
  }

  /** Only the latest claim of a report can record a result: once another worker has claimed it,
      a late finish changes nothing. */
  lemma LateFinishDiscarded(st: State, i: nat, j: nat, status: SendStatus)
    requires Valid(st) && i < j < |st.claims| && st.claims[i].day == st.claims[j].day
    ensures Finished(st, i, status) == st
  {
    hide IndexOf, ClaimsOf, HeldUntil, Spaced;
    var k := IndexOf(st.reports, st.claims[i].day);
    assert k.Some?;
    assert RowSound(st.reports[k.value], st.claims);
  }

  /** The row of a day. */
  function RowOf(st: State, day: int): Option<Report> {
    var i := IndexOf(st.reports, day);
    if i.Some? then Some(st.reports[i.value]) else None
  }

  /** What one step may do to a report's row: nothing, give it a new lease when it is unsent and
      due, or record the result of the lease it carries. */
  lemma RowSteps(st: State, op: Op, day: int)
    requires Valid(st) && RowOf(st, day).Some?
    ensures
      var r, after := RowOf(st, day).value, RowOf(Step(st, op), day);
      && after.Some?
      && (|| after.value == r
          || (op.TakeClaim? && Eligible(r, op.now) &&
              after.value == r.(lease := Some(|st.claims|), leaseUntil := Some(op.now + LEASE)))
          || (op.Finish? && r.lease == Some(op.lease) && op.lease < |st.claims| &&
              after.value == Recorded(r, st.claims[op.lease], op.status)))
  {
    hide RowSound, Spaced;
    var i := IndexOf(st.reports, day).value;
    match op
    case Generate(d) =>
      if IndexOf(st.reports, d).None? {
        assert (st.reports + [FreshReport(d)])[..|st.reports|] == st.reports;
      }
    case TakeClaim(now) =>
      IndexByDays(Claimed(st, now).reports, st.reports, day);
    case Finish(lease, status) =>
      IndexByDays(Finished(st, lease, status).reports, st.reports, day);
  }

  /** A sent report is final: no later interleaving changes its row, so it is never claimed again. */
  lemma {:induction false} SentIsFinal(st: State, ops: seq<Op>, day: int)
    requires Valid(st) && RowOf(st, day).Some? && RowOf(st, day).value.status.Sent?
    ensures RowOf(Run(st, ops), day) == RowOf(st, day)
    decreases |ops|
  {
    hide Step, RowOf, Recorded, IndexOf;
    if ops != [] {
      SentUnleased(st, day);
      RowSteps(st, ops[0], day);
      StepKeeps(st, ops[0]);
      hide Valid;
      SentIsFinal(Step(st, ops[0]), ops[1..], day);
    }
  }

  lemma SentUnleased(st: State, day: int)
    requires Valid(st) && RowOf(st, day).Some? && RowOf(st, day).value.status.Sent?
    ensures RowOf(st, day).value.lease.None?
  {
    hide IndexOf;
    assert RowSound(RowOf(st, day).value, st.claims);
  }

  /** The claimed report comes first in the claim order among all that are due. */
  lemma {:induction false} PickedFirst(reports: seq<Report>, now: int, k: nat)
    requires k < |reports| && Eligible(reports[k], now)
    ensures Picked(reports, now).Some? && !ClaimedBefore(reports[k], reports[Picked(reports, now).value])
  {
    var n := |reports| - 1;
    if k < n {
      PickedFirst(reports[..n], now, k);
    }
  }

  // ---------------------------------------------------------------- the table

  class ReportDesk {
    var reports: seq<Report>
    var claims: seq<Claim>

    ghost function Model(): State
      reads this
    {
      State(reports, claims)
    }

    constructor ()
      ensures Model() == EMPTY
    {
      reports, claims := [], [];
    }

    method Prepare(day: int)
      requires Valid(Model())
      modifies this
      ensures Valid(Model()) && Model() == Step(old(Model()), Generate(day))
    {
      GenerateKeeps(Model(), day);
      hide Valid;
      if IndexOf(reports, day).None? {
        reports := reports + [FreshReport(day)];
      }
    }

    /** Claim the first due report under a new lease. */
    method Acquire(now: int) returns (lease: Option<nat>)
      requires Valid(Model())
      modifies this
      ensures Valid(Model()) && Model() == Step(old(Model()), TakeClaim(now))
      ensures lease == if Picked(old(reports), now).Some? then Some(|old(claims)|) else None
    {
      ClaimKeeps(Model(), now);
      hide Valid;
      var i := Picked(reports, now);
      if i.None? {
        return None;
      }
      var r := reports[i.value];
      lease := Some(|claims|);
      reports := reports[i.value := r.(lease := lease, leaseUntil := Some(now + LEASE))];
      claims := claims + [Claim(r.day, now)];
    }

    /** Record a send's result if the row still carries this lease. */
    method Complete(lease: nat, status: SendStatus)
      requires Valid(Model()) && lease < |claims|
      modifies this
      ensures Valid(Model()) && Model() == Step(old(Model()), Finish(lease, status))
    {
      FinishKeeps(Model(), lease, status);
      hide Valid, IndexOf;
      var claim := claims[lease];
      var i := IndexOf(reports, claim.day);
      if i.Some? && reports[i.value].lease == Some(lease) {
        var r := reports[i.value];
        r := r.(status := status, attempts := if status.NotConfigured? then r.attempts else r.attempts + 1);
        r := r.(attemptedAt := Some(claim.now), lease := None, leaseUntil := None);
        r := r.(nextAttempt := if status.Sent? then None else Some(claim.now + RETRY));
        assert r == Recorded(reports[i.value], claim, status);
        hide Recorded;
        reports := reports[i.value := r];
      }
    }
  }
}
