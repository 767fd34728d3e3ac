/** What preparing, claiming and finishing make of a report's row (`report_backlog` in
    `options_operations.py`). */
module DeliveryOutcomes {
  import opened Common
  import opened ReportLease

  /** The report may be claimed: not sent, no lease running, its next attempt due. */
  predicate Claimable(r: Report, now: int) {
    && r.status != Sent && (r.leaseUntil.Some? ==> r.leaseUntil.value <= now) && (r.nextAttempt.Some? ==> r.nextAttempt.value <= now)
  }

  /** A claim leases exactly one claimable report, for five minutes under a fresh lease, and records it;
      without one it does nothing. */
  lemma ClaimLeases(st: State, now: int)
    ensures
      var after := Step(st, TakeClaim(now));
      if forall i :: 0 <= i < |st.reports| ==> !Claimable(st.reports[i], now) then after == st
      else exists i :: 0 <= i < |st.reports| && Claimable(st.reports[i], now) && Leased(st, i, now, after)
  {
    var i := Picked(st.reports, now);
    if i.None? {
      forall k | 0 <= k < |st.reports| ensures !Claimable(st.reports[k], now) {
        assert !Eligible(st.reports[k], now);
      }
    } else {
      assert Claimable(st.reports[i.value], now) && Leased(st, i.value, now, Step(st, TakeClaim(now)));
    }
  }

  predicate Leased(st: State, i: nat, now: int, after: State)
    requires i < |st.reports|
  {
    && after.claims == st.claims + [Claim(st.reports[i].day, now)]
    && after.reports == st.reports[i := st.reports[i].(lease := Some(|st.claims|), leaseUntil := Some(now + 300_000_000))]
  }

  /** A finish records its result exactly on the row that still carries its lease: the status, an
      attempt unless mail is not configured, the claim's instant, no lease, and the next attempt a
      quarter of an hour after the claim unless it was sent. It changes nothing else. */
  lemma FinishRecords(st: State, lease: nat, status: SendStatus, i: nat)
    requires Valid(st) && i < |st.reports|
    ensures |Step(st, Finish(lease, status)).reports| == |st.reports| && Step(st, Finish(lease, status)).claims == st.claims
    ensures
      var was, now := st.reports[i], Step(st, Finish(lease, status)).reports[i];
      if lease < |st.claims| && was.lease == Some(lease) && was.day == st.claims[lease].day then
        var at := st.claims[lease].now;
        && now.day == was.day && now.status == status && now.lease == None && now.leaseUntil == None
        && now.attemptedAt == Some(at)
        && now.attempts == was.attempts + (if status == NotConfigured then 0 else 1)
        && now.nextAttempt == (if status == Sent then None else Some(at + 900_000_000))
      else now == was
  {
    hide ClaimsOf;
    OneRow(st.reports, i);
  }

  lemma {:induction false} OneRow(reports: seq<Report>, i: nat)
    requires i < |reports| && forall j, k :: 0 <= j < k < |reports| ==> reports[j].day != reports[k].day
    ensures IndexOf(reports, reports[i].day) == Some(i)
  {
    var n := |reports| - 1;
    if i < n {
      OneRow(reports[..n], i);
    }
  }

  /** Preparing a day adds its report once, pending and due at once. */
  lemma PrepareAdds(st: State, day: int)
    ensures Step(st, Generate(day)) ==
      if exists i :: 0 <= i < |st.reports| && st.reports[i].day == day then st
      else st.(reports := st.reports + [Report(day, Pending, 0, None, None, None, None)])
  {
  }
}
