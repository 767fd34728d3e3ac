/** When a session is started or resumed, and when an expired residual is settled (`validate_limits`,
    `start` and `settle_expired_position` in `banknifty.py`), with each refusal. */
module SessionOutcomes {
  import opened Common
  import opened Rounding
  import opened OptionsRisk
  import opened DeskSession
  import opened Desk

  // ---------------------------------------------------------------- limits

  /** A number of at most so many decimals. */
  ghost predicate Whole(x: real, unit: real) {
    exists k: int :: x == Units(k, unit)
  }

  function Units(k: int, unit: real): real {
    k as real * unit
  }

  lemma DecimalsIff(x: real, unit: real)
    requires unit > 0.0
    ensures Decimals(x, unit) <==> Whole(x, unit)
  {
    if Decimals(x, unit) {
      assert x == Units(FloorInt(x / unit), unit);
    }
    if Whole(x, unit) {
      var k: int :| x == Units(k, unit);
      FloorTickGreatest(x, unit, k);
    }
  }

  ghost predicate InRange(amount: real, loss: real, profit: real) {
    && 0.0 < amount <= 1_000_000.0 && 0.0 < loss <= 25.0 && 0.0 < profit <= 100.0
    && Whole(amount, 0.01) && Whole(loss, 0.0001) && Whole(profit, 0.0001)
  }

  lemma AcceptedIff(amount: real, loss: real, profit: real)
    ensures LimitsAccepted(amount, loss, profit) <==> InRange(amount, loss, profit)
  {
    hide Decimals, Whole;
    DecimalsIff(amount, 0.01);
    DecimalsIff(loss, 0.0001);
    DecimalsIff(profit, 0.0001);
  }

  /** Limits are accepted exactly when capital, session and trade percentages lie in their ranges with
      their decimals; the trade percentages default to the session's. */
  lemma LimitsValidIff(r: Requested)
    ensures
      var stop, target := if r.stopPct == None then r.lossPct else r.stopPct.value, if r.targetPct == None then r.profitPct else r.targetPct.value;
      && (ValidateLimits(r).Some? <==> InRange(r.amount, r.lossPct, r.profitPct) && InRange(r.amount, stop, target))
      && (ValidateLimits(r).Some? ==> ValidateLimits(r).value == Limits(r.amount, r.lossPct, r.profitPct, stop, target, r.profitCap))
  {
    var stop, target := if r.stopPct == None then r.lossPct else r.stopPct.value, if r.targetPct == None then r.profitPct else r.targetPct.value;
    AcceptedIff(r.amount, r.lossPct, r.profitPct);
    AcceptedIff(r.amount, stop, target);
    hide InRange;
  }

  // ---------------------------------------------------------------- starting

  /** The stored session of the latest date, if any. */
  ghost predicate IsLatest(sessions: seq<Session>, s: Option<Session>) {
    if s.None? then sessions == [] else s.value in sessions && forall x :: x in sessions ==> x.day <= s.value.day
  }

  lemma {:induction false} LatestIs(sessions: seq<Session>)
    ensures Latest(sessions).None? <==> sessions == []
    ensures Latest(sessions).Some? ==> IsLatest(sessions, Some(sessions[Latest(sessions).value]))
  {
    if sessions != [] {
      var n := |sessions| - 1;
      LatestIs(sessions[..n]);
      assert sessions == sessions[..n] + [sessions[n]];
    }
  }

  /** A completed, untraded session of the day that was not resumed before, until 15:00. */
  predicate MayResume(s: Session, now: int) {
    && s.state == Completed && s.position == None && s.entries == 0 && s.realized == 0.0 && s.resumes == 0
    && TimeOfDay(now) < 900 * MINUTE
  }

  /** The start transaction. On a day that has a session it keeps that session, resumed where it may
      be, and refuses other limits. On a new day it opens a flat running session with the capital as
      cash, unless the last one is unreconciled, it is no market day or past 15:00, the worker is not
      ready, or trading is halted. */
  lemma StartIs(sessions: seq<Session>, request: Requested, env: Env, configured: bool, last: Option<Session>)
    requires last == if Latest(sessions).Some? then Some(sessions[Latest(sessions).value]) else None
    ensures IsLatest(sessions, last)
    ensures
      var r, limits, today := Started(sessions, request, env, configured), ValidateLimits(request), DateOf(env.now);
      if limits == None then r == Err(BadLimits)
      else if last.Some? && last.value.day == today then
        if last.value.limits != limits.value then r == Err(LimitsImmutable)
        else r == Ok(if MayResume(last.value, env.now) then last.value.(state := Running, resumes := 1) else last.value)
      else if last.Some? && (last.value.position.Some? || last.value.state != Completed) then r == Err(PreviousUnreconciled)
      else if today !in env.cal || 900 * MINUTE <= TimeOfDay(env.now) then r == Err(OutsideSession)
      else if !env.enabled || !configured then r == Err(NotConfigured)
      else if env.halted then r == Err(HaltActive)
      else r == Ok(Session(today, limits.value, limits.value.amount, 0.0, 0.0, 0, 0, None, Running, None))
  {
    hide ValidateLimits, IsLatest, Latest;
    LatestIs(sessions);
    if last.None? {
      NothingLatest();
    }
  }

  lemma NothingLatest()
    ensures IsLatest([], None)
  {
  }

  /** Stopping: a session with a position flattens first; one without completes; a completed one stays. */
  lemma StopIs(s: Session)
    ensures Stopped(s) == s.(state := if s.state == Completed || s.position == None then Completed else Stopping)
  {
  }

  // ---------------------------------------------------------------- settling an expired residual

  /** The earliest settlement logged for the position. */
  ghost predicate SettledBefore(events: seq<Event>, id: nat, i: nat) {
    && i < |events| && events[i].PaperSettlement? && events[i].positionId == id
    && forall j :: 0 <= j < i && events[j].PaperSettlement? ==> events[j].positionId != id
  }

  lemma {:induction false} EarliestSettlement(events: seq<Event>, id: nat)
    ensures SettlementOf(events, id).Some? ==> SettledBefore(events, id, SettlementOf(events, id).value)
  {
    if events != [] {
      var n := |events| - 1;
      EarliestSettlement(events[..n], id);
      var before := SettlementOf(events[..n], id);
      if before.Some? {
        assert events[..n][before.value] == events[before.value];
        forall j | 0 <= j < before.value && events[j].PaperSettlement? ensures events[j].positionId != id {
          assert events[..n][j] == events[j];
        }
      } else {
        forall j | 0 <= j < n && events[j].PaperSettlement? ensures events[j].positionId != id {
          assert events[..n][j] == events[j];
        }
      }
    }
  }

  /** A settlement needs a price and costs that are not negative and a reference of 3 to 500
      characters. A repeat of the logged evidence is recognised, any other is refused; a first one is
      taken exactly for the open position of the latest session, after its contract expired. */
  lemma SettlementAnswered(st: State, id: nat, price: real, costs: real, reference: string, now: int)
    ensures
      var answer := AnswerSettlement(st, id, price, costs, reference, now);
      var valid := 0.0 <= price && 0.0 <= costs && 3 <= |reference| <= 500;
      var logged := SettlementOf(st.events, id);
      var latest := Latest(st.sessions);
      var open := latest.Some? && st.sessions[latest.value].position.Some? && st.sessions[latest.value].position.value.id == id;
      && (logged.Some? ==> SettledBefore(st.events, id, logged.value))
      && (answer == BadSettlementInput <==> !valid)
      && (answer == AlreadySettled <==>
            valid && logged.Some? && st.events[logged.value].price == price && st.events[logged.value].costs == costs
            && st.events[logged.value].reference == reference)
      && (answer == DifferentEvidence <==>
            valid && logged.Some? && !(st.events[logged.value].price == price && st.events[logged.value].costs == costs
            && st.events[logged.value].reference == reference))
      && (answer == SettledNow <==>
            valid && logged == None && open && st.sessions[latest.value].position.value.contract.expiry < DateOf(now))
      && (answer == NotExpired <==>
            valid && logged == None && open && DateOf(now) <= st.sessions[latest.value].position.value.contract.expiry)
      && (answer == NoSuchPosition <==> valid && logged == None && !open)
  {
    hide Latest, SettledBefore, SettlementOf;
    EarliestSettlement(st.events, id);
  }

  /** A settlement pays the attested value of all units left, less its costs, against what they still
      cost; the session is flat and completed. */
  lemma SettlementLeaves(s: Session, p: Position, price: real, costs: real)
    requires s.position == Some(p)
    ensures
      var net := price * p.quantity as real - costs;
      var after := Settled(s, p, price, costs);
      after == s.(cash := s.cash + net, realized := s.realized + net - p.costRemaining, pnl := s.realized + net - p.costRemaining,
                  position := None, state := Completed)
  {
  }
}
