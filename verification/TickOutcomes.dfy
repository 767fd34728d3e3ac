/** What a tick and an operator's control make of a day (`tick` and `control` in
    `session_orchestrator.py`), stated on the session's own times and the backend's answers. */
module TickOutcomes {
  import opened Common
  import opened HistoryReplay
  import opened Orchestrator

  /** The health reply is current, not from the future, and every required check passed. */
  predicate Fit(env: Env, now: int, healthAge: nat) {
    && env.health.Returned? && env.health.value.checksPass
    && env.health.value.asOf <= now <= env.health.value.asOf + healthAge * 1_000_000
  }

  function Before(rows: seq<DayRow>, day: int, config: Config): DayRow {
    if RowOf(rows, day).Some? then RowOf(rows, day).value else FreshRow(day, config)
  }

  /** The consent a boot finds: what another boot warmed voids it. */
  function ConsentFor(was: DayRow, id: int): Option<int> {
    if was.warmed == None || was.warmed == Some(id) then was.armed else None
  }

  /** Closing time: the day is disarmed, and complete only with the report of a flat book. */
  predicate ClosesDay(reply: Reply<CloseReply>, after: DayRow) {
    && after.armed == None && !after.entriesAllowed
    && (after.phase == Complete <==> reply.Returned? && reply.value.Flat? && reply.value.report.Returned?)
    && (after.phase == Complete ==> after.report == Some(reply.value.report.value))
    && (after.phase == Closing <==> reply.Returned? && reply.value.Unresolved?)
    && (after.phase == Error <==> reply == Raised || (reply.value.Flat? && reply.value.report == Raised))
  }

  /** Dependencies down: disarmed and blocked, or in error when an adapter raised; from the open on
      the backend still observes, told that entries are not allowed. */
  predicate BlocksDay(env: Env, now: int, opens: int, after: DayRow, observed: Option<bool>) {
    && after.armed == None && !after.entriesAllowed
    && observed == (if env.health.Returned? && opens <= now then Some(false) else None)
    && (after.phase == Error <==> env.health == Raised || (opens <= now && env.observe == Raised))
    && (after.phase == Blocked <==> env.health.Returned? && (now < opens || env.observe.Returned?))
  }

  /** A fit and warm boot from the observation delay on. */
  predicate ObservesDay(env: Env, allowed: bool, consent: Option<int>, after: DayRow, observed: Option<bool>) {
    && observed == Some(allowed)
    && (after.phase == Error <==> env.observe == Raised)
    && (after.phase == Observing <==> env.observe.Returned? && allowed)
    && (after.phase == ObservingNoEntries <==> env.observe.Returned? && !allowed)
    && after.armed == (if env.observe == Raised then None else consent)
    && after.entriesAllowed == (allowed && env.observe.Returned?)
  }

  /** One tick of a day. */
  predicate TickLeaves(was: DayRow, boot: Boot, s: MarketSession, now: int, env: Env, after: DayRow, observed: Option<bool>) {
    var opens, closes, plan := OpensAt(s), ClosesAt(s), boot.config.schedule;
    var consent := ConsentFor(was, boot.id);
    && after.day == was.day && after.config == was.config && after.lastTick == Some(now)
    && after.events == was.events && after.operator == was.operator
    && (if was.phase == Complete then after.phase == Complete && after.report == was.report && observed == None && after.armed == consent
        else if closes <= now then ClosesDay(env.close(was.day), after) && observed == None
        else
          && after.report == was.report
          && if now < opens - plan.premarket * 1_000_000 then after.phase == Waiting && after.armed == consent && observed == None
             else if !Fit(env, now, plan.healthAge) then BlocksDay(env, now, opens, after, observed) && after.warmed == was.warmed
             else if was.warmed != Some(boot.id) && env.warm != Returned(true)
             then after.phase == Error && after.armed == None && after.warmed == was.warmed && observed == None
             else if now < opens + plan.delay * 1_000_000
             then after.phase == Ready && after.armed == consent && after.warmed == Some(boot.id) && observed == None
             else
               && after.warmed == Some(boot.id)
               && ObservesDay(env, consent == Some(boot.id) && now < closes - plan.cutoff * 1_000_000, consent, after, observed))
  }

  lemma DayTickLeaves(boot: Boot, s: MarketSession, row: DayRow, now: int, env: Env)
    ensures
      var d := DayTick(boot, s, Taken(row, boot, now), now, env);
      TickLeaves(row, boot, s, now, env, d.row, d.observed)
  {
    hide OpensAt, ClosesAt;
  }

  /** A tick answers for its day exactly when every earlier day is complete or closes now, the
      calendar declares the day, its row is bound to this configuration, and time has moved on; it
      then leaves the day as `TickLeaves` says. Otherwise the day's row is untouched and the backend
      is not asked to observe. */
  lemma TickAnswersIff(rows: seq<DayRow>, boot: Boot, now: int, env: Env)
    requires Valid(rows)
    ensures
      var day := DateOf(now);
      var session, was := SessionOn(boot.config.calendar, day), Before(rows, day, boot.config);
      var t := TickOf(rows, boot, now, env);
      && (t.answer.Answered? <==>
            && AllClosable(rows, 0, day, boot, env) && session.Some? && was.config == boot.config
            && (was.lastTick.Some? ==> was.lastTick.value < now))
      && (t.answer.Answered? ==>
            && RowOf(t.rows, day) == Some(t.answer.row)
            && TickLeaves(was, boot, session.value, now, env, t.answer.row, t.observed))
      && (!t.answer.Answered? ==> t.observed == None && RowOf(t.rows, day) == RowOf(rows, day))
  {
    hide Valid, Saved, DateOf, SessionOn, IndexOf, DayTick, Taken, CloseOlder, AllClosable, Loaded, TickLeaves;
    var day := DateOf(now);
    CloseOlderIff(rows, 0, day, boot, env);
    CloseOlderKeeps(rows, 0, day, boot, env, day);
    var older := CloseOlder(rows, 0, day, boot, env);
    if older.AllComplete? {
      LoadedIff(older.rows, day, boot.config);
      var session, loaded := SessionOn(boot.config.calendar, day), Loaded(older.rows, day, boot.config);
      if session.Some? && loaded.Ok? {
        LoadedIs(older.rows, day, boot.config);
        CompleteUnarmed(older.rows, day);
        DayTickLeaves(boot, session.value, loaded.value, now, env);
        DayTickKeeps(boot, session.value, loaded.value, now, env);
        SavedRow(older.rows, DayTick(boot, session.value, Taken(loaded.value, boot, now), now, env).row, day);
      }
    }
  }

  /** The sweep over earlier days, which the tick makes first. It closes an unfinished day exactly
      when every day before that one is complete or closes now, as `ClosesDay` says, and leaves all
      other rows alone. */
  lemma {:induction false} SweepLeaves(rows: seq<DayRow>, i: nat, day: int, boot: Boot, env: Env, k: nat)
    requires Valid(rows) && i <= k < |rows| && !CloseOlder(rows, i, day, boot, env).Refused?
    ensures |CloseOlder(rows, i, day, boot, env).rows| == |rows|
    ensures
      var was, after := rows[k], CloseOlder(rows, i, day, boot, env).rows[k];
      if was.day < day && was.phase != Complete && AllClosable(rows, i, was.day, boot, env)
      then was.config == boot.config && ClosesDay(env.close(was.day), after) && after.day == was.day && after.config == was.config
           && after.events == was.events && after.operator == was.operator && after.warmed == was.warmed && after.lastTick == was.lastTick
      else after == was
    decreases |rows| - i
  {
    if i < |rows| && rows[i].day < day {
      var row := Closed(rows[i].(entriesAllowed := false), env.close(rows[i].day));
      ClosedDay(rows[i].(entriesAllowed := false), env.close(rows[i].day));
      if i < k {
        ClosableStep(rows, i, row, rows[k].day, boot, env);
        assert rows[i].day < rows[k].day;
      }
      hide Closed, ClosesDay, AllClosable;
      if rows[i].phase.Complete? {
        if i < k {
          SweepLeaves(rows, i + 1, day, boot, env, k);
        } else {
          SweepBefore(rows, i + 1, day, boot, env, k);
        }
      } else if row.phase.Complete? {
        UpdatedRow(rows, i, row, 0);
        if i < k {
          SweepLeaves(rows[i := row], i + 1, day, boot, env, k);
        } else {
          SweepBefore(rows[i := row], i + 1, day, boot, env, k);
          NothingBefore(rows, i, boot, env);
        }
      } else if i == k {
        NothingBefore(rows, i, boot, env);
      }
    }
  }

  lemma NothingBefore(rows: seq<DayRow>, i: nat, boot: Boot, env: Env)
    requires Valid(rows) && i < |rows|
    ensures AllClosable(rows, i, rows[i].day, boot, env)
  {
  }

  lemma ClosedDay(row: DayRow, reply: Reply<CloseReply>)
    requires !row.entriesAllowed
    ensures
      var after := Closed(row, reply);
      && ClosesDay(reply, after) && after.day == row.day && after.config == row.config && after.events == row.events
      && after.operator == row.operator && after.warmed == row.warmed && after.lastTick == row.lastTick
  {
  }

  lemma {:induction false} SweepBefore(rows: seq<DayRow>, i: nat, day: int, boot: Boot, env: Env, k: nat)
    requires k < i && k < |rows| && !CloseOlder(rows, i, day, boot, env).Refused?
    ensures |CloseOlder(rows, i, day, boot, env).rows| == |rows| && CloseOlder(rows, i, day, boot, env).rows[k] == rows[k]
    decreases |rows| - i
  {
    hide Closed;
    if i < |rows| && rows[i].day < day {
      var row := Closed(rows[i].(entriesAllowed := false), env.close(rows[i].day));
      if rows[i].phase.Complete? {
        SweepBefore(rows, i + 1, day, boot, env, k);
      } else if row.phase.Complete? {
        SweepBefore(rows[i := row], i + 1, day, boot, env, k);
      }
    }
  }

  /** A boot whose health is stale, future-dated, failing or unreadable gets no entries in the active
      window: an answered tick ends disarmed, blocked or in error, and tells the backend so once the
      market is open. */
  lemma UnfitTickDisarms(rows: seq<DayRow>, boot: Boot, now: int, env: Env)
    requires Valid(rows) && TickOf(rows, boot, now, env).answer.Answered?
    requires !Fit(env, now, boot.config.schedule.healthAge)
    requires Before(rows, DateOf(now), boot.config).phase != Complete && SessionOn(boot.config.calendar, DateOf(now)).Some?
    requires
      var s := SessionOn(boot.config.calendar, DateOf(now)).value;
      OpensAt(s) - boot.config.schedule.premarket * 1_000_000 <= now < ClosesAt(s)
    ensures
      var opens := OpensAt(SessionOn(boot.config.calendar, DateOf(now)).value);
      var t := TickOf(rows, boot, now, env);
      && RowOf(t.rows, DateOf(now)).Some? && RowOf(t.rows, DateOf(now)).value.armed == None
      && t.observed == (if env.health.Returned? && opens <= now then Some(false) else None)
      && RowOf(t.rows, DateOf(now)).value.phase ==
           if env.health == Raised || (opens <= now && env.observe == Raised) then Error else Blocked
  {
    hide Valid, DateOf, TickOf, SessionOn, RowOf, OpensAt, ClosesAt, AllClosable;
    TickAnswersIff(rows, boot, now, env);
  }

  /** Operator control takes effect exactly for a named operator, on a declared and unfinished day
      bound to this configuration, and for RUN inside the activation window. It sets or clears the
      consent and records itself; the rest of the day, and every other day, stays. */
  lemma ControlTakesEffectIff(rows: seq<DayRow>, boot: Boot, now: int, action: Action, operator: string, d: int)
    requires Valid(rows)
    ensures
      var day := DateOf(now);
      var session, was := SessionOn(boot.config.calendar, day), Before(rows, day, boot.config);
      var plan := boot.config.schedule;
      var r := Controlled(rows, boot, now, action, operator);
      && (r.Ok? <==>
            && !Blank(operator) && session.Some? && was.config == boot.config && was.phase != Complete
            && (action == RUN ==> OpensAt(session.value) - plan.premarket * 1_000_000 <= now < ClosesAt(session.value) - plan.cutoff * 1_000_000))
      && (r.Ok? ==>
            RowOf(r.value, d) ==
              if d == day then Some(was.(armed := if action == RUN then Some(boot.id) else None, operator := Some(operator),
                                         events := was.events + [Consent(now, action, operator)]))
              else RowOf(rows, d))
  {
    hide Valid, Saved, Loaded, DateOf, SessionOn, IndexOf, OpensAt, ClosesAt, Blank;
    var day := DateOf(now);
    LoadedIff(rows, day, boot.config);
    if Loaded(rows, day, boot.config).Ok? {
      LoadedIs(rows, day, boot.config);
      var was := Loaded(rows, day, boot.config).value;
      if !was.phase.Complete? {
        SavedRow(rows, was.(armed := if action.RUN? then Some(boot.id) else None, operator := Some(operator),
                            events := was.events + [Consent(now, action, operator)]), d);
      }
    }
  }
}
