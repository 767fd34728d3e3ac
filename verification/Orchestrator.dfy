/** The durable paper-session lifecycle with its manual arming latch (`session_orchestrator.py`).
    Several processes ("boots") may share one session file; each call is one transaction. */
module Orchestrator {
  import opened Common
  import opened HistoryReplay

  // ---------------------------------------------------------------- configuration

  datatype Schedule = Schedule(premarket: nat, delay: nat, cutoff: nat, healthAge: nat)

  /** Schedule and calendar; their hash binds stored sessions to them. */
  datatype Settings = Settings(calendar: Calendar, schedule: Schedule)
  {
    /** What the two constructors demand. */
    predicate Valid() {
      && schedule.healthAge > 0 && schedule.cutoff > 0
      && forall k :: 0 <= k < |calendar| ==> ObservesFrom(calendar[k]) < EntriesUntil(calendar[k])
    }

    function ObservesFrom(s: MarketSession): int {
      OpensAt(s) + schedule.delay * SECOND
    }

    function EntriesUntil(s: MarketSession): int {
      ClosesAt(s) - schedule.cutoff * SECOND
    }

    function ActiveFrom(s: MarketSession): int {
      OpensAt(s) - schedule.premarket * SECOND
    }
  }

  type Config = c: Settings | c.Valid() witness Settings([], Schedule(900, 0, 900, 30))

  /** One process: its random identity and its configuration. */
  datatype Boot = Boot(id: int, config: Config)

  // ---------------------------------------------------------------- stored sessions

  datatype Phase = Waiting | Blocked | Ready | Observing | ObservingNoEntries | Closing | Complete | Error

  datatype Action = RUN | STOP

  datatype Consent = Consent(at: int, action: Action, operator: string)

  datatype DayRow = DayRow(day: int, config: Config, phase: Phase, armed: Option<int>, operator: Option<string>,
                           warmed: Option<int>, lastTick: Option<int>, entriesAllowed: bool,
                           events: seq<Consent>, report: Option<int>)

  function FreshRow(day: int, config: Config): DayRow {
    DayRow(day, config, Waiting, None, None, None, None, false, [], None)
  }

  /** The table, in order of its primary key, the exchange date. */
  ghost predicate Valid(rows: seq<DayRow>) {
    && (forall i, j :: 0 <= i < j < |rows| ==> rows[i].day < rows[j].day)
    && (forall i :: 0 <= i < |rows| ==> rows[i].phase.Complete? ==> rows[i].armed.None?)
  }

  function IndexOf(rows: seq<DayRow>, day: int): (r: Option<nat>)
    ensures r.Some? ==> r.value < |rows| && rows[r.value].day == day
    ensures r.None? ==> forall i :: 0 <= i < |rows| ==> rows[i].day != day
  {
    if rows == [] then None
    else
      var n := |rows| - 1;
      if rows[n].day == day then Some(n) else IndexOf(rows[..n], day)
  }

  function Insert(rows: seq<DayRow>, row: DayRow): seq<DayRow> {
    if rows == [] then [row]
    else
      var n := |rows| - 1;
      if row.day < rows[n].day then Insert(rows[..n], row) + [rows[n]] else rows + [row]
  }

  /** Insert or update by day; an update keeps the stored binding. */
  function Saved(rows: seq<DayRow>, row: DayRow): seq<DayRow> {
    var i := IndexOf(rows, row.day);
    if i.None? then Insert(rows, row) else rows[i.value := row.(config := rows[i.value].config)]
  }

  datatype Failure = InvalidControl | NoSession | OutsideActivation | BindingChanged | AlreadyComplete | TicksMustIncrease

  /** `_load`: the stored row, or a fresh one; a row bound to another configuration is refused. */
  function Loaded(rows: seq<DayRow>, day: int, config: Config): Result<DayRow, Failure> {
    var i := IndexOf(rows, day);
    if i.None? then Ok(FreshRow(day, config))
    else if rows[i.value].config != config then Err(BindingChanged)
    else Ok(rows[i.value])
  }

  // ---------------------------------------------------------------- the backend's answers

  /** An adapter call that may raise. */
  datatype Reply<+T> = Raised | Returned(value: T)

  datatype Health = Health(asOf: int, checksPass: bool)

  /** The close adapter's answer; the report follows when nothing is unresolved. */
  datatype CloseReply = Unresolved | Flat(report: Reply<int>)

  /** What the backend answers during one tick. */
  datatype Env = Env(health: Reply<Health>, warm: Reply<bool>, observe: Reply<()>, close: int -> Reply<CloseReply>)

  // ---------------------------------------------------------------- operator control

  function Controlled(rows: seq<DayRow>, boot: Boot, now: int, action: Action, operator: string): Result<seq<DayRow>, Failure> {
    var day := DateOf(now);
    var session := SessionOn(boot.config.calendar, day);
    if Blank(operator) then Err(InvalidControl)
    else if session.None? then Err(NoSession)
    else if action.RUN? && !(boot.config.ActiveFrom(session.value) <= now < boot.config.EntriesUntil(session.value)) then Err(OutsideActivation)
    else
      var row := Loaded(rows, day, boot.config);
      if row.Err? then Err(row.error)
      else if row.value.phase.Complete? then Err(AlreadyComplete)
      else Ok(Saved(rows, row.value.(armed := if action.RUN? then Some(boot.id) else None, operator := Some(operator),
                                     events := row.value.events + [Consent(now, action, operator)])))
  }

  // ---------------------------------------------------------------- one day

  /** What an adapter failure leaves: no consent, no entries. */
  function Failed(row: DayRow): DayRow {
    row.(phase := Error, armed := None, entriesAllowed := false)
  }

  function Closed(row: DayRow, reply: Reply<CloseReply>): DayRow {
    var closing := row.(armed := None, phase := Closing);
    match reply
    case Raised => Failed(closing)
    case Returned(Unresolved) => closing
    case Returned(Flat(Raised)) => Failed(closing)
    case Returned(Flat(Returned(report))) => closing.(report := Some(report), phase := Complete)
  }

  /** A row after a tick, and what `observe` was told about entries, if it was called. */
  datatype DayOutcome = DayOutcome(row: DayRow, observed: Option<bool>)

  predicate Healthy(config: Config, health: Health, now: int) {
    0 <= now - health.asOf <= config.schedule.healthAge * SECOND && health.checksPass
  }

  function Observed(row: DayRow, reply: Reply<()>, allowed: bool): DayOutcome {
    DayOutcome(if reply.Raised? then Failed(row) else row.(entriesAllowed := allowed), Some(allowed))
  }

  function DayTick(boot: Boot, session: MarketSession, row: DayRow, now: int, env: Env): DayOutcome {
    var config := boot.config;
    if row.phase.Complete? then DayOutcome(row, None)
    else if now >= ClosesAt(session) then DayOutcome(Closed(row, env.close(row.day)), None)
    else if now < config.ActiveFrom(session) then DayOutcome(row.(phase := Waiting), None)
    else if env.health.Raised? then DayOutcome(Failed(row), None)
    else if !Healthy(config, env.health.value, now) then
      var blocked := row.(phase := Blocked, armed := None);
      if now >= OpensAt(session) then Observed(blocked, env.observe, false) else DayOutcome(blocked, None)
    else if row.warmed != Some(boot.id) && env.warm != Returned(true) then DayOutcome(Failed(row), None)
    else
      var warm := row.(warmed := Some(boot.id));
      if now < config.ObservesFrom(session) then DayOutcome(warm.(phase := Ready), None)
      else
        var allowed := warm.armed == Some(boot.id) && now < config.EntriesUntil(session);
        Observed(warm.(phase := if allowed then Observing else ObservingNoEntries), env.observe, allowed)
  }

  /** The row as a tick finds it: consent given to another boot's warm-up is void. */
  function Taken(row: DayRow, boot: Boot, now: int): DayRow {
    var row := row.(lastTick := Some(now), entriesAllowed := false);
    if row.warmed.Some? && row.warmed != Some(boot.id) then row.(armed := None) else row
  }

  // ---------------------------------------------------------------- the tick

  datatype Older = AllComplete(rows: seq<DayRow>) | Stuck(rows: seq<DayRow>) | Refused(failure: Failure)

  /** Older unfinished days are closed in date order before anything else; the first that stays
      unfinished ends the tick. */
  function CloseOlder(rows: seq<DayRow>, i: nat, day: int, boot: Boot, env: Env): Older
    decreases |rows| - i
  {
    if i >= |rows| || rows[i].day >= day then AllComplete(rows)
    else if rows[i].phase.Complete? then CloseOlder(rows, i + 1, day, boot, env)
    else if rows[i].config != boot.config then Refused(BindingChanged)
    else
      var row := Closed(rows[i].(entriesAllowed := false), env.close(rows[i].day));
      if !row.phase.Complete? then Stuck(rows[i := row]) else CloseOlder(rows[i := row], i + 1, day, boot, env)
  }

  datatype Answer = Answered(row: DayRow) | OlderUnfinished | ClosedCalendar | Refusal(failure: Failure)

  datatype Ticked = Ticked(rows: seq<DayRow>, answer: Answer, observed: Option<bool>)

  /** `tick`; a refusal rolls everything back. */
  function TickOf(rows: seq<DayRow>, boot: Boot, now: int, env: Env): Ticked {
    var day := DateOf(now);
    match CloseOlder(rows, 0, day, boot, env)
    case Refused(failure) => Ticked(rows, Refusal(failure), None)
    case Stuck(closed) => Ticked(closed, OlderUnfinished, None)
    case AllComplete(closed) =>
      var session := SessionOn(boot.config.calendar, day);
      if session.None? then Ticked(closed, ClosedCalendar, None)
      else
        var row := Loaded(closed, day, boot.config);
        if row.Err? then Ticked(rows, Refusal(row.error), None)
        else if row.value.lastTick.Some? && now <= row.value.lastTick.value then Ticked(rows, Refusal(TicksMustIncrease), None)
        else
          var d := DayTick(boot, session.value, Taken(row.value, boot, now), now, env);
          Ticked(Saved(closed, d.row), Answered(d.row), d.observed)
  }

  // ---------------------------------------------------------------- runs

  datatype Op =
    | Control(boot: Boot, now: int, action: Action, operator: string)
    | DoTick(boot: Boot, now: int, env: Env)

  function Step(rows: seq<DayRow>, op: Op): seq<DayRow> {
    match op
    case Control(boot, now, action, operator) =>
      var r := Controlled(rows, boot, now, action, operator);
      if r.Ok? then r.value else rows
    case DoTick(boot, now, env) => TickOf(rows, boot, now, env).rows
  }

  function Run(rows: seq<DayRow>, ops: seq<Op>): seq<DayRow>
    decreases |ops|
  {
    if ops == [] then rows else Run(Step(rows, ops[0]), ops[1..])
  }

  /** The stored row of a day. */
  function RowOf(rows: seq<DayRow>, day: int): Option<DayRow> {
    var i := IndexOf(rows, day);
    if i.Some? then Some(rows[i.value]) else None
  }

  // ---------------------------------------------------------------- table lemmas

  lemma IndexIs(rows: seq<DayRow>, i: nat)
    requires Valid(rows) && i < |rows|
    ensures IndexOf(rows, rows[i].day) == Some(i)
  {
  }

  lemma {:induction false} InsertMembers(rows: seq<DayRow>, row: DayRow)
    ensures forall x :: x in Insert(rows, row) <==> x in rows || x == row
  {
    if rows != [] && row.day < rows[|rows| - 1].day {
      InsertMembers(rows[..|rows| - 1], row);
      assert rows == rows[..|rows| - 1] + [rows[|rows| - 1]];
    }
  }

  lemma {:induction false} InsertKeeps(rows: seq<DayRow>, row: DayRow)
    requires Valid(rows) && IndexOf(rows, row.day).None? && (row.phase.Complete? ==> row.armed.None?)
    ensures Valid(Insert(rows, row))
  {
    if rows != [] {
      var n := |rows| - 1;
      if row.day < rows[n].day {
        InsertKeeps(rows[..n], row);
        InsertMembers(rows[..n], row);
        var front := Insert(rows[..n], row);
        forall i | 0 <= i < |front| ensures front[i].day < rows[n].day {
          assert front[i] in front;
        }
      }
    }
  }

  lemma {:induction false} IndexByDays(a: seq<DayRow>, b: seq<DayRow>, day: int)
    requires |a| == |b| && forall k :: 0 <= k < |a| ==> a[k].day == b[k].day
    ensures IndexOf(a, day) == IndexOf(b, day)
  {
    if a != [] {
      IndexByDays(a[..|a| - 1], b[..|b| - 1], day);
    }
  }

  lemma UpdatedRow(rows: seq<DayRow>, i: nat, row: DayRow, day: int)
    requires Valid(rows) && i < |rows| && rows[i].day == row.day && (row.phase.Complete? ==> row.armed.None?)
    ensures Valid(rows[i := row])
    ensures RowOf(rows[i := row], day) == if day == row.day then Some(row) else RowOf(rows, day)
  {
    IndexIs(rows, i);
    IndexByDays(rows, rows[i := row], day);
  }

  /** Saving changes the one row and no other. */
  lemma SavedRow(rows: seq<DayRow>, row: DayRow, day: int)
    requires Valid(rows) && (row.phase.Complete? ==> row.armed.None?)
    requires RowOf(rows, row.day).Some? ==> RowOf(rows, row.day).value.config == row.config
    ensures Valid(Saved(rows, row))
    ensures RowOf(Saved(rows, row), day) == if day == row.day then Some(row) else RowOf(rows, day)
  {
    hide Valid;
    var i := IndexOf(rows, row.day);
    if i.None? {
      InsertKeeps(rows, row);
      InsertMembers(rows, row);
      RowsByMembership(rows, Saved(rows, row), row, day);
    } else {
      assert row.(config := rows[i.value].config) == row;
      UpdatedRow(rows, i.value, row, day);
    }
  }

  lemma RowsByMembership(rows: seq<DayRow>, after: seq<DayRow>, row: DayRow, day: int)
    requires Valid(rows) && Valid(after) && IndexOf(rows, row.day).None?
    requires forall x :: x in after <==> x in rows || x == row
    ensures RowOf(after, day) == if day == row.day then Some(row) else RowOf(rows, day)
  {
    MemberIsRow(after, row);
    if day != row.day {
      if RowOf(rows, day).Some? {
        var x := RowOf(rows, day).value;
        assert x in rows;
        MemberIsRow(after, x);
      } else if RowOf(after, day).Some? {
        var x := RowOf(after, day).value;
        assert x in after;
        MemberIsRow(rows, x);
      }
    }
  }

  lemma MemberIsRow(rows: seq<DayRow>, x: DayRow)
    requires Valid(rows)
    ensures x in rows ==> RowOf(rows, x.day) == Some(x)
  {
    if x in rows {
      var i :| 0 <= i < |rows| && rows[i] == x;
      IndexIs(rows, i);
    }
  }

  // ---------------------------------------------------------------- what every call keeps

  lemma LoadedIs(rows: seq<DayRow>, day: int, config: Config)
    requires Loaded(rows, day, config).Ok?
    ensures
      var row := Loaded(rows, day, config).value;
      && row.day == day && row.config == config
      && (if RowOf(rows, day).Some? then row == RowOf(rows, day).value else row == FreshRow(day, config))
  {
  }

  lemma ClosedIs(row: DayRow, reply: Reply<CloseReply>)
    ensures
      var after := Closed(row, reply);
      && after.day == row.day && after.config == row.config && after.armed.None? && after.warmed == row.warmed
      && (after.phase.Closing? || after.phase.Complete? || after.phase.Error?)
  {
  }

  /** The sweep over older days touches only unfinished days before `day`, and each one it touches
      ends without consent; days it passes are complete. */
  lemma {:induction false} CloseOlderKeeps(rows: seq<DayRow>, i: nat, day: int, boot: Boot, env: Env, d: int)
    requires Valid(rows)
    ensures
      match CloseOlder(rows, i, day, boot, env)
      case Refused(_) => true
      case Stuck(after) => Valid(after) && SweptRow(RowOf(rows, d), RowOf(after, d), d < day)
      case AllComplete(after) =>
        && Valid(after) && |after| == |rows| && SweptRow(RowOf(rows, d), RowOf(after, d), d < day)
        && (forall k :: i <= k < |after| && after[k].day < day ==> after[k].phase.Complete?)
        && (forall k :: 0 <= k < i && k < |after| ==> after[k] == rows[k])
    decreases |rows| - i
  {
    hide Closed, RowOf;
    if i < |rows| && rows[i].day < day {
      hide Valid;
      if rows[i].phase.Complete? {
        CloseOlderKeeps(rows, i + 1, day, boot, env, d);
      } else if rows[i].config == boot.config {
        var was := rows[i].(entriesAllowed := false);
        ClosedIs(was, env.close(rows[i].day));
        var row := Closed(was, env.close(rows[i].day));
        UpdatedRow(rows, i, row, d);
        MemberIsRow(rows, rows[i]);
        if row.phase.Complete? {
          CloseOlderKeeps(rows[i := row], i + 1, day, boot, env, d);
        }
      }
    }
  }

  /** What a tick may do to the row of an older day. */
  predicate SweptRow(before: Option<DayRow>, after: Option<DayRow>, older: bool) {
    || after == before
    || (older && before.Some? && after.Some? && !before.value.phase.Complete? && after.value.armed.None?
        && after.value.config == before.value.config)
  }

  predicate SameConsent(before: DayRow, after: DayRow) {
    && after.day == before.day && after.config == before.config
    && (after.armed.None? || after.armed == before.armed)
    && (before.phase.Complete? ==> after.phase.Complete? && after.report == before.report)
    && (after.phase.Complete? && !before.phase.Complete? ==> after.armed.None?)
  }

  lemma DayTickKeeps(boot: Boot, session: MarketSession, row: DayRow, now: int, env: Env)
    ensures SameConsent(row, DayTick(boot, session, Taken(row, boot, now), now, env).row)
  {
    hide OpensAt, ClosesAt, Healthy;
  }

  predicate Arms(op: Op, id: int, day: int) {
    op.Control? && op.action.RUN? && op.boot.id == id && DateOf(op.now) == day
  }

  /** What one call may do to a day's row: its binding stays, completion is final and keeps its
      report, and only a RUN by a boot on that day gives that boot consent. */
  ghost predicate Evolves(before: Option<DayRow>, after: Option<DayRow>, op: Op, day: int) {
    && (before.Some? ==> after.Some? && after.value.config == before.value.config)
    && (before.Some? && before.value.phase.Complete? ==> after.value.phase.Complete? && after.value.report == before.value.report)
    && (after.Some? && after.value.armed.Some? ==>
          Arms(op, after.value.armed.value, day) || (before.Some? && before.value.armed == after.value.armed))
  }

  lemma ControlKeeps(rows: seq<DayRow>, boot: Boot, now: int, action: Action, operator: string, d: int)
    requires Valid(rows)
    ensures
      var op := Control(boot, now, action, operator);
      Valid(Step(rows, op)) && Evolves(RowOf(rows, d), RowOf(Step(rows, op), d), op, d)
  {
    hide Valid, Saved, Loaded, DateOf, SessionOn, IndexOf;
    var r := Controlled(rows, boot, now, action, operator);
    if r.Ok? {
      LoadedIs(rows, DateOf(now), boot.config);
      var row := Loaded(rows, DateOf(now), boot.config).value.(
        armed := if action.RUN? then Some(boot.id) else None, operator := Some(operator),
        events := Loaded(rows, DateOf(now), boot.config).value.events + [Consent(now, action, operator)]);
      SavedRow(rows, row, d);
    }
  }

  lemma TickKeeps(rows: seq<DayRow>, boot: Boot, now: int, env: Env, d: int)
    requires Valid(rows)
    ensures
      var op := DoTick(boot, now, env);
      Valid(Step(rows, op)) && Evolves(RowOf(rows, d), RowOf(Step(rows, op), d), op, d)
  {
    hide Valid, Saved, Loaded, DateOf, SessionOn, IndexOf, DayTick, Taken, CloseOlder;
    var day := DateOf(now);
    CloseOlderKeeps(rows, 0, day, boot, env, d);
    CloseOlderKeeps(rows, 0, day, boot, env, day);
    var older := CloseOlder(rows, 0, day, boot, env);
    if older.AllComplete? {
      var closed := older.rows;
      var session := SessionOn(boot.config.calendar, day);
      var row := Loaded(closed, day, boot.config);
      if session.Some? && row.Ok? {
        LoadedIs(closed, day, boot.config);
        DayTickKeeps(boot, session.value, row.value, now, env);
        var after := DayTick(boot, session.value, Taken(row.value, boot, now), now, env).row;
        CompleteUnarmed(closed, day);
        SavedRow(closed, after, d);
      }
    }
  }

  lemma CompleteUnarmed(rows: seq<DayRow>, day: int)
    requires Valid(rows)
    ensures RowOf(rows, day).Some? && RowOf(rows, day).value.phase.Complete? ==> RowOf(rows, day).value.armed.None?
  {
  }

  lemma StepKeeps(rows: seq<DayRow>, op: Op, d: int)
    requires Valid(rows)
    ensures Valid(Step(rows, op)) && Evolves(RowOf(rows, d), RowOf(Step(rows, op), d), op, d)
  {
    hide Valid, Evolves, Controlled, TickOf;
    match op
    case Control(boot, now, action, operator) => ControlKeeps(rows, boot, now, action, operator, d);
    case DoTick(boot, now, env) => TickKeeps(rows, boot, now, env, d);
  }

  // ---------------------------------------------------------------- the gate

  predicate CloseSucceeds(reply: Reply<CloseReply>) {
    reply.Returned? && reply.value.Flat? && reply.value.report.Returned?
  }

  predicate OldClosable(row: DayRow, boot: Boot, env: Env) {
    row.phase.Complete? || (row.config == boot.config && CloseSucceeds(env.close(row.day)))
  }

  /** Every unfinished day before `day`, from the `i`th row on, can be closed now. */
  ghost predicate AllClosable(rows: seq<DayRow>, i: nat, day: int, boot: Boot, env: Env) {
    forall k :: i <= k < |rows| && rows[k].day < day ==> OldClosable(rows[k], boot, env)
  }

  lemma ClosableStep(rows: seq<DayRow>, i: nat, row: DayRow, day: int, boot: Boot, env: Env)
    requires i < |rows| && rows[i].day < day
    ensures AllClosable(rows, i, day, boot, env) <==> OldClosable(rows[i], boot, env) && AllClosable(rows, i + 1, day, boot, env)
    ensures AllClosable(rows[i := row], i + 1, day, boot, env) <==> AllClosable(rows, i + 1, day, boot, env)
  {
    hide OldClosable;
    var after := rows[i := row];
    if AllClosable(after, i + 1, day, boot, env) {
      forall k | i + 1 <= k < |rows| && rows[k].day < day ensures OldClosable(rows[k], boot, env) {
        assert after[k] == rows[k];
      }
    }
  }

  lemma {:induction false} CloseOlderIff(rows: seq<DayRow>, i: nat, day: int, boot: Boot, env: Env)
    requires Valid(rows)
    ensures CloseOlder(rows, i, day, boot, env).AllComplete? <==> AllClosable(rows, i, day, boot, env)
    decreases |rows| - i
  {
    if i < |rows| && rows[i].day < day {
      var row := Closed(rows[i].(entriesAllowed := false), env.close(rows[i].day));
      ClosableStep(rows, i, row, day, boot, env);
      if rows[i].phase.Complete? {
        CloseOlderIff(rows, i + 1, day, boot, env);
      } else {
        UpdatedRow(rows, i, row, day);
        if row.phase.Complete? {
          CloseOlderIff(rows[i := row], i + 1, day, boot, env);
        }
      }
    }
  }

  /** Everything a boot needs for entries on a day, stated on the file before the tick and on what
      the backend answers. */
  predicate Cleared(row: DayRow, boot: Boot, session: MarketSession, now: int, env: Env) {
    && row.config == boot.config
    && row.armed == Some(boot.id) && (row.warmed.None? || row.warmed == Some(boot.id))
    && (row.lastTick.None? || row.lastTick.value < now)
    && env.health.Returned? && env.health.value.checksPass
    && env.health.value.asOf <= now <= env.health.value.asOf + boot.config.schedule.healthAge * SECOND
    && (row.warmed == Some(boot.id) || env.warm == Returned(true))
    && OpensAt(session) + boot.config.schedule.delay * SECOND <= now < ClosesAt(session) - boot.config.schedule.cutoff * SECOND
  }

  lemma DayTickAllows(boot: Boot, session: MarketSession, row: DayRow, now: int, env: Env)
    requires row.config == boot.config && (row.phase.Complete? ==> row.armed.None?)
    requires row.lastTick.None? || row.lastTick.value < now
    ensures DayTick(boot, session, Taken(row, boot, now), now, env).observed == Some(true) <==> Cleared(row, boot, session, now, env)
  {
    hide Closed, OpensAt, ClosesAt;
    assert boot.config.ActiveFrom(session) <= OpensAt(session) <= boot.config.ObservesFrom(session);
    assert boot.config.EntriesUntil(session) <= ClosesAt(session);
  }

  /** The gate, exactly: a tick tells the backend that entries are allowed if and only if the boot
      holds consent given by itself, is healthy and warm (or warms now), the instant lies between
      the observation delay and the entry cutoff, and every earlier unfinished day closes now. */
  lemma EntriesAllowedIff(rows: seq<DayRow>, boot: Boot, now: int, env: Env)
    requires Valid(rows)
    ensures
      var session, row := SessionOn(boot.config.calendar, DateOf(now)), RowOf(rows, DateOf(now));
      TickOf(rows, boot, now, env).observed == Some(true) <==>
        && session.Some? && row.Some? && AllClosable(rows, 0, DateOf(now), boot, env)
        && Cleared(row.value, boot, session.value, now, env)
  {
    hide Valid, Saved, DateOf, SessionOn, IndexOf, DayTick, Taken, CloseOlder, AllClosable, Loaded;
    var day := DateOf(now);
    CloseOlderIff(rows, 0, day, boot, env);
    CloseOlderKeeps(rows, 0, day, boot, env, day);
    var older := CloseOlder(rows, 0, day, boot, env);
    if older.AllComplete? {
      var session := SessionOn(boot.config.calendar, day);
      var row := Loaded(older.rows, day, boot.config);
      LoadedIff(older.rows, day, boot.config);
      if session.Some? && row.Ok? {
        LoadedIs(older.rows, day, boot.config);
        CompleteUnarmed(older.rows, day);
        if row.value.lastTick.None? || row.value.lastTick.value < now {
          DayTickAllows(boot, session.value, row.value, now, env);
          assert TickOf(rows, boot, now, env).observed == Some(true) <==> Cleared(row.value, boot, session.value, now, env);
          assert RowOf(rows, day).None? ==> !Cleared(row.value, boot, session.value, now, env);
        } else {
          assert TickOf(rows, boot, now, env).observed.None?;
        }
      } else {
        assert TickOf(rows, boot, now, env).observed.None?;
      }
    }
  }

  lemma LoadedIff(rows: seq<DayRow>, day: int, config: Config)
    ensures Loaded(rows, day, config).Ok? <==> (RowOf(rows, day).Some? ==> RowOf(rows, day).value.config == config)
  {
  }

  /** When entries are allowed, every earlier stored day is complete. */
  lemma EntriesNeedFinishedPast(rows: seq<DayRow>, boot: Boot, now: int, env: Env, k: nat)
    requires Valid(rows) && TickOf(rows, boot, now, env).observed == Some(true)
    requires k < |TickOf(rows, boot, now, env).rows| && TickOf(rows, boot, now, env).rows[k].day < DateOf(now)
    ensures TickOf(rows, boot, now, env).rows[k].phase.Complete?
  {
    hide DateOf, SessionOn, IndexOf, DayTick, Taken, CloseOlder;
    var day := DateOf(now);
    CloseOlderKeeps(rows, 0, day, boot, env, day);
    var closed := CloseOlder(rows, 0, day, boot, env).rows;
    var after := TickOf(rows, boot, now, env).rows;
    var session := SessionOn(boot.config.calendar, day).value;
    var row := Loaded(closed, day, boot.config).value;
    LoadedIs(closed, day, boot.config);
    DayTickKeeps(boot, session, row, now, env);
    CompleteUnarmed(closed, day);
    var saved := DayTick(boot, session, Taken(row, boot, now), now, env).row;
    SavedRow(closed, saved, after[k].day);
    hide Valid, Saved, Loaded;
    MemberIsRow(after, after[k]);
    assert after[k] in after;
    var x := RowOf(closed, after[k].day).value;
    assert x in closed;
    var j :| 0 <= j < |closed| && closed[j] == x;
  }

  // ---------------------------------------------------------------- the latch over runs

  predicate ArmedFor(rows: seq<DayRow>, day: int, id: int) {
    RowOf(rows, day).Some? && RowOf(rows, day).value.armed == Some(id)
  }

  lemma {:induction false} RunKeeps(rows: seq<DayRow>, ops: seq<Op>)
    requires Valid(rows)
    ensures Valid(Run(rows, ops))
    decreases |ops|
  {
    hide Valid, Step;
    if ops != [] {
      StepKeeps(rows, ops[0], 0);
      RunKeeps(Step(rows, ops[0]), ops[1..]);
    }
  }

  lemma {:induction false} ConsentNeedsRun(rows: seq<DayRow>, ops: seq<Op>, id: int, day: int)
    requires Valid(rows) && !ArmedFor(rows, day, id)
    requires forall k :: 0 <= k < |ops| ==> !Arms(ops[k], id, day)
    ensures !ArmedFor(Run(rows, ops), day, id)
    decreases |ops|
  {
    hide Valid, Step, RowOf;
    if ops != [] {
      StepKeeps(rows, ops[0], day);
      var next := Step(rows, ops[0]);
      assert !Arms(ops[0], id, day);
      forall k | 0 <= k < |ops[1..]| ensures !Arms(ops[1..][k], id, day) {
        assert ops[1..][k] == ops[k + 1];
      }
      ConsentNeedsRun(next, ops[1..], id, day);
    }
  }

  /** From any file on which a boot holds no consent for a day - a boot that has just started, or
      one that lost it - no interleaving of calls by any boots lets that boot's tick allow entries
      that day unless the interleaving contains a RUN by it on that day. */
  lemma EntriesNeedRun(rows: seq<DayRow>, ops: seq<Op>, boot: Boot, now: int, env: Env)
    requires Valid(rows) && !ArmedFor(rows, DateOf(now), boot.id)
    requires TickOf(Run(rows, ops), boot, now, env).observed == Some(true)
    ensures exists k :: 0 <= k < |ops| && Arms(ops[k], boot.id, DateOf(now))
  {
    hide Valid, Run, TickOf, Cleared, DateOf;
    if forall k :: 0 <= k < |ops| ==> !Arms(ops[k], boot.id, DateOf(now)) {
      ConsentNeedsRun(rows, ops, boot.id, DateOf(now));
      RunKeeps(rows, ops);
      ClearedIsArmed(Run(rows, ops), boot, now, env);
    }
  }

  lemma ClearedIsArmed(rows: seq<DayRow>, boot: Boot, now: int, env: Env)
    requires Valid(rows) && TickOf(rows, boot, now, env).observed == Some(true)
    ensures ArmedFor(rows, DateOf(now), boot.id)
  {
    hide Valid, TickOf, DateOf;
    EntriesAllowedIff(rows, boot, now, env);
  }

  /** A call that must close the latch on a day: an accepted STOP, or a tick that ends the day's
      row in error, blocked, closing or complete, or that finds another boot's warm-up. */
  predicate Disarms(rows: seq<DayRow>, op: Op, day: int) {
    match op
    case Control(boot, now, action, operator) =>
      action.STOP? && DateOf(now) == day && Controlled(rows, boot, now, action, operator).Ok?
    case DoTick(boot, now, env) =>
      var t := TickOf(rows, boot, now, env);
      && DateOf(now) == day && t.answer.Answered?
      && (t.answer.row.phase.Error? || t.answer.row.phase.Blocked? || t.answer.row.phase.Closing? || t.answer.row.phase.Complete?
          || (RowOf(rows, day).Some? && RowOf(rows, day).value.warmed.Some? && RowOf(rows, day).value.warmed != Some(boot.id)))
  }

  lemma DayTickDisarms(boot: Boot, session: MarketSession, row: DayRow, now: int, env: Env)
    requires row.phase.Complete? ==> row.armed.None?
    ensures
      var after := DayTick(boot, session, Taken(row, boot, now), now, env).row;
      after.phase.Error? || after.phase.Blocked? || after.phase.Closing? || after.phase.Complete?
      || (row.warmed.Some? && row.warmed != Some(boot.id))
      ==> after.armed.None?
  {
    hide Healthy, OpensAt, ClosesAt;
  }

  lemma DisarmsMeans(rows: seq<DayRow>, op: Op, day: int)
    requires Valid(rows) && Disarms(rows, op, day)
    ensures RowOf(Step(rows, op), day).Some? && RowOf(Step(rows, op), day).value.armed.None?
  {
    hide Valid, Saved, DateOf, SessionOn, IndexOf, DayTick, Taken, CloseOlder, Loaded;
    match op
    case Control(boot, now, action, operator) =>
      LoadedIs(rows, DateOf(now), boot.config);
      var was := Loaded(rows, DateOf(now), boot.config).value;
      SavedRow(rows, was.(armed := None, operator := Some(operator), events := was.events + [Consent(now, action, operator)]), day);
    case DoTick(boot, now, env) =>
      CloseOlderKeeps(rows, 0, day, boot, env, day);
      var closed := CloseOlder(rows, 0, day, boot, env).rows;
      var session := SessionOn(boot.config.calendar, day).value;
      var row := Loaded(closed, day, boot.config).value;
      LoadedIs(closed, day, boot.config);
      CompleteUnarmed(closed, day);
      DayTickDisarms(boot, session, row, now, env);
      DayTickKeeps(boot, session, row, now, env);
      SavedRow(closed, DayTick(boot, session, Taken(row, boot, now), now, env).row, day);
  }

  /** The latch fails closed: once a STOP, an error, a failed health check, closing, completion or
      another boot's warm-up has disarmed a day, no later tick of any boot allows entries that day
      unless that boot was given a new RUN in between. */
  lemma LatchFailsClosed(rows: seq<DayRow>, op: Op, ops: seq<Op>, boot: Boot, now: int, env: Env)
    requires Valid(rows) && Disarms(rows, op, DateOf(now))
    requires TickOf(Run(Step(rows, op), ops), boot, now, env).observed == Some(true)
    ensures exists k :: 0 <= k < |ops| && Arms(ops[k], boot.id, DateOf(now))
  {
    hide Valid, Disarms, Step, Run, TickOf, DateOf;
    DisarmsMeans(rows, op, DateOf(now));
    StepKeeps(rows, op, DateOf(now));
    EntriesNeedRun(Step(rows, op), ops, boot, now, env);
  }

  /** Completion is final: over any run the day stays complete, without consent, with its report. */
  lemma {:induction false} CompleteIsFinal(rows: seq<DayRow>, ops: seq<Op>, day: int)
    requires Valid(rows) && RowOf(rows, day).Some? && RowOf(rows, day).value.phase.Complete?
    ensures
      var after := RowOf(Run(rows, ops), day);
      && after.Some? && after.value.phase.Complete? && after.value.armed.None?
      && after.value.report == RowOf(rows, day).value.report
    decreases |ops|
  {
    hide Valid, Step, RowOf;
    CompleteUnarmed(rows, day);
    if ops != [] {
      StepKeeps(rows, ops[0], day);
      CompleteIsFinal(Step(rows, ops[0]), ops[1..], day);
    }
  }

  /** A RUN given to a boot before its first tick on a day another boot has warmed is void: the
      boot's next tick allows no entries, and when it reaches the day's row it leaves no consent,
      so a second RUN is needed. */
  lemma RunBeforeFirstTickIsVoid(rows: seq<DayRow>, boot: Boot, at: int, operator: string, now: int, env: Env)
    requires Valid(rows) && DateOf(at) == DateOf(now)
    requires RowOf(rows, DateOf(now)).Some? && RowOf(rows, DateOf(now)).value.warmed.Some?
    requires RowOf(rows, DateOf(now)).value.warmed != Some(boot.id)
    requires Controlled(rows, boot, at, RUN, operator).Ok?
    ensures
      var armed := Step(rows, Control(boot, at, RUN, operator));
      var t := TickOf(armed, boot, now, env);
      && ArmedFor(armed, DateOf(now), boot.id)
      && t.observed != Some(true)
      && (t.answer.Answered? ==> RowOf(t.rows, DateOf(now)).Some? && RowOf(t.rows, DateOf(now)).value.armed.None?)
  {
    hide Valid, Saved, DateOf, SessionOn, IndexOf, Loaded, TickOf;
    var day := DateOf(now);
    LoadedIs(rows, day, boot.config);
    var was := Loaded(rows, day, boot.config).value;
    var row := was.(armed := Some(boot.id), operator := Some(operator), events := was.events + [Consent(at, RUN, operator)]);
    SavedRow(rows, row, day);
    var armed := Step(rows, Control(boot, at, RUN, operator));
    assert armed == Saved(rows, row);
    EntriesAllowedIff(armed, boot, now, env);
    if TickOf(armed, boot, now, env).answer.Answered? {
      DisarmsMeans(armed, DoTick(boot, now, env), day);
    }
  }

  /** A tick that answers for a day came strictly after that day's last answered tick. */
  lemma TicksIncrease(rows: seq<DayRow>, boot: Boot, now: int, env: Env)
    requires Valid(rows) && TickOf(rows, boot, now, env).answer.Answered?
    ensures
      var before, after := RowOf(rows, DateOf(now)), RowOf(TickOf(rows, boot, now, env).rows, DateOf(now));
      && after.Some? && after.value.lastTick == Some(now)
      && (before.Some? && before.value.lastTick.Some? ==> before.value.lastTick.value < now)
  {
    hide Valid, Saved, DateOf, SessionOn, IndexOf, DayTick, CloseOlder, Loaded;
    var day := DateOf(now);
    CloseOlderKeeps(rows, 0, day, boot, env, day);
    var closed := CloseOlder(rows, 0, day, boot, env).rows;
    var session := SessionOn(boot.config.calendar, day).value;
    var row := Loaded(closed, day, boot.config).value;
    LoadedIs(closed, day, boot.config);
    CompleteUnarmed(closed, day);
    DayTickKeeps(boot, session, row, now, env);
    DayTickStamps(boot, session, Taken(row, boot, now), now, env);
    SavedRow(closed, DayTick(boot, session, Taken(row, boot, now), now, env).row, day);
  }

  lemma DayTickStamps(boot: Boot, session: MarketSession, row: DayRow, now: int, env: Env)
    ensures DayTick(boot, session, row, now, env).row.lastTick == row.lastTick
  {
    hide Healthy, OpensAt, ClosesAt;
  }

  // ---------------------------------------------------------------- the shared file and its processes

  class SessionFile {
    var rows: seq<DayRow>

    constructor ()
      ensures rows == []
    {
      rows := [];
    }
  }

  class SessionOrchestrator {
    const boot: Boot
    const file: SessionFile

    constructor (file: SessionFile, config: Config, bootId: int)
      ensures this.file == file && boot == Boot(bootId, config)
    {
      this.file := file;
      boot := Boot(bootId, config);
    }

    /** Operator consent, given or withdrawn. */
    method Control(now: int, action: Action, operator: string) returns (r: Result<DayRow, Failure>)
      requires Valid(file.rows)
      modifies file
      ensures Valid(file.rows) && file.rows == Step(old(file.rows), Op.Control(boot, now, action, operator))
      ensures r.Ok? <==> Controlled(old(file.rows), boot, now, action, operator).Ok?
      ensures r.Err? ==> Controlled(old(file.rows), boot, now, action, operator) == Err(r.error)
    {
      ControlKeeps(file.rows, boot, now, action, operator, 0);
      hide Valid, Saved, Loaded, DateOf, SessionOn;
      if Blank(operator) {
        return Err(InvalidControl);
      }
      var day := DateOf(now);
      var session := SessionOn(boot.config.calendar, day);
      if session.None? {
        return Err(NoSession);
      }
      if action.RUN? && !(boot.config.ActiveFrom(session.value) <= now < boot.config.EntriesUntil(session.value)) {
        return Err(OutsideActivation);
      }
      var loaded := Loaded(file.rows, day, boot.config);
      if loaded.Err? {
        return Err(loaded.error);
      }
      var state := loaded.value;
      if state.phase.Complete? {
        return Err(AlreadyComplete);
      }
      state := state.(armed := if action.RUN? then Some(boot.id) else None);
      state := state.(operator := Some(operator));
      state := state.(events := state.events + [Consent(now, action, operator)]);
      file.rows := Saved(file.rows, state);
      r := Ok(state);
    }

    /** One tick; `observed` is what the backend was told about entries, if it was asked. */
    method Tick(now: int, env: Env) returns (answer: Answer, observed: Option<bool>)
      requires Valid(file.rows)
      modifies file
      ensures Valid(file.rows) && Ticked(file.rows, answer, observed) == TickOf(old(file.rows), boot, now, env)
    {
      TickKeeps(file.rows, boot, now, env, 0);
      hide Valid, Saved, Loaded, DateOf, SessionOn, Healthy, Closed;
      observed := None;
      var before := file.rows;
      var day := DateOf(now);
      var older := FinishOlder(day, env);
      if older.Refused? {
        file.rows := before;
        return Refusal(older.failure), None;
      }
      if older.Stuck? {
        return OlderUnfinished, None;
      }
      var session := SessionOn(boot.config.calendar, day);
      if session.None? {
        return ClosedCalendar, None;
      }
      var loaded := Loaded(file.rows, day, boot.config);
      if loaded.Err? {
        file.rows := before;
        return Refusal(loaded.error), None;
      }
      if loaded.value.lastTick.Some? && now <= loaded.value.lastTick.value {
        file.rows := before;
        return Refusal(TicksMustIncrease), None;
      }
      var state;
      state, observed := Advance(session.value, loaded.value, now, env);
      file.rows := Saved(file.rows, state);
      answer := Answered(state);
    }

    /** The loop over older days. */
    method FinishOlder(day: int, env: Env) returns (r: Older)
      modifies file
      ensures r == CloseOlder(old(file.rows), 0, day, boot, env)
      ensures r.Stuck? || r.AllComplete? ==> file.rows == r.rows
    {
      hide Closed;
      var i := 0;
      while i < |file.rows| && file.rows[i].day < day
        invariant 0 <= i <= |file.rows|
        invariant CloseOlder(file.rows, i, day, boot, env) == CloseOlder(old(file.rows), 0, day, boot, env)
        decreases |file.rows| - i
      {
        var state := file.rows[i];
        if !state.phase.Complete? {
          if state.config != boot.config {
            return Refused(BindingChanged);
          }
          state := Closed(state.(entriesAllowed := false), env.close(state.day));
          file.rows := file.rows[i := state];
          if !state.phase.Complete? {
            return Stuck(file.rows);
          }
        }
        i := i + 1;
      }
      r := AllComplete(file.rows);
    }

    /** The day's own state change, field by field; an adapter failure persists fail-closed. */
    method Advance(session: MarketSession, loaded: DayRow, now: int, env: Env) returns (state: DayRow, observed: Option<bool>)
      ensures DayOutcome(state, observed) == DayTick(boot, session, Taken(loaded, boot, now), now, env)
    {
      hide Healthy, Closed, OpensAt, ClosesAt;
      state, observed := loaded, None;
      if state.warmed.Some? && state.warmed != Some(boot.id) {
        state := state.(armed := None);
      }
      state := state.(lastTick := Some(now), entriesAllowed := false);
      if state.phase.Complete? {
        return;
      }
      if now >= ClosesAt(session) {
        state := Closed(state, env.close(state.day));
        return;
      }
      if now < boot.config.ActiveFrom(session) {
        state := state.(phase := Waiting);
        return;
      }
      if env.health.Raised? {
        state := Failed(state);
        return;
      }
      if !Healthy(boot.config, env.health.value, now) {
        state := state.(phase := Blocked, armed := None);
        if now >= OpensAt(session) {
          observed := Some(false);
          if env.observe.Raised? {
            state := Failed(state);
          }
        }
        return;
      }
      if state.warmed != Some(boot.id) {
        if env.warm != Returned(true) {
          state := Failed(state);
          return;
        }
        state := state.(warmed := Some(boot.id));
      }
      if now < boot.config.ObservesFrom(session) {
        state := state.(phase := Ready);
        return;
      }
      var allowed := state.armed == Some(boot.id) && now < boot.config.EntriesUntil(session);
      state := state.(phase := if allowed then Observing else ObservingNoEntries);
      observed := Some(allowed);
      state := if env.observe.Raised? then Failed(state) else state.(entriesAllowed := allowed);
    }
  }
}
