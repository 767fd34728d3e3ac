/** The event log explains the books: with the desk's clock moving forward, every stored
    session's cash, realized P&L and entry count are what its logged events add up to, and every
    unit bought is sold or still held. */
module DeskLog {
  import opened Common
  import opened Rounding
  import opened OptionsRisk
  import opened DeskSession
  import opened Desk
  import opened Replay
  import CallLedger

  /** Net effect of a day's events. */
  datatype Tally = Tally(cash: real, pnl: real, entries: int)

  function EffectOf(e: Event): Tally {
    match e
    case PaperEntry(_, p, _, _) => Tally(-EntryTotal(p.entry, p.quantity as real), 0.0, 1)
    case PaperExit(_, fill) => Tally(Proceeds(fill.price, fill.quantity as real), fill.pnl, 0)
    case PaperSettlement(_, _, quantity, price, costs, pnl, _, _) => Tally(price * quantity as real - costs, pnl, 0)
  }

  function TallyOf(events: seq<Event>, day: int): Tally {
    if events == [] then Tally(0.0, 0.0, 0)
    else
      var n := |events| - 1;
      var before := TallyOf(events[..n], day);
      if events[n].day != day then before
      else
        var e := EffectOf(events[n]);
        Tally(before.cash + e.cash, before.pnl + e.pnl, before.entries + e.entries)
  }

  /** What one event adds to the units of a position. */
  function UnitChange(e: Event, id: nat): int {
    if PositionOf(e) != id then 0
    else match e
         case PaperEntry(_, p, _, _) => p.quantity
         case PaperExit(_, fill) => -fill.quantity
         case PaperSettlement(_, _, quantity, _, _, _, _, _) => -quantity
  }

  /** Units of a position bought less units sold or settled. */
  function UnitsLeft(events: seq<Event>, id: nat): int {
    if events == [] then 0
    else UnitsLeft(events[..|events| - 1], id) + UnitChange(events[|events| - 1], id)
  }

  predicate Explained(s: Session, t: Tally) {
    s.cash == s.limits.amount + t.cash && s.realized == t.pnl && s.entries == t.entries
  }

  function UnitsIn(p: Option<Position>, id: nat): int {
    if p.Some? && p.value.id == id then p.value.quantity else 0
  }

  function OpenUnits(st: State, id: nat): int {
    UnitsIn(OpenOf(st), id)
  }

  ghost predicate LogExplains(st: State) {
    && (forall i :: 0 <= i < |st.sessions| ==> Explained(st.sessions[i], TallyOf(st.events, st.sessions[i].day)))
    && (forall i :: 0 <= i < |st.events| ==> Dated(st.sessions, st.events[i]))
  }

  /** The event is not of a later day than the latest session. */
  predicate Dated(sessions: seq<Session>, e: Event) {
    Latest(sessions).Some? && e.day <= sessions[Latest(sessions).value].day
  }

  ghost predicate UnitsBalance(st: State) {
    forall id :: UnitsLeft(st.events, id) == OpenUnits(st, id)
  }

  /** Sessions are not opened for a date before the latest stored one. */
  predicate Forward(st: State, op: Op) {
    op.Start? ==> Latest(st.sessions).None? || st.sessions[Latest(st.sessions).value].day <= DateOf(op.env.now)
  }

  lemma TallyAppended(events: seq<Event>, e: Event, day: int)
    ensures
      var before, effect := TallyOf(events, day), EffectOf(e);
      TallyOf(events + [e], day) ==
        if e.day != day then before
        else Tally(before.cash + effect.cash, before.pnl + effect.pnl, before.entries + effect.entries)
  {
    assert (events + [e])[..|events|] == events;
  }

  lemma UnitsAppended(events: seq<Event>, e: Event, id: nat)
    ensures UnitsLeft(events + [e], id) == UnitsLeft(events, id) + UnitChange(e, id)
  {
    assert (events + [e])[..|events|] == events;
  }

  lemma NothingTallied(events: seq<Event>, day: int)
    requires forall i :: 0 <= i < |events| ==> events[i].day != day
    ensures TallyOf(events, day) == Tally(0.0, 0.0, 0)
  {
  }

  /** Saving a new version of the latest session, with the one event that explains the change. */
  lemma EventExplains(st: State, s: Session, e: Event, calls: CallLedger.Table)
    requires DistinctDays(st.sessions) && LogExplains(st) && Latest(st.sessions).Some?
    requires
      var old' := st.sessions[Latest(st.sessions).value];
      var effect := EffectOf(e);
      && s.day == old'.day == e.day && s.limits == old'.limits
      && s.cash == old'.cash + effect.cash && s.realized == old'.realized + effect.pnl
      && s.entries == old'.entries + effect.entries
    ensures LogExplains(State(Save(st.sessions, s), calls, st.events + [e]))
  {
    hide EffectOf, Latest, Save, DistinctDays, TallyOf;
    var l := Latest(st.sessions).value;
    SaveUpdates(st.sessions, l, s);
    var saved := st.sessions[l := s];
    LatestByDays(st.sessions, saved);
    forall i | 0 <= i < |saved| ensures Explained(saved[i], TallyOf(st.events + [e], saved[i].day)) {
      TallyAppended(st.events, e, saved[i].day);
      assert Explained(st.sessions[i], TallyOf(st.events, st.sessions[i].day));
      if i != l {
        assert saved[i].day != e.day by {
          DaysDiffer(st.sessions, i, l);
        }
      }
    }
  }

  lemma DaysDiffer(sessions: seq<Session>, i: nat, j: nat)
    requires DistinctDays(sessions) && i < |sessions| && j < |sessions| && i != j
    ensures sessions[i].day != sessions[j].day
  {
  }

  lemma QuietSaveExplains(st: State, s: Session)
    requires DistinctDays(st.sessions) && LogExplains(st) && Latest(st.sessions).Some?
    requires
      var old' := st.sessions[Latest(st.sessions).value];
      s.day == old'.day && s.limits == old'.limits && s.cash == old'.cash && s.realized == old'.realized && s.entries == old'.entries
    ensures LogExplains(st.(sessions := Save(st.sessions, s)))
  {
    hide Latest, Save, DistinctDays, TallyOf;
    var l := Latest(st.sessions).value;
    SaveUpdates(st.sessions, l, s);
    var saved := st.sessions[l := s];
    LatestByDays(st.sessions, saved);
    forall i | 0 <= i < |saved| ensures Explained(saved[i], TallyOf(st.events, saved[i].day)) {
      assert Explained(st.sessions[i], TallyOf(st.events, st.sessions[i].day));
    }
  }

  lemma StartExplains(st: State, request: Requested, env: Env, configured: bool)
    requires Valid(st) && LogExplains(st) && Forward(st, Start(request, env, configured))
    ensures LogExplains(Step(st, Start(request, env, configured)))
  {
    hide ValidateLimits, DeskLedger.Sound, CallLedger.Valid, LogExplains, Save, BooksSound, EntriesOwnCalls;
    var started := Started(st.sessions, request, env, configured);
    var latest := Latest(st.sessions);
    if started.Ok? {
      if latest.Some? && st.sessions[latest.value].day == DateOf(env.now) {
        QuietSaveExplains(st, started.value);
      } else {
        NewSessionExplains(st, started.value);
      }
    }
  }

  lemma NewSessionExplains(st: State, s: Session)
    requires LogExplains(st) && Explained(s, Tally(0.0, 0.0, 0))
    requires forall i :: 0 <= i < |st.sessions| ==> st.sessions[i].day != s.day
    requires Latest(st.sessions).Some? ==> st.sessions[Latest(st.sessions).value].day < s.day
    ensures LogExplains(st.(sessions := Save(st.sessions, s)))
  {
    hide Save;
    SaveAppends(st.sessions, s);
    NothingTallied(st.events, s.day);
    var saved := st.sessions + [s];
    assert saved[..|st.sessions|] == st.sessions;
    forall i | 0 <= i < |saved| ensures Explained(saved[i], TallyOf(st.events, saved[i].day)) {
      if i < |st.sessions| {
        assert Explained(st.sessions[i], TallyOf(st.events, st.sessions[i].day));
      }
    }
  }

  lemma MonitorMoney(s: Session, env: Env, seen: Option<nat>, quote: Option<Quote>, underlying: Option<Sample>)
    ensures
      var closing := Monitored(s, env, seen, quote, underlying);
      var t := closing.session;
      && t.day == s.day && t.limits == s.limits && t.entries == s.entries
      && (closing.fill.None? ==> t.cash == s.cash && t.realized == s.realized)
      && (closing.fill.Some? ==>
            var fill := closing.fill.value;
            t.cash == s.cash + Proceeds(fill.price, fill.quantity as real) && t.realized == s.realized + fill.pnl)
  {
    hide MustStop, MarkedPnl, MonitorReason, FillPrice, Proceeds, Quantize8, ExitBasis, ExitQuantity, MarketWindow;
  }

  lemma MonitorExplains(st: State, env: Env, seen: Option<nat>, quote: Option<Quote>, underlying: Option<Sample>)
    requires Valid(st) && LogExplains(st)
    ensures LogExplains(Step(st, Monitor(env, seen, quote, underlying)))
  {
    hide Monitored, DeskLedger.Sound, CallLedger.Valid, Proceeds;
    var latest := Latest(st.sessions);
    if latest.Some? {
      var s := st.sessions[latest.value];
      MonitorMoney(s, env, seen, quote, underlying);
      var closing := Monitored(s, env, seen, quote, underlying);
      if closing.fill.Some? {
        EventExplains(st, closing.session, PaperExit(s.day, closing.fill.value), st.calls);
      } else {
        assert st.events + [] == st.events;
        QuietSaveExplains(st, closing.session);
      }
    }
  }

  lemma EntryMoney(s: Session, callId: nat, purchase: Purchase, env: Env)
    requires Entered(s, callId, purchase, env).Ok?
    ensures
      var entered := Entered(s, callId, purchase, env).value;
      && entered.position.Some?
      && entered.cash == s.cash - EntryTotal(entered.position.value.entry, entered.position.value.quantity as real)
      && entered.entries == s.entries + 1
  {
    hide ValidatePlan, SessionLimitReached, EntryWindow, FillPrice, EntryTotal;
  }

  lemma BuyExplains(st: State, callId: nat, purchase: Purchase, env: Env)
    requires Valid(st) && LogExplains(st)
    ensures LogExplains(Step(st, Op.Buy(callId, purchase, env)))
  {
    hide Entered, DeskLedger.Sound, CallLedger.Valid, EntryTotal, CallLedger.Step;
    var latest := Latest(st.sessions);
    if Accepting(st, purchase.snapshot.day) && Decided(st.calls, callId, true)
       && Entered(st.sessions[latest.value], callId, purchase, env).Ok?
    {
      var s := st.sessions[latest.value];
      EntryShape(s, callId, purchase, env);
      EntryMoney(s, callId, purchase, env);
      var entered := Entered(s, callId, purchase, env).value;
      EventExplains(st, entered, PaperEntry(entered.day, entered.position.value, purchase.quote.value, purchase.snapshot),
                    CallLedger.Step(st.calls, ApplyOp(callId)));
    }
  }

  lemma SettledMoney(s: Session, p: Position, price: real, costs: real, reference: string)
    ensures
      var after, effect := Settled(s, p, price, costs), EffectOf(SettlementEvent(s, p, price, costs, reference));
      && after.day == s.day && after.limits == s.limits && after.entries == s.entries && effect.entries == 0
      && after.cash == s.cash + effect.cash && after.realized == s.realized + effect.pnl
  {
  }

  lemma SettleExplains(st: State, id: nat, price: real, costs: real, reference: string, env: Env)
    requires Valid(st) && LogExplains(st)
    ensures LogExplains(Step(st, SettleExpired(id, price, costs, reference, env)))
  {
    hide AnswerSettlement, DeskLedger.Sound, CallLedger.Valid, LogExplains, Settled, Save, Latest;
    if AnswerSettlement(st, id, price, costs, reference, env.now).SettledNow? {
      SettledNowMeans(st, id, price, costs, reference, env.now);
      var s := st.sessions[Latest(st.sessions).value];
      var p := s.position.value;
      SettledMoney(s, p, price, costs, reference);
      EventExplains(st, Settled(s, p, price, costs), SettlementEvent(s, p, price, costs, reference), st.calls);
    }
  }

  lemma SameBooksExplained(a: State, b: State)
    requires LogExplains(a) && a.sessions == b.sessions && a.events == b.events
    ensures LogExplains(b)
  {
    hide Dated, Explained, TallyOf;
  }

  lemma StepExplains(st: State, op: Op)
    requires Valid(st) && LogExplains(st) && Forward(st, op)
    ensures LogExplains(Step(st, op))
  {
    hide Valid, Forward, Started, Monitored, CallLedger.Step, Explained, TallyOf;
    match op
    case Start(request, env, configured) => StartExplains(st, request, env, configured);
    case Stop => StopExplains(st);
    case Monitor(env, seen, quote, underlying) => MonitorExplains(st, env, seen, quote, underlying);
    case Advise(callId, day) => SameBooksExplained(st, Step(st, op));
    case Buy(callId, purchase, env) => BuyExplains(st, callId, purchase, env);
    case SettleExpired(id, price, costs, reference, env) => SettleExplains(st, id, price, costs, reference, env);
    case Reserve(halted, clock, key, scannedAt) => SameBooksExplained(st, Step(st, op));
    case CallOp(callOp) => SameBooksExplained(st, Step(st, op));
  }

  lemma StopExplains(st: State)
    requires Valid(st) && LogExplains(st)
    ensures LogExplains(Step(st, Stop))
  {
    hide DeskLedger.Sound, CallLedger.Valid;
    if Latest(st.sessions).Some? {
      QuietSaveExplains(st, Stopped(st.sessions[Latest(st.sessions).value]));
    }
  }

  // ---------------------------------------------------------------- units

  lemma StepBalancesUnits(st: State, op: Op)
    requires Valid(st) && UnitsBalance(st)
    ensures UnitsBalance(Step(st, op))
  {
    hide Valid, Started, Monitored, CallLedger.Step, AnswerSettlement, Entered, Save, Latest;
    match op
    case Start(request, env, configured) => StartKeepsOpen(st, request, env, configured);
    case Stop => StopKeepsOpen(st);
    case Monitor(env, seen, quote, underlying) => MonitorBalances(st, env, seen, quote, underlying);
    case Advise(callId, day) =>
    case Buy(callId, purchase, env) => BuyBalances(st, callId, purchase, env);
    case SettleExpired(id, price, costs, reference, env) => SettleBalances(st, id, price, costs, reference, env);
    case Reserve(halted, clock, key, scannedAt) =>
    case CallOp(callOp) =>
  }

  /** Saving a new version of the latest session, with the one event that moved its units. */
  lemma EventBalances(st: State, s: Session, e: Event, calls: CallLedger.Table)
    requires DistinctDays(st.sessions) && UnitsBalance(st) && Latest(st.sessions).Some?
    requires s.day == st.sessions[Latest(st.sessions).value].day
    requires forall id :: UnitsIn(s.position, id) == UnitsIn(OpenOf(st), id) + UnitChange(e, id)
    ensures UnitsBalance(State(Save(st.sessions, s), calls, st.events + [e]))
  {
    hide Latest, Save, DistinctDays, UnitsLeft, UnitChange, UnitsIn;
    var after := State(Save(st.sessions, s), calls, st.events + [e]);
    SaveKeepsLatest(st, s, calls, after.events);
    forall id ensures UnitsLeft(after.events, id) == OpenUnits(after, id) {
      UnitsAppended(st.events, e, id);
      assert UnitsLeft(st.events, id) == OpenUnits(st, id);
      assert UnitsIn(s.position, id) == UnitsIn(OpenOf(st), id) + UnitChange(e, id);
    }
  }

  lemma SaveKeepsLatest(st: State, s: Session, calls: CallLedger.Table, events: seq<Event>)
    requires DistinctDays(st.sessions) && Latest(st.sessions).Some?
    requires s.day == st.sessions[Latest(st.sessions).value].day
    ensures OpenOf(State(Save(st.sessions, s), calls, events)) == s.position
  {
    hide Latest, Save, DistinctDays;
    var l := Latest(st.sessions).value;
    SaveUpdates(st.sessions, l, s);
    LatestByDays(st.sessions, st.sessions[l := s]);
  }

  lemma QuietSaveBalances(st: State, s: Session)
    requires DistinctDays(st.sessions) && UnitsBalance(st) && Latest(st.sessions).Some?
    requires s.day == st.sessions[Latest(st.sessions).value].day && s.position == OpenOf(st)
    ensures UnitsBalance(State(Save(st.sessions, s), st.calls, st.events))
  {
    hide Latest, Save, DistinctDays, UnitsLeft, UnitsIn;
    SaveKeepsLatest(st, s, st.calls, st.events);
    forall id ensures UnitsLeft(st.events, id) == OpenUnits(State(Save(st.sessions, s), st.calls, st.events), id) {
      assert UnitsLeft(st.events, id) == OpenUnits(st, id);
    }
  }

  lemma MonitorBalances(st: State, env: Env, seen: Option<nat>, quote: Option<Quote>, underlying: Option<Sample>)
    requires Valid(st) && UnitsBalance(st)
    ensures UnitsBalance(Step(st, Monitor(env, seen, quote, underlying)))
  {
    hide Monitored, DeskLedger.Sound, CallLedger.Valid, BooksSound, EntriesOwnCalls, UnitsBalance, Latest, Save, DistinctDays;
    hide FillFor, ExitBasis, ExitQuantity;
    var latest := Latest(st.sessions);
    if latest.Some? {
      var s := st.sessions[latest.value];
      var closing := Monitored(s, env, seen, quote, underlying);
      MonitorKeepsDay(s, env, seen, quote, underlying);
      MonitorShape(s, env, seen, quote, underlying);
      FullFillCloses(s, env, seen, quote, underlying);
      if closing.fill.Some? {
        FillIsOf(s.position.value, quote.value, closing.fill.value.reason, env.now);
        EventBalances(st, closing.session, PaperExit(s.day, closing.fill.value), st.calls);
      } else {
        assert st.events + [] == st.events;
        QuietSaveBalances(st, closing.session);
      }
    }
  }

  lemma FillIsOf(p: Position, quote: Quote, reason: ExitReason, now: int)
    requires p.quantity != 0
    ensures FillFor(p, quote, reason, now).positionId == p.id
    ensures FillFor(p, quote, reason, now).quantity == ExitQuantity(p, quote)
  {
  }

  /** A monitor fill leaves the session flat exactly when it sells the whole position. */
  lemma FullFillCloses(s: Session, env: Env, seen: Option<nat>, quote: Option<Quote>, underlying: Option<Sample>)
    ensures
      var closing := Monitored(s, env, seen, quote, underlying);
      closing.fill.Some? ==>
        && s.position.Some?
        && (closing.session.position.None? <==> closing.fill.value.quantity == s.position.value.quantity)
        && (closing.fill.value.closed <==> closing.session.position.None?)
  {
    hide MustStop, MarkedPnl, MonitorReason, FillPrice, Proceeds, Quantize8, ExitBasis, ExitQuantity, MarketWindow;
  }

  lemma BuyBalances(st: State, callId: nat, purchase: Purchase, env: Env)
    requires Valid(st) && UnitsBalance(st)
    ensures UnitsBalance(Step(st, Op.Buy(callId, purchase, env)))
  {
    hide Entered, DeskLedger.Sound, CallLedger.Valid, CallLedger.Step;
    var latest := Latest(st.sessions);
    if Accepting(st, purchase.snapshot.day) && Decided(st.calls, callId, true)
       && Entered(st.sessions[latest.value], callId, purchase, env).Ok?
    {
      var s := st.sessions[latest.value];
      EntryShape(s, callId, purchase, env);
      var entered := Entered(s, callId, purchase, env).value;
      var e := PaperEntry(entered.day, entered.position.value, purchase.quote.value, purchase.snapshot);
      EventBalances(st, entered, e, CallLedger.Step(st.calls, ApplyOp(callId)));
    }
  }

  lemma SettleBalances(st: State, id: nat, price: real, costs: real, reference: string, env: Env)
    requires Valid(st) && UnitsBalance(st)
    ensures UnitsBalance(Step(st, SettleExpired(id, price, costs, reference, env)))
  {
    hide AnswerSettlement, DeskLedger.Sound, CallLedger.Valid, Settled;
    if AnswerSettlement(st, id, price, costs, reference, env.now).SettledNow? {
      SettledNowMeans(st, id, price, costs, reference, env.now);
      var latest := Latest(st.sessions);
      var s := st.sessions[latest.value];
      var p := s.position.value;
      var e := SettlementEvent(s, p, price, costs, reference);
      SettledFlat(s, p, price, costs);
      EventBalances(st, Settled(s, p, price, costs), e, st.calls);
    }
  }

  // ---------------------------------------------------------------- every run

  predicate ForwardRun(st: State, ops: seq<Op>)
    decreases |ops|
  {
    ops == [] || (WellFormed(ops[0]) && Forward(st, ops[0]) && ForwardRun(Step(st, ops[0]), ops[1..]))
  }

  lemma {:induction false} RunExplains(st: State, ops: seq<Op>)
    requires Valid(st) && LogExplains(st) && UnitsBalance(st) && ForwardRun(st, ops)
    ensures Valid(Run(st, ops)) && LogExplains(Run(st, ops)) && UnitsBalance(Run(st, ops))
    decreases |ops|
  {
    hide Valid, LogExplains, UnitsBalance, Step, WellFormed, Forward;
    if ops != [] {
      StepKeepsValid(st, ops[0]);
      StepExplains(st, ops[0]);
      StepBalancesUnits(st, ops[0]);
      RunExplains(Step(st, ops[0]), ops[1..]);
    }
  }

  /** Over every run whose sessions open on non-decreasing dates, the log alone determines the
      books: each session's cash is its capital plus what its events paid and received, its
      realized P&L is the sum of the logged P&L, its entry count is the number of logged
      entries, and for every position the units bought are the units sold plus those still open. */
  lemma LogDeterminesBooks(ops: seq<Op>, i: nat, id: nat)
    requires ForwardRun(EMPTY, ops) && i < |Run(EMPTY, ops).sessions|
    ensures
      var st := Run(EMPTY, ops);
      var s, t := st.sessions[i], TallyOf(st.events, st.sessions[i].day);
      && s.cash == s.limits.amount + t.cash && s.realized == t.pnl && s.entries == t.entries
      && UnitsLeft(st.events, id) == OpenUnits(st, id)
  {
    EmptyIsValid();
    RunExplains(EMPTY, ops);
  }
}
