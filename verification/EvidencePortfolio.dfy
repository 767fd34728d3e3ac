/** The one-position paper portfolio that replays a stream of opportunities under one policy and
    scenario (`_portfolio` in `options_evidence_gates.py`). Finding an executable entry and its
    exit path is an input; the limits, the cash and the classification are here. */
module EvidencePortfolio {
  import opened Common

  datatype Policy = AlwaysHold | FollowAi | Deterministic

  datatype Scenario = Scenario(entryCap: int, cooldownSeconds: int, enforceEventWindow: bool)

  datatype Item = Item(occurrence: string, at: Option<int>, excluded: Option<string>, plan: string,
                       capital: Option<real>, highImpact: bool)

  datatype ExitFill = ExitFill(at: int, price: real, quantity: int, costs: real)

  /** What the tape offers an opportunity: nothing, or an entry and, if it closes, its exit fills. */
  datatype Offer = NoEntry(reason: string) | Entry(cost: real, entryCosts: real, path: Option<seq<ExitFill>>)

  datatype Veto = OnePositionActive | DailyEntryCap | PostExitCooldown | HighImpactEventWindow

  datatype Trade = Trade(occurrence: string, at: int, netPnl: real, costs: real, exitedAt: int)

  datatype Desk = Desk(cash: real, realized: real, lastExit: Option<int>, trades: seq<Trade>,
                       vetoes: multiset<Veto>, exclusions: multiset<string>, holds: nat)

  const MISSING_TIME: string := "availability_time_missing_or_invalid"
  const MISSING_CAPITAL: string := "capital_missing_or_invalid"

  // ---------------------------------------------------------------- one opportunity

  function Paid(fills: seq<ExitFill>): real {
    if fills == [] then 0.0
    else
      var f := fills[|fills| - 1];
      Paid(fills[..|fills| - 1]) + (f.price * f.quantity as real - f.costs)
  }

  function CostsOf(fills: seq<ExitFill>): real {
    if fills == [] then 0.0 else CostsOf(fills[..|fills| - 1]) + fills[|fills| - 1].costs
  }

  /** Trades entered on an exchange date. */
  function EntriesOn(trades: seq<Trade>, day: int): nat {
    if trades == [] then 0
    else EntriesOn(trades[..|trades| - 1], day) + if DateOf(trades[|trades| - 1].at) == day then 1 else 0
  }

  function VetoOf(d: Desk, item: Item, now: int, scenario: Scenario): Option<Veto> {
    if d.lastExit.Some? && now < d.lastExit.value then Some(OnePositionActive)
    else if EntriesOn(d.trades, DateOf(now)) >= scenario.entryCap then Some(DailyEntryCap)
    else if d.lastExit.Some? && now - d.lastExit.value < scenario.cooldownSeconds * SECOND then Some(PostExitCooldown)
    else if scenario.enforceEventWindow && item.highImpact then Some(HighImpactEventWindow)
    else None
  }

  function Traded(d: Desk, item: Item, now: int, cost: real, entryCosts: real, fills: seq<ExitFill>): Desk
    requires fills != []
  {
    var pnl := Paid(fills) - cost;
    var exited := fills[|fills| - 1].at;
    d.(cash := d.cash - cost + Paid(fills), realized := d.realized + pnl, lastExit := Some(exited),
       trades := d.trades + [Trade(item.occurrence, now, pnl, entryCosts + CostsOf(fills), exited)])
  }

  function Excluded(d: Desk, reason: string): Desk {
    d.(exclusions := d.exclusions + multiset{reason})
  }

  predicate HeldByPolicy(item: Item, policy: Policy, bought: set<string>) {
    policy.AlwaysHold? || (policy.FollowAi? && item.plan !in bought)
  }

  function Considered(d: Desk, item: Item, now: int, scenario: Scenario, policy: Policy, bought: set<string>,
      offer: Offer): Desk {
    if item.excluded.Some? then Excluded(d, item.excluded.value)
    else if HeldByPolicy(item, policy, bought) then d.(holds := d.holds + 1)
    else
      var veto := VetoOf(d, item, now, scenario);
      if veto.Some? then d.(vetoes := d.vetoes + multiset{veto.value})
      else if offer.NoEntry? then Excluded(d, offer.reason)
      else if offer.cost > d.cash then Excluded(d, "insufficient_cash")
      else if offer.path.None? || offer.path.value == [] then Excluded(d, "exit_path_missing")
      else Traded(d, item, now, offer.cost, offer.entryCosts, offer.path.value)
  }

  // ---------------------------------------------------------------- the stream

  predicate Earlier(a: Item, b: Item)
    requires a.at.Some? && b.at.Some?
  {
    a.at.value < b.at.value || (a.at.value == b.at.value && Precedes(a.occurrence, b.occurrence))
  }

  predicate AllTimed(items: seq<Item>) {
    forall k :: 0 <= k < |items| ==> items[k].at.Some?
  }

  function Placed(items: seq<Item>, item: Item): (r: seq<Item>)
    requires AllTimed(items) && item.at.Some?
    ensures AllTimed(r) && |r| == |items| + 1
  {
    if items == [] then [item]
    else
      var n := |items| - 1;
      if Earlier(item, items[n]) then Placed(items[..n], item) + [items[n]] else items + [item]
  }

  /** The timed opportunities by time and identifier. */
  function InOrder(items: seq<Item>): (r: seq<Item>)
    ensures AllTimed(r)
  {
    if items == [] then []
    else
      var before, last := InOrder(items[..|items| - 1]), items[|items| - 1];
      if last.at.None? then before else Placed(before, last)
  }

  function Untimed(items: seq<Item>): multiset<string> {
    if items == [] then multiset{}
    else
      var before, last := Untimed(items[..|items| - 1]), items[|items| - 1];
      if last.at.Some? then before
      else before + multiset{if last.excluded.Some? then last.excluded.value else MISSING_TIME}
  }

  function CapitalOf(items: seq<Item>): Option<real> {
    if items == [] then None
    else if items[0].capital.Some? && items[0].capital.value != 0.0 then items[0].capital
    else CapitalOf(items[1..])
  }

  /** The tape's answer to an opportunity, given the cash and realized P&L it would trade with. */
  type Tape = (Item, real, real) -> Offer

  function Replayed(d: Desk, items: seq<Item>, scenario: Scenario, policy: Policy, bought: set<string>, tape: Tape): Desk
    requires AllTimed(items)
  {
    if items == [] then d
    else
      var n := |items| - 1;
      var before := Replayed(d, items[..n], scenario, policy, bought, tape);
      Considered(before, items[n], items[n].at.value, scenario, policy, bought, tape(items[n], before.cash, before.realized))
  }

  function Opening(items: seq<Item>, capital: real): Desk {
    Desk(capital, 0.0, None, [], multiset{}, Untimed(items), 0)
  }

  function Repeated(reason: string, n: nat): multiset<string> {
    if n == 0 then multiset{} else Repeated(reason, n - 1) + multiset{reason}
  }

  function Portfolio(items: seq<Item>, scenario: Scenario, policy: Policy, bought: set<string>, tape: Tape): Desk {
    var capital := CapitalOf(items);
    if capital.None? then Desk(0.0, 0.0, None, [], multiset{}, Repeated(MISSING_CAPITAL, |items|), 0)
    else Replayed(Opening(items, capital.value), InOrder(items), scenario, policy, bought, tape)
  }

  /** `_portfolio` as written: the loop's running cash, realized P&L, exit times and counters. */
  method RunPortfolio(items: seq<Item>, scenario: Scenario, policy: Policy, bought: set<string>, tape: Tape) returns (d: Desk)
    ensures d == Portfolio(items, scenario, policy, bought, tape)
  {
    hide Considered;
    var capital := CapitalOf(items);
    if capital.None? {
      return Desk(0.0, 0.0, None, [], multiset{}, Repeated(MISSING_CAPITAL, |items|), 0);
    }
    var exclusions: multiset<string> := multiset{};
    for k := 0 to |items|
      invariant exclusions == Untimed(items[..k])
    {
      assert items[..k + 1][..k] == items[..k];
      if items[k].at.None? {
        exclusions := exclusions + multiset{if items[k].excluded.Some? then items[k].excluded.value else MISSING_TIME};
      }
    }
    assert items[..|items|] == items;
    var ordered := InOrder(items);
    d := Desk(capital.value, 0.0, None, [], multiset{}, exclusions, 0);
    ghost var opening := d;
    for k := 0 to |ordered|
      invariant d == Replayed(opening, ordered[..k], scenario, policy, bought, tape)
    {
      assert ordered[..k + 1][..k] == ordered[..k];
      d := Consider(d, ordered[k], ordered[k].at.value, scenario, policy, bought, tape(ordered[k], d.cash, d.realized));
    }
    assert ordered[..|ordered|] == ordered;
  }

  /** The body of the loop. */
  method Consider(was: Desk, item: Item, now: int, scenario: Scenario, policy: Policy, bought: set<string>, offer: Offer)
    returns (d: Desk)
    ensures d == Considered(was, item, now, scenario, policy, bought, offer)
  {
    hide Paid, CostsOf, EntriesOn;
    d := was;
    if item.excluded.Some? {
      d := d.(exclusions := d.exclusions + multiset{item.excluded.value});
      return;
    }
    if HeldByPolicy(item, policy, bought) {
      d := d.(holds := d.holds + 1);
      return;
    }
    var veto := VetoOf(d, item, now, scenario);
    if veto.Some? {
      d := d.(vetoes := d.vetoes + multiset{veto.value});
      return;
    }
    if offer.NoEntry? {
      d := d.(exclusions := d.exclusions + multiset{offer.reason});
      return;
    }
    if offer.cost > d.cash {
      d := d.(exclusions := d.exclusions + multiset{"insufficient_cash"});
      return;
    }
    if offer.path.None? || offer.path.value == [] {
      d := d.(exclusions := d.exclusions + multiset{"exit_path_missing"});
      return;
    }
    var fills := offer.path.value;
    var proceeds, exitCosts := SumFills(fills);
    var pnl := proceeds - offer.cost;
    d := d.(cash := d.cash - offer.cost + proceeds);
    d := d.(realized := d.realized + pnl);
    d := d.(lastExit := Some(fills[|fills| - 1].at));
    d := d.(trades := d.trades + [Trade(item.occurrence, now, pnl, offer.entryCosts + exitCosts, fills[|fills| - 1].at)]);
  }

  method SumFills(fills: seq<ExitFill>) returns (proceeds: real, exitCosts: real)
    ensures proceeds == Paid(fills) && exitCosts == CostsOf(fills)
  {
    proceeds, exitCosts := 0.0, 0.0;
    for k := 0 to |fills|
      invariant proceeds == Paid(fills[..k]) && exitCosts == CostsOf(fills[..k])
    {
      assert fills[..k + 1][..k] == fills[..k];
      exitCosts := exitCosts + fills[k].costs;
      proceeds := proceeds + (fills[k].price * fills[k].quantity as real - fills[k].costs);
    }
    assert fills[..|fills|] == fills;
  }

  // ---------------------------------------------------------------- nothing unclassified

  function Classified(d: Desk): nat {
    |d.trades| + d.holds + |d.vetoes| + |d.exclusions|
  }

  lemma ConsideredOnce(d: Desk, item: Item, now: int, scenario: Scenario, policy: Policy, bought: set<string>, offer: Offer)
    ensures Classified(Considered(d, item, now, scenario, policy, bought, offer)) == Classified(d) + 1
  {
    hide Paid, CostsOf, EntriesOn, VetoOf;
  }

  lemma {:induction false} ReplayedCount(d: Desk, items: seq<Item>, scenario: Scenario, policy: Policy,
      bought: set<string>, tape: Tape)
    requires AllTimed(items)
    ensures Classified(Replayed(d, items, scenario, policy, bought, tape)) == Classified(d) + |items|
  {
    hide Considered, Classified;
    if items != [] {
      var n := |items| - 1;
      ReplayedCount(d, items[..n], scenario, policy, bought, tape);
      var before := Replayed(d, items[..n], scenario, policy, bought, tape);
      ConsideredOnce(before, items[n], items[n].at.value, scenario, policy, bought, tape(items[n], before.cash, before.realized));
    }
  }

  lemma {:induction false} TimedAndUntimed(items: seq<Item>)
    ensures |InOrder(items)| + |Untimed(items)| == |items|
  {
    if items != [] {
      TimedAndUntimed(items[..|items| - 1]);
    }
  }

  lemma {:induction false} RepeatedCount(reason: string, n: nat)
    ensures |Repeated(reason, n)| == n
  {
    if n > 0 {
      RepeatedCount(reason, n - 1);
    }
  }

  /** Every opportunity is classified exactly once: as a trade, a policy hold, a veto or an
      exclusion. The constant zero reported as unclassified is true. */
  lemma NothingUnclassified(items: seq<Item>, scenario: Scenario, policy: Policy, bought: set<string>, tape: Tape)
    ensures Classified(Portfolio(items, scenario, policy, bought, tape)) == |items|
  {
    hide Replayed, InOrder, Untimed;
    var capital := CapitalOf(items);
    if capital.None? {
      RepeatedCount(MISSING_CAPITAL, |items|);
    } else {
      ReplayedCount(Opening(items, capital.value), InOrder(items), scenario, policy, bought, tape);
      TimedAndUntimed(items);
    }
  }

  // ---------------------------------------------------------------- money and limits

  function NetOf(trades: seq<Trade>): real {
    if trades == [] then 0.0 else NetOf(trades[..|trades| - 1]) + trades[|trades| - 1].netPnl
  }

  /** Cash is the capital plus every trade's net P&L; no exchange date holds more trades than the
      cap; the last exit is the last trade's; each trade came at least the cooldown after the exit
      before it. */
  ghost predicate Sound(d: Desk, capital: real, scenario: Scenario) {
    && d.realized == NetOf(d.trades) && d.cash == capital + d.realized
    && (forall day :: EntriesOn(d.trades, day) == 0 || EntriesOn(d.trades, day) <= scenario.entryCap)
    && d.lastExit == (if d.trades == [] then None else Some(d.trades[|d.trades| - 1].exitedAt))
    && (forall k :: 0 < k < |d.trades| ==>
          d.trades[k].at >= d.trades[k - 1].exitedAt
          && d.trades[k].at - d.trades[k - 1].exitedAt >= scenario.cooldownSeconds * SECOND)
  }

  lemma TradedKeeps(d: Desk, capital: real, item: Item, now: int, scenario: Scenario, cost: real, entryCosts: real,
      fills: seq<ExitFill>)
    requires Sound(d, capital, scenario) && VetoOf(d, item, now, scenario).None? && fills != []
    ensures Sound(Traded(d, item, now, cost, entryCosts, fills), capital, scenario)
  {
    hide Paid, CostsOf, DateOf;
    var after := Traded(d, item, now, cost, entryCosts, fills);
    assert after.trades[..|d.trades|] == d.trades;
    forall day ensures EntriesOn(after.trades, day) == 0 || EntriesOn(after.trades, day) <= scenario.entryCap {
      assert EntriesOn(d.trades, day) == 0 || EntriesOn(d.trades, day) <= scenario.entryCap;
    }
  }

  lemma {:induction false} ReplayedKeeps(d: Desk, capital: real, items: seq<Item>, scenario: Scenario, policy: Policy,
      bought: set<string>, tape: Tape)
    requires AllTimed(items) && Sound(d, capital, scenario)
    ensures Sound(Replayed(d, items, scenario, policy, bought, tape), capital, scenario)
  {
    hide Sound, Traded, VetoOf;
    if items != [] {
      var n := |items| - 1;
      ReplayedKeeps(d, capital, items[..n], scenario, policy, bought, tape);
      var before := Replayed(d, items[..n], scenario, policy, bought, tape);
      ConsideredKeeps(before, capital, items[n], items[n].at.value, scenario, policy, bought, tape(items[n], before.cash, before.realized));
    }
  }

  lemma ConsideredKeeps(d: Desk, capital: real, item: Item, now: int, scenario: Scenario, policy: Policy,
      bought: set<string>, offer: Offer)
    requires Sound(d, capital, scenario)
    ensures Sound(Considered(d, item, now, scenario, policy, bought, offer), capital, scenario)
  {
    hide VetoOf, Traded, Sound;
    SameTrades(d, Considered(d, item, now, scenario, policy, bought, offer), capital, scenario);
    if offer.Entry? && offer.path.Some? && offer.path.value != [] && VetoOf(d, item, now, scenario).None? {
      TradedKeeps(d, capital, item, now, scenario, offer.cost, offer.entryCosts, offer.path.value);
    }
  }

  /** Soundness reads the money and the trades only. */
  lemma SameTrades(d: Desk, after: Desk, capital: real, scenario: Scenario)
    requires Sound(d, capital, scenario)
    ensures
      after.(holds := d.holds, vetoes := d.vetoes, exclusions := d.exclusions) == d ==> Sound(after, capital, scenario)
  {
    hide EntriesOn, NetOf;
  }

  /** Over any stream, policy and tape. */
  lemma PortfolioSound(items: seq<Item>, scenario: Scenario, policy: Policy, bought: set<string>, tape: Tape)
    requires CapitalOf(items).Some?
    ensures Sound(Portfolio(items, scenario, policy, bought, tape), CapitalOf(items).value, scenario)
  {
    hide Replayed, InOrder, Untimed;
    ReplayedKeeps(Opening(items, CapitalOf(items).value), CapitalOf(items).value, InOrder(items), scenario, policy, bought, tape);
  }
}
