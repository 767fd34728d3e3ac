/** Which class each opportunity falls in, what a trade is worth and in which order the stream is
    taken (`_portfolio` in `options_evidence_gates.py`), stated on the opportunity and the past. */
module PortfolioOutcomes {
  import opened Common
  import opened EvidencePortfolio

  // ---------------------------------------------------------------- money of a trade

  function Turnover(fills: seq<ExitFill>): real {
    if fills == [] then 0.0 else fills[0].price * fills[0].quantity as real + Turnover(fills[1..])
  }

  function Fees(fills: seq<ExitFill>): real {
    if fills == [] then 0.0 else fills[0].costs + Fees(fills[1..])
  }

  lemma TurnoverAppended(fills: seq<ExitFill>, f: ExitFill)
    ensures Turnover(fills + [f]) == Turnover(fills) + f.price * f.quantity as real && Fees(fills + [f]) == Fees(fills) + f.costs
  {
    if fills != [] {
      assert (fills + [f])[1..] == fills[1..] + [f];
      TurnoverAppended(fills[1..], f);
    }
  }

  lemma {:induction false} PaidIs(fills: seq<ExitFill>)
    ensures Paid(fills) == Turnover(fills) - Fees(fills) && CostsOf(fills) == Fees(fills)
  {
    if fills != [] {
      var n := |fills| - 1;
      assert fills == fills[..n] + [fills[n]];
      PaidIs(fills[..n]);
      TurnoverAppended(fills[..n], fills[n]);
    }
  }

  /** Trades so far whose entry lies on an exchange date. */
  function TradesOn(trades: seq<Trade>, day: int): nat {
    |set k | 0 <= k < |trades| && DateOf(trades[k].at) == day|
  }

  lemma {:induction false} EntriesAre(trades: seq<Trade>, day: int)
    ensures EntriesOn(trades, day) == TradesOn(trades, day)
  {
    hide DateOf;
    if trades != [] {
      EntriesAre(trades[..|trades| - 1], day);
      hide TradesOn;
      TradesCounted(trades, day);
    }
  }

  lemma TradesCounted(trades: seq<Trade>, day: int)
    requires trades != []
    ensures TradesOn(trades, day) == TradesOn(trades[..|trades| - 1], day) + if DateOf(trades[|trades| - 1].at) == day then 1 else 0
  {
    hide DateOf;
    var n := |trades| - 1;
    var all := set k | 0 <= k < |trades| && DateOf(trades[k].at) == day;
    var before := set k | 0 <= k < n && DateOf(trades[..n][k].at) == day;
    if DateOf(trades[n].at) == day {
      assert n !in before && all == before + {n};
    } else {
      assert all == before;
    }
  }

  // ---------------------------------------------------------------- one opportunity

  /** The policy passes on it: HOLD always does, the AI unless it bought this very plan, the
      deterministic plan never. */
  predicate PassedOn(policy: Policy, plan: string, bought: set<string>) {
    policy == AlwaysHold || (policy == FollowAi && plan !in bought)
  }

  /** The first limit it runs into: the last position is not out yet, the day has its entries, the
      cooldown is not over, a high-impact event is near and the scenario minds. */
  predicate LimitedBy(d: Desk, item: Item, now: int, scenario: Scenario, veto: Option<Veto>) {
    var held := d.lastExit.Some? && now < d.lastExit.value;
    var full := scenario.entryCap <= TradesOn(d.trades, DateOf(now));
    var cooling := d.lastExit.Some? && now < d.lastExit.value + scenario.cooldownSeconds * 1_000_000;
    var event := scenario.enforceEventWindow && item.highImpact;
    && (veto == Some(OnePositionActive) <==> held)
    && (veto == Some(DailyEntryCap) <==> !held && full)
    && (veto == Some(PostExitCooldown) <==> !held && !full && cooling)
    && (veto == Some(HighImpactEventWindow) <==> !held && !full && !cooling && event)
    && (veto == None <==> !held && !full && !cooling && !event)
  }

  lemma VetoIs(d: Desk, item: Item, now: int, scenario: Scenario)
    ensures LimitedBy(d, item, now, scenario, VetoOf(d, item, now, scenario))
  {
    hide EntriesOn, TradesOn;
    EntriesAre(d.trades, DateOf(now));
  }

  /** An opportunity becomes a trade exactly when it is not excluded, the policy takes it, no limit
      stops it, the tape offers an entry the cash pays for, and that entry has a finished exit path;
      the trade earns the exit turnover less all costs. Otherwise exactly one count grows. */
  lemma OpportunityBecomes(d: Desk, item: Item, now: int, scenario: Scenario, policy: Policy, bought: set<string>, offer: Offer)
    returns (veto: Option<Veto>)
    ensures LimitedBy(d, item, now, scenario, veto)
    ensures
      var after := Considered(d, item, now, scenario, policy, bought, offer);
      if item.excluded.Some? then after == d.(exclusions := d.exclusions + multiset{item.excluded.value})
      else if PassedOn(policy, item.plan, bought) then after == d.(holds := d.holds + 1)
      else if veto.Some? then after == d.(vetoes := d.vetoes + multiset{veto.value})
      else if offer.NoEntry? then after == d.(exclusions := d.exclusions + multiset{offer.reason})
      else if d.cash < offer.cost then after == d.(exclusions := d.exclusions + multiset{"insufficient_cash"})
      else if offer.path == None || offer.path == Some([]) then after == d.(exclusions := d.exclusions + multiset{"exit_path_missing"})
      else
        var fills := offer.path.value;
        var net := Turnover(fills) - Fees(fills) - offer.cost;
        after == d.(cash := d.cash + net, realized := d.realized + net, lastExit := Some(fills[|fills| - 1].at),
                    trades := d.trades + [Trade(item.occurrence, now, net, offer.entryCosts + Fees(fills), fills[|fills| - 1].at)])
  {
    hide Paid, CostsOf, LimitedBy;
    veto := VetoOf(d, item, now, scenario);
    VetoIs(d, item, now, scenario);
    hide VetoOf;
    if offer.Entry? && offer.path.Some? {
      PaidIs(offer.path.value);
    }
  }

  // ---------------------------------------------------------------- the stream

  predicate NotAfter(a: Item, b: Item)
    requires a.at.Some? && b.at.Some?
  {
    a.at.value < b.at.value || (a.at.value == b.at.value && !Precedes(b.occurrence, a.occurrence))
  }

  ghost predicate Sorted(items: seq<Item>)
    requires AllTimed(items)
  {
    forall i, j :: 0 <= i < j < |items| ==> NotAfter(items[i], items[j])
  }

  function TimedOnly(items: seq<Item>): multiset<Item> {
    if items == [] then multiset{}
    else TimedOnly(items[..|items| - 1]) + if items[|items| - 1].at.Some? then multiset{items[|items| - 1]} else multiset{}
  }

  lemma Chain(a: Item, b: Item, c: Item)
    requires a.at.Some? && b.at.Some? && c.at.Some?
    ensures NotAfter(a, b) && NotAfter(b, c) ==> NotAfter(a, c)
    ensures Earlier(a, b) ==> NotAfter(a, b)
    ensures !Earlier(b, a) ==> NotAfter(a, b)
  {
    hide Precedes;
    PrecedesTotal(a.occurrence, b.occurrence);
    PrecedesTotal(b.occurrence, c.occurrence);
    PrecedesTotal(a.occurrence, c.occurrence);
    if Precedes(c.occurrence, a.occurrence) {
      if Precedes(a.occurrence, b.occurrence) {
        PrecedesTransitive(c.occurrence, a.occurrence, b.occurrence);
      }
    }
  }

  lemma {:induction false} PlacedSorted(items: seq<Item>, item: Item)
    requires AllTimed(items) && item.at.Some? && Sorted(items)
    ensures Sorted(Placed(items, item)) && multiset(Placed(items, item)) == multiset(items) + multiset{item}
  {
    hide NotAfter, Earlier;
    if items != [] {
      var n := |items| - 1;
      assert items == items[..n] + [items[n]];
      if Earlier(item, items[n]) {
        PlacedSorted(items[..n], item);
        var front := Placed(items[..n], item);
        forall i | 0 <= i < |front| ensures NotAfter(front[i], items[n]) {
          assert front[i] in multiset(front);
          assert front[i] in multiset(items[..n]) || front[i] == item;
          Chain(item, items[n], item);
        }
      } else {
        forall i | 0 <= i < n + 1 ensures NotAfter(items[i], item) {
          Chain(items[n], item, item);
          Chain(items[i], items[n], item);
        }
      }
    }
  }

  /** The stream is taken by time, and by identifier within an instant: all timed opportunities, each
      once; the others are only counted. */
  lemma {:induction false} StreamInOrder(items: seq<Item>)
    ensures Sorted(InOrder(items)) && multiset(InOrder(items)) == TimedOnly(items)
  {
    hide NotAfter, Placed;
    if items != [] {
      var n := |items| - 1;
      StreamInOrder(items[..n]);
      if items[n].at.Some? {
        PlacedSorted(InOrder(items[..n]), items[n]);
      }
    }
  }

  predicate Unfunded(item: Item) {
    item.capital == None || item.capital == Some(0.0)
  }

  /** The capital is the first one recorded that is not zero; without any, nothing is replayed. */
  lemma {:induction false} CapitalIs(items: seq<Item>)
    ensures CapitalOf(items) == None <==> forall j :: 0 <= j < |items| ==> Unfunded(items[j])
    ensures forall k :: 0 <= k < |items| && !Unfunded(items[k]) && (forall j :: 0 <= j < k ==> Unfunded(items[j]))
              ==> CapitalOf(items) == items[k].capital
  {
    if items != [] {
      CapitalIs(items[1..]);
      assert forall j :: 0 < j < |items| ==> items[j] == items[1..][j - 1];
      assert forall j :: 0 <= j < |items| - 1 ==> items[1..][j] == items[j + 1];
    }
  }
}
