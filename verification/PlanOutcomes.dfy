/** Which plans a scan offers (`select_plans` in `playbooks.py`): when a candidate yields one, what the
    plan says, and which candidate of a playbook is taken. */
module PlanOutcomes {
  import opened Common
  import opened Rounding
  import opened OptionsRisk
  import opened OptionsSizing
  import opened DeskSession
  import opened DeskEntries
  import opened DeskScans

  /** The candidate's quote with its ask half a percent up, on which the plan is sized and capped. */
  function Raised(quote: Quote): Quote {
    Quote(quote.bid, quote.ask + quote.ask / 200.0, quote.bidSize, quote.askSize, quote.stamp)
  }

  /** A routed candidate that outlives the day, on a current two-sided quote at most two percent wide,
      of which the budget carries a lot at the raised ask, and whose exits can be placed at today's. */
  predicate Sized(b: Budget, day: int, c: Candidate, now: int, quantity: int)
    requires b.limits.Valid() && c.quote.ask > 0.0
  {
    && c.routed && day < c.contract.expiry
    && c.quote.stamp <= now <= c.quote.stamp + 90_000_000
    && 0.0 < c.quote.bid <= c.quote.ask && 50.0 * (c.quote.ask - c.quote.bid) <= c.quote.ask
    && quantity == QuantityFor(b, c.contract, Raised(c.quote)) && quantity != 0
    && var fill := FillPrice(c.quote, c.contract, true);
       && fill > 0.0 && quantity > 0
       && 0.0 < c.profile.stopPct && 0.0 < c.profile.targetPct && 1.0 <= c.profile.rewardR && 1 <= c.profile.maxHold <= 120
       && var target := TargetFor(b.limits, c.profile, fill, quantity, c.contract);
          target != fill && RoundTripCost(fill, quantity, target) <= c.profile.maxCostShare * ((target - fill) * quantity as real)
  }

  /** The plan of a sized candidate: its side and levels, that quantity, and the raised fill as the most
      it may cost. */
  lemma OfferedIff(b: Budget, day: int, c: Candidate, now: int)
    requires b.limits.Valid()
    ensures
      var offer := OfferOf(b, day, c, now);
      && (offer.Some? <==> c.quote.ask > 0.0 && Sized(b, day, c, now, QuantityFor(b, c.contract, Raised(c.quote))))
      && (offer.Some? ==>
            offer.value == Offer(c.contract, Plan(c.kind, c.invalidation, QuantityFor(b, c.contract, Raised(c.quote)),
                                                  FillPrice(Raised(c.quote), c.contract, true), c.profile)))
  {
    hide QuantityFor, FillPrice, ExitLevelsFor, TargetFor, RoundTripCost;
    assert Capped(c.quote) == Raised(c.quote);
    if c.quote.ask > 0.0 {
      SpreadIs(c.quote.bid, c.quote.ask);
      var quantity := QuantityFor(b, c.contract, Capped(c.quote));
      LevelsOkIff(b.limits, c.profile, FillPrice(c.quote, c.contract, true), quantity, c.contract);
    }
  }

  /** The first candidate that yields a plan is the playbook's; without any the playbook offers none. */
  lemma {:induction false} FirstIs(b: Budget, day: int, candidates: seq<Candidate>, now: int)
    requires b.limits.Valid()
    ensures FirstOffer(b, day, candidates, now) == None <==> forall j :: 0 <= j < |candidates| ==> OfferOf(b, day, candidates[j], now) == None
    ensures forall j :: 0 <= j < |candidates| && OfferOf(b, day, candidates[j], now).Some?
                        && (forall i :: 0 <= i < j ==> OfferOf(b, day, candidates[i], now) == None)
              ==> FirstOffer(b, day, candidates, now) == OfferOf(b, day, candidates[j], now)
  {
    hide OfferOf;
    if candidates != [] {
      FirstIs(b, day, candidates[1..], now);
      if OfferOf(b, day, candidates[0], now) == None {
        assert forall j :: 0 < j < |candidates| ==> candidates[j] == candidates[1..][j - 1];
        forall j | 0 <= j < |candidates| && OfferOf(b, day, candidates[j], now).Some?
                   && (forall i :: 0 <= i < j ==> OfferOf(b, day, candidates[i], now) == None)
          ensures FirstOffer(b, day, candidates, now) == OfferOf(b, day, candidates[j], now)
        {
          forall i | 0 <= i < j - 1 ensures OfferOf(b, day, candidates[1..][i], now) == None {
            assert candidates[1..][i] == candidates[i + 1];
          }
        }
      }
    }
  }

  /** Each playbook in turn adds its plan, if it offers one: the offers of two runs of playbooks follow
      each other. */
  lemma {:induction false} OffersJoin(b: Budget, day: int, one: seq<seq<Candidate>>, other: seq<seq<Candidate>>, now: int)
    requires b.limits.Valid()
    ensures Offers(b, day, one + other, now) == Offers(b, day, one, now) + Offers(b, day, other, now)
    ensures |other| == 1 ==>
              Offers(b, day, other, now) == if FirstOffer(b, day, other[0], now).Some? then [FirstOffer(b, day, other[0], now).value] else []
    decreases |other|
  {
    hide FirstOffer;
    if other == [] {
      assert one + other == one;
    } else {
      var n := |other| - 1;
      OffersJoin(b, day, one, other[..n], now);
      assert (one + other)[..|one + other| - 1] == one + other[..n];
    }
  }
}
