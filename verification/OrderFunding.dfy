/** One order from its reservation to its last fill or release: what leaves the lock, to the unit. */
module OrderFunding {
  import opened Types
  import opened Rounding
  import opened Matching
  import opened Accounts
  import opened Deltas

  /** All legs are fills of one buy. */
  predicate LegsOfBuy(legs: seq<Leg>, o: Order) {
    o.action == Buy && forall i :: 0 <= i < |legs| ==> SameOrder(o, legs[i].order)
  }

  lemma {:induction false} BuySpends(legs: seq<Leg>, o: Order)
    requires LegsOk(legs) && LegsOfBuy(legs, o)
    ensures o.otype == Market ==> SumLegs(legs).lockUsed == Spent(legs) && SumLegs(legs).refund == 0
    ensures SumLegs(legs).yesUsed == 0 == SumLegs(legs).noUsed
  {
    if legs != [] { BuySpends(legs[..|legs| - 1], o); }
  }

  /**
   * A market buy whose fills and refund make up what it set out to spend, as the matcher's do, empties its
   * reservation exactly: the lock is as it was before the order, and only what was paid is gone.
   */
  lemma MarketBuyEmptiesReserve(a: Account, o: Order, legs: seq<Leg>, qty: nat, refund: nat)
    requires SpendDenominated(o) && LegsOk(legs) && LegsOfBuy(legs, o)
    requires Spent(legs) + refund == o.spend && Reserve(a, o).Ok?
    ensures NoClamp(Reserve(a, o).value, legs)
    ensures var filled := FillAll(Reserve(a, o).value, legs);
      var done := if refund == 0 then filled else Release(filled, o, qty, refund);
      && done.cash.locked == a.cash.locked
      && done.cash.available == a.cash.available - Spent(legs)
      && done.cash.pending == a.cash.pending
  {
    var r := Reserve(a, o).value;
    BuySpends(legs, o);
    NoClampIff(r, legs);
    FillsUseLocks(r, legs);
    FillsMakePending(r, legs);
    NoneSold(legs, o);
  }

  lemma NoneSold(legs: seq<Leg>, o: Order)
    requires LegsOk(legs) && LegsOfBuy(legs, o)
    ensures Proceeds(legs) == 0
  {
    assert AllOf(legs, Buy);
    NoneMoved(legs, Buy, Sell);
  }

  function Lots(legs: seq<Leg>): seq<nat> {
    seq(|legs|, i requires 0 <= i < |legs| => legs[i].lots)
  }

  lemma {:induction false} SumCostLast(parts: seq<nat>, last: nat, tick: nat)
    ensures Sum(parts + [last]) == Sum(parts) + last
    ensures SumCost(parts + [last], tick) == SumCost(parts, tick) + Cost(last, tick)
  {
    if parts == [] {
      assert [] + [last] == [last] && [last][1..] == [];
    } else {
      assert (parts + [last])[1..] == parts[1..] + [last];
      SumCostLast(parts[1..], last, tick);
    }
  }

  /** Fills of a limit buy take their own reserves out of the lock, or all of it if there is less. */
  lemma {:induction false} LimitLegsTake(a: Account, legs: seq<Leg>, o: Order)
    requires LegsOk(legs) && LegsOfBuy(legs, o) && o.otype == Limit
    ensures FillAll(a, legs).cash.locked == a.cash.locked - Min(SumCost(Lots(legs), o.originalTick), a.cash.locked)
  {
    if legs != [] {
      var n := |legs| - 1;
      LimitLegsTake(a, legs[..n], o);
      assert Lots(legs) == Lots(legs[..n]) + [legs[n].lots];
      SumCostLast(Lots(legs[..n]), legs[n].lots, o.originalTick);
    }
  }

  /**
   * A limit buy leaves the lock in parts, each fill and then what is released of the rest. With its reservation in
   * the lock, and whatever else is, the parts together take at least the reservation and at most one unit more for
   * every part after the first.
   */
  lemma LimitBuyTakesReserve(a: Account, o: Order, legs: seq<Leg>, rest: nat)
    requires o.otype == Limit && LegsOk(legs) && LegsOfBuy(legs, o)
    requires Sum(Lots(legs)) + rest == o.qty && rest > 0 && RequiredReserve(o) <= a.cash.locked
    ensures var released := Release(FillAll(a, legs), o, rest, 0);
      && a.cash.locked - released.cash.locked == Min(SumCost(Lots(legs) + [rest], o.originalTick), a.cash.locked)
      && RequiredReserve(o) <= a.cash.locked - released.cash.locked <= RequiredReserve(o) + |legs|
  {
    LimitLegsTake(a, legs, o);
    var parts := Lots(legs) + [rest];
    SumCostLast(Lots(legs), rest, o.originalTick);
    SplitTakesReserve(parts, o.originalTick);
  }

  /** The same for a limit buy that is filled to the last lot. */
  lemma FilledLimitBuyTakesReserve(a: Account, o: Order, legs: seq<Leg>)
    requires o.otype == Limit && LegsOk(legs) && LegsOfBuy(legs, o) && legs != []
    requires Sum(Lots(legs)) == o.qty && RequiredReserve(o) <= a.cash.locked
    ensures a.cash.locked - FillAll(a, legs).cash.locked == Min(SumCost(Lots(legs), o.originalTick), a.cash.locked)
    ensures RequiredReserve(o) <= a.cash.locked - FillAll(a, legs).cash.locked <= RequiredReserve(o) + |legs| - 1
  {
    LimitLegsTake(a, legs, o);
    SplitTakesReserve(Lots(legs), o.originalTick);
  }

  /** With nothing but its own reservation in the lock, a limit buy takes exactly that, however it is split. */
  lemma LoneLimitBuyEmptiesLock(a: Account, o: Order, legs: seq<Leg>, rest: nat)
    requires o.otype == Limit && LegsOk(legs) && LegsOfBuy(legs, o) && RequiredReserve(o) == a.cash.locked
    requires Sum(Lots(legs)) + rest == o.qty && (rest > 0 || legs != [])
    ensures (if rest > 0 then Release(FillAll(a, legs), o, rest, 0) else FillAll(a, legs)).cash.locked == 0
  {
    if rest > 0 {
      LimitBuyTakesReserve(a, o, legs, rest);
    } else {
      FilledLimitBuyTakesReserve(a, o, legs);
    }
  }

  /**
   * With an order's reservation among others in the lock, its parts take exactly that reservation, and leave the
   * others' alone, if and only if what each part is short of a whole unit adds up to less than one, or there are no others.
   */
  lemma TakesOnlyItsOwnIff(a: Account, o: Order, legs: seq<Leg>)
    requires o.otype == Limit && LegsOk(legs) && LegsOfBuy(legs, o) && legs != []
    requires Sum(Lots(legs)) == o.qty && RequiredReserve(o) <= a.cash.locked
    ensures a.cash.locked - FillAll(a, legs).cash.locked == RequiredReserve(o)
        <==> SumSlack(Lots(legs), o.originalTick) < 100 || RequiredReserve(o) == a.cash.locked
  {
    FilledLimitBuyTakesReserve(a, o, legs);
    SplitIsExactIff(Lots(legs), o.originalTick);
  }
}
