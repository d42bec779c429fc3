/** What the matcher hands over is what the results about the funds ledger ask of a batch. */
module Emitted {
  import opened Types
  import opened Matching
  import opened Batch
  import opened BookModel
  import opened MarketRun
  import opened Accounts
  import opened Deltas
  import opened Ledgers
  import opened OrderFunding
  import opened Conservation

  /** A batch as the funds service receives it. */
  function Handed(id: string, market: nat, b: MatchBatch): BatchEvent {
    BatchEvent(id, market, b.orders, b.fills, b.updates)
  }

  // ----- Every fill of a reachable batch -----

  /** A wallet's side of a fill that gives something and costs a buyer no more than its own price. */
  predicate SafeLeg(l: Leg) {
    l.lots > 0 && ValidTick(l.price) && (l.order.action == Buy ==> LegUnits(l) <= LegLock(l))
  }

  predicate SafeFill(index: map<nat, Order>, f: MatchFill) {
    && f.makerIndex in index && f.takerIndex in index
    && Paired(index[f.makerIndex], index[f.takerIndex])
    && SafeLeg(Leg(index[f.makerIndex], f.amount, f.price))
    && SafeLeg(Leg(index[f.takerIndex], f.amount, f.price))
  }

  /** Orders that carry their positions as indexes are found by them. */
  lemma {:induction false} ByIndexIs(orders: seq<MatchedOrder>)
    requires forall i :: 0 <= i < |orders| ==> orders[i].orderIndex == i
    ensures forall i: nat :: i in ByIndex(orders) <==> i < |orders|
    ensures forall i :: 0 <= i < |orders| ==> ByIndex(orders)[i] == orders[i].execution
  {
    if orders != [] {
      ByIndexIs(orders[..|orders| - 1]);
    }
  }

  lemma IndexedByPlace(b: MatchBatch, placed: Placed)
    requires BatchInv(b, placed) && |b.orders| <= INDEX_RANGE
    ensures forall i: nat :: i in ByIndex(b.orders) <==> i < |b.orders|
    ensures forall i :: 0 <= i < |b.orders| ==> ByIndex(b.orders)[i] == b.orders[i].execution
  {
    forall i | 0 <= i < |b.orders|
      ensures b.orders[i].orderIndex == i
    {
      assert SlotMatches(b.orders, b.index, i);
    }
    ByIndexIs(b.orders);
  }

  lemma FillIsSafe(b: MatchBatch, placed: Placed, k: nat)
    requires BatchInv(b, placed) && |b.orders| <= INDEX_RANGE && k < |b.fills|
    requires forall id :: id in placed ==> Normalized(placed[id])
    ensures SafeFill(ByIndex(b.orders), b.fills[k])
  {
    IndexedByPlace(b, placed);
    var f := b.fills[k];
    assert SoundFill(f, k, b.orders);
    var (maker, taker) := (b.orders[f.makerIndex].execution, b.orders[f.takerIndex].execution);
    assert Known(placed, maker) && Known(placed, taker);
    PriceProtection(maker, taker, f.amount);
    ClassificationSound(maker, taker);
  }

  lemma {:induction false} LegsAreSafe(index: map<nat, Order>, fills: seq<MatchFill>)
    requires forall k :: 0 <= k < |fills| ==> fills[k].price <= 100 && SafeFill(index, fills[k])
    ensures forall k :: 0 <= k < |LegsOf(index, fills)| ==> SafeLeg(LegsOf(index, fills)[k])
  {
    if fills != [] {
      LegsAreSafe(index, fills[..|fills| - 1]);
    }
  }

  /**
   * Whatever commands arrived, a batch that is handed over trades or makes or breaks whole sets, and charges no
   * wallet more for a buy than its lock holds for it. All that is left to ask of a wallet is that its locks hold
   * what its fills use in all.
   */
  lemma HandedIsProtected(actions: seq<Action>, m: MarketState, id: string, market: nat, g: Ledger, w: string)
    requires Reaches(NEW_MARKET, actions, m) && |m.batch.orders| <= INDEX_RANGE
    requires forall id :: id in m.placed ==> Normalized(m.placed[id])
    ensures var e := Handed(id, market, m.batch);
      && PairedBatch(e)
      && LegsOk(Mine(Legs(e), w)) && Priced(Mine(Legs(e), w)) && Protected(Mine(Legs(e), w))
      && (Solid(g, e, w) <==>
            var (a, d) := (At(g, Key(w, market)), SumLegs(Mine(Legs(e), w)));
            d.lockUsed <= a.cash.locked && d.yesUsed <= a.position.yes.locked && d.noUsed <= a.position.no.locked)
  {
    ReachableInv(actions, m);
    var e := Handed(id, market, m.batch);
    forall k | 0 <= k < |e.fills|
      ensures e.fills[k].price <= 100 && SafeFill(ByIndex(e.orders), e.fills[k])
    {
      FillIsSafe(m.batch, m.placed, k);
    }
    hide BatchInv, BookInv, ByIndex, Reaches, Paired;
    LegsAreSafe(ByIndex(e.orders), e.fills);
    MineIsSubset(Legs(e), w);
    NoClampIff(At(g, Key(w, market)), Mine(Legs(e), w));
  }

  // ----- A market buy from its placing to its reservation -----

  /** One order's legs. */
  function OfOrder(legs: seq<Leg>, id: nat): seq<Leg> {
    if legs == [] then []
    else
      var front := OfOrder(legs[..|legs| - 1], id);
      if legs[|legs| - 1].order.id == id then front + [legs[|legs| - 1]] else front
  }

  lemma {:induction false} OfOrderIs(legs: seq<Leg>, id: nat)
    ensures forall k :: 0 <= k < |OfOrder(legs, id)| ==> OfOrder(legs, id)[k] in legs && OfOrder(legs, id)[k].order.id == id
    ensures LegsOk(legs) ==> LegsOk(OfOrder(legs, id))
  {
    if legs != [] { OfOrderIs(legs[..|legs| - 1], id); }
  }

  /** What recording the fills of one taker adds to a batch: orders at the end, and fills that name the taker. */
  predicate Grows(b: MatchBatch, r: MatchBatch, taker: nat) {
    && b.orders <= r.orders && b.fills <= r.fills
    && (forall id :: id in b.index ==> id in r.index && r.index[id] == b.index[id])
    && (|b.fills| < |r.fills| ==> taker in r.index)
    && (forall k :: |b.fills| <= k < |r.fills| && taker in r.index ==> r.fills[k].takerIndex == r.index[taker])
  }

  lemma GrowsMore(a: MatchBatch, b: MatchBatch, c: MatchBatch, taker: nat)
    requires Grows(a, b, taker) && Grows(b, c, taker)
    ensures Grows(a, c, taker)
  {
    forall k | |a.fills| <= k < |c.fills| && taker in c.index
      ensures c.fills[k].takerIndex == c.index[taker]
    {
      if k < |b.fills| { assert c.fills[k] == b.fills[k]; }
    }
  }

  lemma EventGrows(b: MatchBatch, e: MakerEvent, payer: Order)
    requires e.maker.tick <= 100 && (e.Traded? ==> SameOrder(payer, e.taker))
    ensures Grows(b, RecordEvent(b, e), payer.id)
  {
    if e.Traded? {
      var after := e.maker.(qty := if e.lots <= e.maker.qty then e.maker.qty - e.lots else 0);
      var filled := AddFill(b, after, e.taker, e.maker.tick, e.lots);
      assert Grows(b, filled, payer.id);
      assert Grows(filled, RecordEvent(b, e), payer.id);
      GrowsMore(b, filled, RecordEvent(b, e), payer.id);
    }
  }

  lemma {:induction false} EventsGrow(b: MatchBatch, events: seq<MakerEvent>, payer: Order)
    requires TicksValid(events)
    requires forall i :: 0 <= i < |events| && events[i].Traded? ==> SameOrder(payer, events[i].taker)
    ensures Grows(b, RecordAll(b, events), payer.id)
    decreases |events|
  {
    if events != [] {
      EventGrows(b, events[0], payer);
      hide RecordEvent, Grows, SameOrder;
      EventsGrow(RecordEvent(b, events[0]), events[1..], payer);
      GrowsMore(b, RecordEvent(b, events[0]), RecordAll(b, events), payer.id);
    }
  }

  lemma SettleGrows(b: BookValue, batch: MatchBatch, o: Order, id: nat)
    requires o.tick < LEVELS
    ensures Grows(batch, BookModel.Settle(b, batch, o).batch, id)
  {
  }

  /** Depth plays no part. */
  lemma GrowsAsWell(b: MatchBatch, r: MatchBatch, s: MatchBatch, taker: nat)
    requires Grows(b, r, taker) && r.orders == s.orders && r.index == s.index && r.fills == s.fills
    ensures Grows(b, s, taker)
  {
  }

  lemma PlaceGrows(b: BookValue, batch: MatchBatch, o: Order, now: int)
    requires SidesOk(b) && ValidTick(o.tick) && b.active
    ensures Grows(batch, Place(b, batch, o, now).batch, o.id)
  {
    var levels := SideOf(b, Opposite(o.side));
    WalkIsSweep(levels, 1, o, now);
    WalkKeepsSide(levels, 1, o, now);
    WalkEventsValid(levels, 1, o, now);
    SweepKeepsIdentity(Flat(levels, o.side, 1), o, now);
    hide Walk, Sweep, Flat;
    var w := Matched(b, o, now);
    assert forall i :: 0 <= i < |w.events| && w.events[i].Traded? ==> SameOrder(o, w.events[i].taker);
    var (all, swept) := (RecordAll(batch, w.events), Recorded(batch, w.events, w.depth));
    assert all.orders == swept.orders && all.index == swept.index && all.fills == swept.fills;
    var rest := WithSide(b, Opposite(o.side), w.levels);
    assert Place(b, batch, o, now) == BookModel.Settle(rest, swept, w.taker);
    hide *;
    EventsGrow(batch, w.events, o);
    GrowsAsWell(batch, all, swept, o.id);
    SettleGrows(rest, swept, w.taker, o.id);
    GrowsMore(batch, swept, Place(b, batch, o, now).batch, o.id);
  }

  /** The fill is no business of an order. */
  predicate Without(index: map<nat, Order>, f: MatchFill, id: nat) {
    f.makerIndex in index && f.takerIndex in index && index[f.makerIndex].id != id && index[f.takerIndex].id != id
  }

  /** The order takes the fill, and buys. */
  predicate BuysIn(index: map<nat, Order>, f: MatchFill, id: nat) {
    && f.price <= 100 && f.makerIndex in index && f.takerIndex in index
    && index[f.makerIndex].id != id && index[f.takerIndex].id == id && index[f.takerIndex].action == Buy
    && f.notional == ActualUnits(index[f.takerIndex], f.amount, f.price)
  }

  lemma OfOrderMore(legs: seq<Leg>, l: Leg, id: nat)
    ensures OfOrder(legs + [l], id) == if l.order.id == id then OfOrder(legs, id) + [l] else OfOrder(legs, id)
  {
    assert (legs + [l])[..|legs|] == legs;
  }

  lemma SpentMore(legs: seq<Leg>, l: Leg)
    requires LegsOk(legs) && LegOk(l) && l.order.action == Buy
    ensures LegsOk(legs + [l]) && Spent(legs + [l]) == Spent(legs) + LegUnits(l)
  {
    assert (legs + [l])[..|legs|] == legs;
  }

  lemma SpentOfFill(legs: seq<Leg>, index: map<nat, Order>, f: MatchFill, id: nat)
    requires LegsOk(legs) && f.price <= 100 && (Without(index, f, id) || BuysIn(index, f, id))
    ensures LegsOk(OfOrder(legs, id)) && LegsOk(OfOrder(legs + LegsOfFill(index, f), id))
    ensures Spent(OfOrder(legs + LegsOfFill(index, f), id))
         == Spent(OfOrder(legs, id)) + (if Without(index, f, id) then 0 else f.notional)
  {
    var (maker, taker) := (Leg(index[f.makerIndex], f.amount, f.price), Leg(index[f.takerIndex], f.amount, f.price));
    assert legs + LegsOfFill(index, f) == legs + [maker] + [taker];
    OfOrderIs(legs, id);
    OfOrderMore(legs, maker, id);
    OfOrderMore(legs + [maker], taker, id);
    if taker.order.id == id {
      SpentMore(OfOrder(legs, id), taker);
    }
  }

  /** If an order takes the last fills and no others, its legs cost what those fills' notionals say. */
  lemma {:induction false} SpentIsNotional(index: map<nat, Order>, fills: seq<MatchFill>, n: nat, id: nat)
    requires n <= |fills| && forall k :: 0 <= k < |fills| ==> fills[k].price <= 100
    requires forall k :: 0 <= k < n ==> Without(index, fills[k], id)
    requires forall k :: n <= k < |fills| ==> BuysIn(index, fills[k], id)
    ensures LegsOk(OfOrder(LegsOf(index, fills), id))
    ensures Spent(OfOrder(LegsOf(index, fills), id)) == Notional(fills) - Notional(fills[..n])
  {
    OfOrderIs(LegsOf(index, fills), id);
    if fills != [] {
      var (front, f) := (fills[..|fills| - 1], fills[|fills| - 1]);
      SpentOfFill(LegsOf(index, front), index, f, id);
      if n < |fills| {
        SpentIsNotional(index, front, n, id);
        assert front[..n] == fills[..n];
      } else {
        SpentIsNotional(index, front, |front|, id);
        assert front[..|front|] == front && fills[..n] == fills;
      }
    }
  }

  /** The fills a batch had before a buy was placed are others', and those it has gained are the buy's. */
  lemma GrownFills(b: MatchBatch, r: MatchBatch, placed: Placed, o: Order)
    requires BatchInv(b, placed) && BatchInv(r, placed[o.id := o]) && Grows(b, r, o.id) && |r.orders| <= INDEX_RANGE
    requires o.id !in placed && o.action == Buy
    ensures forall k :: 0 <= k < |b.fills| ==> Without(ByIndex(r.orders), r.fills[k], o.id)
    ensures forall k :: |b.fills| <= k < |r.fills| ==> BuysIn(ByIndex(r.orders), r.fills[k], o.id)
  {
    IndexedByPlace(r, placed[o.id := o]);
    assert Known(placed[o.id := o], o);
    hide BatchInv, ByIndex, Without, BuysIn;
    forall k | 0 <= k < |r.fills|
      ensures if k < |b.fills| then Without(ByIndex(r.orders), r.fills[k], o.id) else BuysIn(ByIndex(r.orders), r.fills[k], o.id)
    {
      if k < |b.fills| {
        assert r.fills[k] == b.fills[k];
        OldFillIsWithout(b, r, placed, k, o.id);
      } else {
        assert r.fills[k].takerIndex == r.index[o.id];
        NewFillIsBought(r, placed[o.id := o], k, o);
      }
    }
  }

  lemma OldFillIsWithout(b: MatchBatch, r: MatchBatch, placed: Placed, k: nat, id: nat)
    requires BatchInv(b, placed) && k < |b.fills| && id !in placed && b.orders <= r.orders
    requires forall i: nat :: i in ByIndex(r.orders) <==> i < |r.orders|
    requires forall i :: 0 <= i < |r.orders| ==> ByIndex(r.orders)[i] == r.orders[i].execution
    ensures Without(ByIndex(r.orders), b.fills[k], id)
  {
    hide ByIndex;
    var f := b.fills[k];
    assert SoundFill(f, k, b.orders);
    assert Known(placed, b.orders[f.makerIndex].execution) && Known(placed, b.orders[f.takerIndex].execution);
    assert r.orders[f.makerIndex] == b.orders[f.makerIndex] && r.orders[f.takerIndex] == b.orders[f.takerIndex];
  }

  lemma NewFillIsBought(r: MatchBatch, placed: Placed, k: nat, o: Order)
    requires BatchInv(r, placed) && k < |r.fills| && |r.orders| <= INDEX_RANGE && Known(placed, o) && o.action == Buy
    requires o.id in r.index && r.fills[k].takerIndex == r.index[o.id]
    requires forall i: nat :: i in ByIndex(r.orders) <==> i < |r.orders|
    requires forall i :: 0 <= i < |r.orders| ==> ByIndex(r.orders)[i] == r.orders[i].execution
    ensures BuysIn(ByIndex(r.orders), r.fills[k], o.id)
  {
    hide ByIndex;
    assert SoundFill(r.fills[k], k, r.orders);
    IndexNames(r, o, placed);
  }

  /** Every leg of a placed order is that order with less left of it. */
  lemma {:induction false} LegsAreKnown(index: map<nat, Order>, fills: seq<MatchFill>, placed: Placed)
    requires forall k :: 0 <= k < |fills| ==> fills[k].price <= 100
    requires forall i :: i in index ==> Known(placed, index[i])
    ensures forall k :: 0 <= k < |LegsOf(index, fills)| ==> Known(placed, LegsOf(index, fills)[k].order)
  {
    if fills != [] {
      LegsAreKnown(index, fills[..|fills| - 1], placed);
    }
  }

  lemma BatchIsOk(b: MatchBatch, placed: Placed, id: string, market: nat)
    requires BatchInv(b, placed) && |b.orders| <= INDEX_RANGE
    ensures EventOk(Handed(id, market, b))
    ensures forall i :: i in ByIndex(b.orders) ==> Known(placed, ByIndex(b.orders)[i])
  {
    IndexedByPlace(b, placed);
    forall k | 0 <= k < |b.fills|
      ensures b.fills[k].price <= 100
    {
      assert SoundFill(b.fills[k], k, b.orders);
    }
  }

  lemma BoughtLegs(legs: seq<Leg>, placed: Placed, o: Order)
    requires o.action == Buy && forall k :: 0 <= k < |legs| ==> Known(placed[o.id := o], legs[k].order)
    ensures LegsOfBuy(OfOrder(legs, o.id), o)
  {
    OfOrderIs(legs, o.id);
    hide OfOrder;
  }

  lemma SpentOfBuy(b: MatchBatch, r: MatchBatch, placed: Placed, o: Order, id: string, market: nat)
    requires BatchInv(b, placed) && BatchInv(r, placed[o.id := o]) && Grows(b, r, o.id) && |r.orders| <= INDEX_RANGE
    requires o.id !in placed && o.action == Buy && EventOk(Handed(id, market, r))
    ensures var legs := OfOrder(Legs(Handed(id, market, r)), o.id);
      LegsOk(legs) && LegsOfBuy(legs, o) && Spent(legs) == Notional(r.fills) - Notional(b.fills)
  {
    GrownFills(b, r, placed, o);
    BatchIsOk(r, placed[o.id := o], id, market);
    assert r.fills[..|b.fills|] == b.fills;
    var e := Handed(id, market, r);
    assert Legs(e) == LegsOf(ByIndex(e.orders), e.fills);
    assert forall k :: 0 <= k < |e.fills| ==> e.fills[k].price <= 100;
    hide *;
    SpentIsNotional(ByIndex(e.orders), e.fills, |b.fills|, o.id);
    LegsAreKnown(ByIndex(e.orders), e.fills, placed[o.id := o]);
    BoughtLegs(Legs(e), placed, o);
  }

  /**
   * A market buy pays its way to the unit: what its legs of the batch cost and what its last update refunds are
   * together what it set out to spend, and so the ledger's fills and release empty its reservation exactly.
   */
  lemma MarketBuyPaysItsWay(m: MarketState, o: Order, now: int, id: string, market: nat, a: Account)
    requires MarketInv(m) && Allowed(m, Do(PlaceOrder(now, o))) && m.book.active && SpendDenominated(o)
    requires |Act(m, Do(PlaceOrder(now, o))).batch.orders| <= INDEX_RANGE && Reserve(a, o).Ok?
    ensures var e := Handed(id, market, Act(m, Do(PlaceOrder(now, o))).batch);
      && EventOk(e) && |e.updates| > 0
      && var (legs, last) := (OfOrder(Legs(e), o.id), e.updates[|e.updates| - 1]);
      && LegsOk(legs) && LegsOfBuy(legs, o) && Spent(legs) + last.refund == o.spend
      && (last.refund == 0 <==> last.status == Filled)
      && var filled := FillAll(Reserve(a, o).value, legs);
         (if last.refund == 0 then filled else Release(filled, o, last.remainingQty, last.refund)).cash
         == a.cash.(available := a.cash.available - Spent(legs))
  {
    var r := Act(m, Do(PlaceOrder(now, o))).batch;
    var (e, placed) := (Handed(id, market, r), m.placed[o.id := o]);
    assert r == Place(m.book, m.batch, o, now).batch;
    MarketBuyAccounted(m.book, m.batch, o, now);
    PlaceGrows(m.book, m.batch, o, now);
    PlaceKeepsBatchInv(m.book, m.batch, o, now, m.placed);
    hide Act, Place, BookInv;
    BatchIsOk(r, placed, id, market);
    var (legs, last) := (OfOrder(Legs(e), o.id), e.updates[|e.updates| - 1]);
    SpentOfBuy(m.batch, r, m.placed, o, id, market);
    hide *;
    assert LegsOfBuy(legs, o);
    MarketBuyEmptiesReserve(a, o, legs, last.remainingQty, last.refund);
  }
}
