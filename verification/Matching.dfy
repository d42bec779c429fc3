/**
 * The price-time matcher as a function. One side of the book is a single queue in priority order, and a taker
 * sweeps that queue from the front. `OrderBook` refines this with levels, linked lists and cached prices.
 */
module Matching {
  import opened Types
  import opened Rounding

  /** What became of one maker, in the order the taker met them. `maker` is the order before the event. */
  datatype MakerEvent =
    | Expired(maker: Order)
    | SelfTrade(maker: Order)
    | Traded(maker: Order, lots: nat, taker: Order)

  datatype SweepResult = SweepResult(queue: seq<Order>, taker: Order, events: seq<MakerEvent>) {
    function Before(e: MakerEvent): SweepResult {
      this.(events := [e] + events)
    }
  }

  /** The price an order pays or receives per lot when the YES book trades at `tick`. */
  function EffectiveTick(o: Order, tick: nat): nat
    requires tick <= 100
  {
    if o.outcome == No then 100 - tick else tick
  }

  function ActualUnits(o: Order, lots: nat, tick: nat): nat
    requires tick <= 100
  {
    Cost(lots, EffectiveTick(o, tick))
  }

  predicate IsExpired(o: Order, now: int) {
    o.expire > 0 && now >= o.expire
  }

  predicate Crosses(maker: Order, taker: Order) {
    if taker.side == Buy then maker.tick <= taker.tick else taker.tick <= maker.tick
  }

  /** A maker the taker may trade with. */
  predicate Eligible(maker: Order, taker: Order, now: int) {
    Crosses(maker, taker) && !IsExpired(maker, now) && maker.wallet != taker.wallet
  }

  predicate Resting(o: Order) {
    ValidTick(o.tick) && o.otype == Limit && o.qty > 0
  }

  predicate RestingQueue(q: seq<Order>) {
    forall i :: 0 <= i < |q| ==> Resting(q[i])
  }

  function FillLots(taker: Order, maker: Order): nat
    requires maker.tick <= 100
  {
    if SpendDenominated(taker) then
      if taker.spend >= ActualUnits(taker, maker.qty, maker.tick) then maker.qty
      else LotsFor(taker.spend, EffectiveTick(taker, maker.tick))
    else if taker.qty < maker.qty then taker.qty
    else maker.qty
  }

  /** Every fill is positive, so the matcher never meets the case where the remaining money buys no lot. */
  lemma FillLotsInRange(taker: Order, maker: Order)
    requires Resting(maker) && !IsFilled(taker)
    ensures 0 < FillLots(taker, maker) <= maker.qty
    ensures SpendDenominated(taker) ==> ActualUnits(taker, FillLots(taker, maker), maker.tick) <= taker.spend
    ensures FillLots(taker, maker) < maker.qty ==> IsFilled(AfterFill(taker, maker))
  {
    if SpendDenominated(taker) {
      var tick := EffectiveTick(taker, maker.tick);
      if taker.spend < Cost(maker.qty, tick) {
        SpendRoundTrip(taker.spend, tick);
        PartialBelowMaker(taker.spend, maker.qty, tick);
      }
    }
  }

  /** What remains of the taker after trading with `maker`. */
  function AfterFill(taker: Order, maker: Order): Order
    requires maker.tick <= 100
  {
    var lots := FillLots(taker, maker);
    if SpendDenominated(taker) then
      var cost := ActualUnits(taker, lots, maker.tick);
      taker.(spend := if cost <= taker.spend then taker.spend - cost else 0)
    else
      taker.(qty := if lots <= taker.qty then taker.qty - lots else 0)
  }

  function Sweep(q: seq<Order>, taker: Order, now: int): SweepResult
    requires RestingQueue(q)
  {
    if IsFilled(taker) || q == [] || !Crosses(q[0], taker) then
      SweepResult(q, taker, [])
    else if IsExpired(q[0], now) then
      Sweep(q[1..], taker, now).Before(Expired(q[0]))
    else if q[0].wallet == taker.wallet then
      Sweep(q[1..], taker, now).Before(SelfTrade(q[0]))
    else
      FillLotsInRange(taker, q[0]);
      var lots := FillLots(taker, q[0]);
      var after := AfterFill(taker, q[0]);
      if lots == q[0].qty then
        Sweep(q[1..], after, now).Before(Traded(q[0], lots, after))
      else
        SweepResult([q[0].(qty := q[0].qty - lots)] + q[1..], after, [Traded(q[0], lots, after)])
  }

  /** A taker keeps its identity, its prices and its owner; only what remains of it changes. */
  predicate SameOrder(o: Order, p: Order) {
    o.(qty := p.qty, spend := p.spend) == p
  }

  lemma {:induction false} SweepKeepsIdentity(q: seq<Order>, taker: Order, now: int)
    requires RestingQueue(q)
    ensures var s := Sweep(q, taker, now);
      && SameOrder(taker, s.taker)
      && RestingQueue(s.queue)
      && |s.events| <= |q|
      && forall i :: 0 <= i < |s.events| && s.events[i].Traded? ==> SameOrder(taker, s.events[i].taker)
  {
    if !IsFilled(taker) && q != [] && Crosses(q[0], taker) {
      if IsExpired(q[0], now) || q[0].wallet == taker.wallet {
        SweepKeepsIdentity(q[1..], taker, now);
      } else {
        FillLotsInRange(taker, q[0]);
        SweepKeepsIdentity(q[1..], AfterFill(taker, q[0]), now);
      }
    }
  }

  // ----- Price-time priority -----

  predicate MeetsRule(e: MakerEvent, maker: Order, taker: Order, now: int) {
    && e.maker == maker
    && Crosses(maker, taker)
    && (e.Expired? <==> IsExpired(maker, now))
    && (e.Traded? <==> Eligible(maker, taker, now))
    && (e.Traded? ==> 0 < e.lots <= maker.qty)
  }

  predicate IsPartial(e: MakerEvent) {
    e.Traded? && e.lots < e.maker.qty
  }

  /**
   * Strict priority: the makers met are exactly a prefix of the queue, in queue order, each treated by its own
   * state; all but the last are gone, the last may be cut, and everything behind it is untouched. The sweep
   * stops only when the taker is done, the queue is empty or the next price no longer crosses.
   */
  predicate TakesPrefix(q: seq<Order>, taker: Order, now: int, s: SweepResult) {
    var n := |s.events|;
    && n <= |q|
    && (forall i :: 0 <= i < n ==> MeetsRule(s.events[i], q[i], taker, now))
    && (forall i :: 0 <= i < n - 1 ==> !IsPartial(s.events[i]))
    && (if n > 0 && IsPartial(s.events[n - 1]) then
          && IsFilled(s.taker)
          && s.queue == [q[n - 1].(qty := q[n - 1].qty - s.events[n - 1].lots)] + q[n..]
        else
          s.queue == q[n..])
    && (IsFilled(s.taker) || s.queue == [] || !Crosses(s.queue[0], taker))
  }

  /** Putting a maker that leaves the book in front of a sweep that keeps the rule keeps the rule. */
  lemma PrefixExtends(m: Order, q: seq<Order>, taker: Order, after: Order, now: int, e: MakerEvent, r: SweepResult)
    requires SameOrder(taker, after)
    requires MeetsRule(e, m, taker, now) && !IsPartial(e)
    requires TakesPrefix(q, after, now, r)
    ensures TakesPrefix([m] + q, taker, now, r.Before(e))
  {
    var s, all := r.Before(e), [m] + q;
    forall i | 0 <= i < |s.events|
      ensures MeetsRule(s.events[i], all[i], taker, now)
    {
      if i > 0 {
        assert MeetsRule(r.events[i - 1], q[i - 1], after, now);
      }
    }
    assert all[|s.events|..] == q[|r.events|..];
  }

  lemma {:induction false} SweepTakesPrefix(q: seq<Order>, taker: Order, now: int)
    requires RestingQueue(q)
    ensures TakesPrefix(q, taker, now, Sweep(q, taker, now))
  {
    if !IsFilled(taker) && q != [] && Crosses(q[0], taker) {
      var after := if Eligible(q[0], taker, now) then AfterFill(taker, q[0]) else taker;
      if Eligible(q[0], taker, now) {
        FillLotsInRange(taker, q[0]);
      }
      var s := Sweep(q, taker, now);
      if IsPartial(s.events[0]) {
        assert |s.events| == 1;
      } else {
        SweepTakesPrefix(q[1..], after, now);
        assert [q[0]] + q[1..] == q;
        PrefixExtends(q[0], q[1..], taker, after, now, s.events[0], Sweep(q[1..], after, now));
      }
    }
  }

  /** A queue in book order as seen by a taker on `side`: the best price comes first. */
  predicate BestFirst(q: seq<Order>, side: Side) {
    forall i, j :: 0 <= i < j < |q| ==>
      if side == Buy then q[i].tick <= q[j].tick else q[j].tick <= q[i].tick
  }

  /** `left` is the tail of `q`, with at most the amounts changed. */
  predicate TailOf(left: seq<Order>, q: seq<Order>) {
    |left| <= |q| && forall i :: 0 <= i < |left| ==> SameOrder(left[i], q[|q| - |left| + i])
  }

  lemma TailExtends(left: seq<Order>, q: seq<Order>)
    requires q != [] && TailOf(left, q[1..])
    ensures TailOf(left, q)
  {
  }

  lemma TailCuts(q: seq<Order>, qty: nat)
    requires q != []
    ensures TailOf(q, q) && TailOf([q[0].(qty := qty)] + q[1..], q)
  {
  }

  lemma {:induction false} SweepKeepsTail(q: seq<Order>, taker: Order, now: int)
    requires RestingQueue(q)
    ensures TailOf(Sweep(q, taker, now).queue, q)
  {
    if q == [] {
    } else if IsFilled(taker) || !Crosses(q[0], taker) {
      TailCuts(q, 0);
    } else if Eligible(q[0], taker, now) && FillLots(taker, q[0]) != q[0].qty {
      FillLotsInRange(taker, q[0]);
      hide FillLots, AfterFill;
      TailCuts(q, q[0].qty - FillLots(taker, q[0]));
    } else {
      var after := if Eligible(q[0], taker, now) then AfterFill(taker, q[0]) else taker;
      if Eligible(q[0], taker, now) { FillLotsInRange(taker, q[0]); }
      hide FillLots, AfterFill;
      SweepKeepsTail(q[1..], after, now);
      assert Sweep(q, taker, now).queue == Sweep(q[1..], after, now).queue;
      hide Sweep, TailOf;
      TailExtends(Sweep(q[1..], after, now).queue, q);
    }
  }

  lemma TailKeepsBestFirst(left: seq<Order>, q: seq<Order>, side: Side)
    requires TailOf(left, q) && BestFirst(q, side)
    ensures BestFirst(left, side)
  {
    var d := |q| - |left|;
    forall i, j | 0 <= i < j < |left|
      ensures if side == Buy then left[i].tick <= left[j].tick else left[j].tick <= left[i].tick
    {
      assert SameOrder(left[i], q[d + i]) && SameOrder(left[j], q[d + j]);
    }
  }

  /** No maker the taker could trade with is left unserved while the taker is unserved. */
  lemma SweepLeavesNoCross(q: seq<Order>, taker: Order, now: int)
    requires RestingQueue(q) && BestFirst(q, taker.side)
    ensures var s := Sweep(q, taker, now);
      BestFirst(s.queue, taker.side)
      && (IsFilled(s.taker) || forall i :: 0 <= i < |s.queue| ==> !Crosses(s.queue[i], taker))
  {
    SweepTakesPrefix(q, taker, now);
    SweepKeepsTail(q, taker, now);
    hide Sweep, RestingQueue, TailOf, BestFirst, IsFilled, Crosses;
    TailKeepsBestFirst(Sweep(q, taker, now).queue, q, taker.side);
    if !IsFilled(Sweep(q, taker, now).taker) { NoneCrosses(Sweep(q, taker, now).queue, taker); }
  }

  lemma NoneCrosses(q: seq<Order>, taker: Order)
    requires BestFirst(q, taker.side) && (q == [] || !Crosses(q[0], taker))
    ensures forall i :: 0 <= i < |q| ==> !Crosses(q[i], taker)
  {
  }

  // ----- Amounts -----

  function TradedLots(events: seq<MakerEvent>): nat {
    if events == [] then 0
    else (if events[0].Traded? then events[0].lots else 0) + TradedLots(events[1..])
  }

  predicate TicksValid(events: seq<MakerEvent>) {
    forall i :: 0 <= i < |events| ==> 1 <= events[i].maker.tick <= 99
  }

  function PaidUnits(events: seq<MakerEvent>, payer: Order): nat
    requires TicksValid(events)
  {
    if events == [] then 0
    else (if events[0].Traded? then ActualUnits(payer, events[0].lots, events[0].maker.tick) else 0)
         + PaidUnits(events[1..], payer)
  }

  /** The lots on the whole side that `taker` may trade with. */
  function EligibleLots(q: seq<Order>, taker: Order, now: int): nat {
    if q == [] then 0
    else (if Eligible(q[0], taker, now) then q[0].qty else 0) + EligibleLots(q[1..], taker, now)
  }

  lemma {:induction false} NothingEligible(q: seq<Order>, taker: Order, now: int)
    requires BestFirst(q, taker.side)
    requires q != [] ==> !Crosses(q[0], taker)
    ensures EligibleLots(q, taker, now) == 0
  {
    if q != [] {
      if q[1..] != [] { assert q[1..][0] == q[1]; }
      NothingEligible(q[1..], taker, now);
    }
  }

  lemma {:induction false} SameEligibleLots(q: seq<Order>, t: Order, u: Order, now: int)
    requires SameOrder(t, u)
    ensures EligibleLots(q, t, now) == EligibleLots(q, u, now)
  {
    if q != [] { SameEligibleLots(q[1..], t, u, now); }
  }

  /** A taker in lots trades all it asks for or all the book has for it, whichever is less. */
  lemma {:induction false} LotsTakerTradesMinimum(q: seq<Order>, taker: Order, now: int)
    requires RestingQueue(q) && BestFirst(q, taker.side)
    requires !SpendDenominated(taker)
    ensures var s := Sweep(q, taker, now);
      var available := EligibleLots(q, taker, now);
      && TradedLots(s.events) == (if taker.qty < available then taker.qty else available)
      && s.taker.qty == taker.qty - TradedLots(s.events)
  {
    if q == [] || !Crosses(q[0], taker) {
      NothingEligible(q, taker, now);
    } else if !IsFilled(taker) {
      var after := if Eligible(q[0], taker, now) then AfterFill(taker, q[0]) else taker;
      if Eligible(q[0], taker, now) { FillLotsInRange(taker, q[0]); }
      LotsTakerTradesMinimum(q[1..], after, now);
      SameEligibleLots(q[1..], taker, after, now);
    }
  }

  /** A market buy is accounted to the unit: what its fills cost and what is left over make up what it set out to spend. */
  lemma {:induction false} SpendTakerPaysExactly(q: seq<Order>, taker: Order, now: int)
    requires RestingQueue(q)
    requires SpendDenominated(taker)
    ensures var s := Sweep(q, taker, now);
      && TicksValid(s.events)
      && PaidUnits(s.events, taker) + s.taker.spend == taker.spend
      && s.taker.qty == taker.qty
  {
    if !IsFilled(taker) && q != [] && Crosses(q[0], taker) {
      var after := if Eligible(q[0], taker, now) then AfterFill(taker, q[0]) else taker;
      if Eligible(q[0], taker, now) { FillLotsInRange(taker, q[0]); }
      SpendTakerPaysExactly(q[1..], after, now);
      SamePayer(Sweep(q[1..], after, now).events, taker, after);
    }
  }

  lemma {:induction false} SamePayer(events: seq<MakerEvent>, t: Order, u: Order)
    requires SameOrder(t, u)
    requires TicksValid(events)
    ensures PaidUnits(events, t) == PaidUnits(events, u)
  {
    if events != [] { SamePayer(events[1..], t, u); }
  }

  // ----- Prices -----

  /** The YES-book form of an order: buying NO at t is selling YES at 100 - t. */
  function NormalSide(action: Side, outcome: Outcome): Side {
    if outcome == Yes then action else if action == Buy then Sell else Buy
  }

  function NormalTick(outcome: Outcome, tick: nat): nat
    requires tick <= 100
  {
    if outcome == Yes then tick else 100 - tick
  }

  predicate Normalized(o: Order) {
    && ValidTick(o.originalTick)
    && o.side == NormalSide(o.action, o.outcome)
    && o.tick == NormalTick(o.outcome, o.originalTick)
  }

  /**
   * Price protection: whoever buys pays at most the price they signed for the same lots, and whoever sells
   * receives at least that, whether they were resting or arriving.
   */
  lemma PriceProtection(maker: Order, taker: Order, lots: nat)
    requires Normalized(maker) && Normalized(taker) && maker.side != taker.side
    requires Crosses(maker, taker)
    ensures forall o :: o in {maker, taker} ==>
      if o.action == Buy then ActualUnits(o, lots, maker.tick) <= Cost(lots, o.originalTick)
      else Cost(lots, o.originalTick) <= ActualUnits(o, lots, maker.tick)
  {
    forall o | o in {maker, taker}
      ensures if o.action == Buy then ActualUnits(o, lots, maker.tick) <= Cost(lots, o.originalTick)
              else Cost(lots, o.originalTick) <= ActualUnits(o, lots, maker.tick)
    {
      var e := EffectiveTick(o, maker.tick);
      if o.action == Buy { CostMonotone(lots, e, o.originalTick); }
      else { CostMonotone(lots, o.originalTick, e); }
    }
  }

  datatype MatchType = Mint | Transfer | Burn

  function Classify(a: Order, b: Order): MatchType {
    if a.action == Buy && b.action == Buy then Mint
    else if a.action == Sell && b.action == Sell then Burn
    else Transfer
  }

  /**
   * Normalisation makes the classification by action alone sound: orders on opposite sides of the book mint or
   * burn exactly when they name different outcomes, and transfer exactly when they name the same one.
   */
  lemma ClassificationSound(a: Order, b: Order)
    requires Normalized(a) && Normalized(b) && a.side != b.side
    ensures Classify(a, b).Transfer? <==> a.outcome == b.outcome
    ensures Classify(a, b).Transfer? <==> a.action != b.action
  {
  }
}
