/** The batch of results a market accumulates: orders by index, fills, order updates and depth changes. */
module Batch {
  import opened Types
  import opened Rounding
  import opened Matching

  datatype Status = New | PartiallyFilled | Filled | Canceled | Lapsed | Rejected

  datatype Reason = NoReason | MarketHalted | MarketUnfilled | OrderExpired | SelfTradePrevention

  /** `execution` is the order as it stood when the batch first met it. */
  datatype MatchedOrder = MatchedOrder(orderIndex: nat, execution: Order)

  datatype MatchFill = MatchFill(
    fillIndex: nat, makerIndex: nat, takerIndex: nat,
    amount: nat, price: nat, matchType: MatchType, notional: nat)

  datatype OrderUpdate = OrderUpdate(
    orderIndex: nat, status: Status, remainingQty: nat, remainingSpend: nat, refund: nat, reason: Reason)

  datatype DepthUpdate = DepthUpdate(side: Side, tick: nat, volume: nat)

  datatype MatchBatch = MatchBatch(
    orders: seq<MatchedOrder>, index: map<nat, nat>,
    fills: seq<MatchFill>, updates: seq<OrderUpdate>, depth: seq<DepthUpdate>)

  const EMPTY := MatchBatch([], map[], [], [], [])

  // Order indexes are 16 bits wide and fill indexes 32.
  const INDEX_RANGE: nat := 0x1_0000
  const FILL_RANGE: nat := 0x1_0000_0000

  function EnsureOrder(b: MatchBatch, o: Order): (r: MatchBatch)
    ensures o.id in r.index
    ensures o.id in b.index ==> r == b
  {
    if o.id in b.index then b
    else
      var i := |b.orders| % INDEX_RANGE;
      b.(orders := b.orders + [MatchedOrder(i, o)], index := b.index[o.id := i])
  }

  function AddFill(b: MatchBatch, maker: Order, taker: Order, price: nat, lots: nat): MatchBatch
    requires price <= 100
  {
    var b1 := EnsureOrder(b, maker);
    var b2 := EnsureOrder(b1, taker);
    b2.(fills := b2.fills + [MatchFill(
      |b2.fills| % FILL_RANGE, b1.index[maker.id], b2.index[taker.id],
      lots, price, Classify(maker, taker), ActualUnits(taker, lots, price))])
  }

  function AddUpdate(b: MatchBatch, o: Order, status: Status, qty: nat, spend: nat, refund: nat, reason: Reason): MatchBatch {
    var b1 := EnsureOrder(b, o);
    b1.(updates := b1.updates + [OrderUpdate(b1.index[o.id], status, qty, spend, refund, reason)])
  }

  function AddDepth(b: MatchBatch, side: Side, tick: nat, volume: nat): MatchBatch {
    b.(depth := b.depth + [DepthUpdate(side, tick, volume)])
  }

  /** What a maker leaving the book is owed back from its lock. */
  function ReleaseRefund(o: Order): nat {
    if o.action != Buy then 0
    else if o.otype == Market then o.spend
    else Cost(o.qty, o.originalTick)
  }

  function RecordRemoval(b: MatchBatch, maker: Order, status: Status, reason: Reason): MatchBatch {
    AddUpdate(b, maker, status, maker.qty, maker.spend, ReleaseRefund(maker), reason)
  }

  function RecordEvent(b: MatchBatch, e: MakerEvent): MatchBatch
    requires e.maker.tick <= 100
  {
    match e
    case Expired(maker) => RecordRemoval(b, maker, Lapsed, OrderExpired)
    case SelfTrade(maker) => RecordRemoval(b, maker, Canceled, SelfTradePrevention)
    case Traded(maker, lots, taker) =>
      var after := maker.(qty := if lots <= maker.qty then maker.qty - lots else 0);
      var b1 := AddFill(b, after, taker, maker.tick, lots);
      if after.qty == 0 then RecordRemoval(b1, after, Filled, NoReason)
      else AddUpdate(b1, after, PartiallyFilled, after.qty, after.spend, 0, NoReason)
  }

  function RecordAll(b: MatchBatch, events: seq<MakerEvent>): MatchBatch
    requires TicksValid(events)
    decreases |events|
  {
    if events == [] then b else RecordAll(RecordEvent(b, events[0]), events[1..])
  }

  /** A whole sweep: its maker events and its depth changes. */
  function Recorded(b: MatchBatch, events: seq<MakerEvent>, depth: seq<DepthUpdate>): MatchBatch
    requires TicksValid(events)
  {
    var r := RecordAll(b, events);
    r.(depth := r.depth + depth)
  }

  lemma {:induction false} RecordAllKeepsDepth(b: MatchBatch, events: seq<MakerEvent>, depth: seq<DepthUpdate>)
    requires TicksValid(events)
    ensures RecordAll(b, events).depth == b.depth
    ensures RecordAll(b.(depth := depth), events) == RecordAll(b, events).(depth := depth)
    decreases |events|
  {
    if events != [] {
      assert RecordEvent(b.(depth := depth), events[0]) == RecordEvent(b, events[0]).(depth := depth);
      RecordAllKeepsDepth(RecordEvent(b, events[0]), events[1..], depth);
    }
  }

  lemma {:induction false} RecordAllConcat(b: MatchBatch, e1: seq<MakerEvent>, e2: seq<MakerEvent>)
    requires TicksValid(e1) && TicksValid(e2)
    ensures TicksValid(e1 + e2)
    ensures RecordAll(b, e1 + e2) == RecordAll(RecordAll(b, e1), e2)
    decreases |e1|
  {
    if e1 == [] {
      assert [] + e2 == e2;
    } else {
      assert (e1 + e2)[1..] == e1[1..] + e2;
      RecordAllConcat(RecordEvent(b, e1[0]), e1[1..], e2);
    }
  }

  lemma RecordedConcat(b: MatchBatch, e1: seq<MakerEvent>, d1: seq<DepthUpdate>, e2: seq<MakerEvent>, d2: seq<DepthUpdate>)
    requires TicksValid(e1) && TicksValid(e2)
    ensures TicksValid(e1 + e2)
    ensures Recorded(Recorded(b, e1, d1), e2, d2) == Recorded(b, e1 + e2, d1 + d2)
  {
    RecordAllConcat(b, e1, e2);
    var r := RecordAll(b, e1);
    RecordAllKeepsDepth(r, e2, r.depth + d1);
    RecordAllKeepsDepth(r, e2, r.depth);
    assert (r.depth + d1) + d2 == r.depth + (d1 + d2);
  }

  /** What the takers of these fills pay or are paid for them. */
  function Notional(fills: seq<MatchFill>): nat {
    if fills == [] then 0 else Notional(fills[..|fills| - 1]) + fills[|fills| - 1].notional
  }

  lemma {:induction false} RecordAllNotional(b: MatchBatch, events: seq<MakerEvent>, payer: Order)
    requires TicksValid(events)
    requires forall i :: 0 <= i < |events| && events[i].Traded? ==> SameOrder(payer, events[i].taker)
    ensures Notional(RecordAll(b, events).fills) == Notional(b.fills) + PaidUnits(events, payer)
    decreases |events|
  {
    if events != [] {
      var r := RecordEvent(b, events[0]);
      if events[0].Traded? {
        assert r.fills[..|b.fills|] == b.fills;
      }
      RecordAllNotional(r, events[1..], payer);
    }
  }

  // ----- Structure every batch keeps -----

  predicate SlotMatches(orders: seq<MatchedOrder>, index: map<nat, nat>, i: nat)
    requires i < |orders|
  {
    var id := orders[i].execution.id;
    orders[i].orderIndex == i % INDEX_RANGE && id in index && index[id] == i % INDEX_RANGE
  }

  predicate HasSlot(orders: seq<MatchedOrder>, id: nat) {
    exists i :: 0 <= i < |orders| && orders[i].execution.id == id
  }

  /** Order indexes are the positions, and the index map is their inverse. */
  predicate IndexesInverse(orders: seq<MatchedOrder>, index: map<nat, nat>) {
    && (forall i :: 0 <= i < |orders| ==> SlotMatches(orders, index, i))
    && (forall i, j :: 0 <= i < j < |orders| ==> orders[i].execution.id != orders[j].execution.id)
    && (forall id :: id in index ==> HasSlot(orders, id))
  }

  /** Every order ever placed, by id, as it was placed. */
  type Placed = map<nat, Order>

  /** `o` is a placed order: only what remains of it may have changed since. */
  predicate Known(placed: Placed, o: Order) {
    o.id in placed && SameOrder(placed[o.id], o)
  }

  /** A maker and a taker that may trade: different orders of different owners on crossing sides. */
  predicate Tradable(maker: Order, taker: Order) {
    && maker.id != taker.id
    && maker.wallet != taker.wallet
    && maker.side != taker.side
    && Crosses(maker, taker)
  }

  /** A fill that names its two orders rightly, at the maker's price, with the class and value they give it. */
  predicate SoundFill(f: MatchFill, position: nat, orders: seq<MatchedOrder>) {
    && f.fillIndex == position % FILL_RANGE
    && f.amount > 0
    && ValidTick(f.price)
    && f.makerIndex < |orders|
    && f.takerIndex < |orders|
    && (|orders| <= INDEX_RANGE ==>
          var maker, taker := orders[f.makerIndex].execution, orders[f.takerIndex].execution;
          && Tradable(maker, taker)
          && f.price == maker.tick
          && f.matchType == Classify(maker, taker)
          && f.notional == ActualUnits(taker, f.amount, f.price))
  }

  predicate BatchInv(b: MatchBatch, placed: Placed) {
    && IndexesInverse(b.orders, b.index)
    && (forall i :: 0 <= i < |b.orders| ==> Known(placed, b.orders[i].execution))
    && (forall i :: 0 <= i < |b.fills| ==> SoundFill(b.fills[i], i, b.orders))
    && (forall i :: 0 <= i < |b.updates| ==> b.updates[i].orderIndex < |b.orders|)
  }

  lemma IndexInRange(orders: seq<MatchedOrder>, index: map<nat, nat>, id: nat)
    requires IndexesInverse(orders, index) && id in index
    ensures index[id] < |orders|
  {
    assert HasSlot(orders, id);
    var i :| 0 <= i < |orders| && orders[i].execution.id == id;
    assert SlotMatches(orders, index, i);
  }

  lemma EnsureOrderKeepsIndexes(b: MatchBatch, o: Order)
    requires IndexesInverse(b.orders, b.index)
    ensures IndexesInverse(EnsureOrder(b, o).orders, EnsureOrder(b, o).index)
  {
    var r := EnsureOrder(b, o);
    if o.id !in b.index {
      var n := |b.orders|;
      assert r.orders[n].execution.id == o.id;
      forall i | 0 <= i < |r.orders|
        ensures SlotMatches(r.orders, r.index, i) && (i < n ==> r.orders[i].execution.id != o.id)
      {
        if i < n { assert SlotMatches(b.orders, b.index, i); }
      }
      forall id | id in r.index
        ensures HasSlot(r.orders, id)
      {
        if id != o.id {
          assert HasSlot(b.orders, id);
          var i :| 0 <= i < |b.orders| && b.orders[i].execution.id == id;
          assert r.orders[i].execution.id == id;
        }
      }
    }
  }

  lemma EnsureOrderKeepsInv(b: MatchBatch, o: Order, placed: Placed)
    requires BatchInv(b, placed) && Known(placed, o)
    ensures var r := EnsureOrder(b, o);
      && BatchInv(r, placed)
      && b.orders <= r.orders
      && r.index[o.id] < |r.orders|
      && (forall id :: id in b.index ==> id in r.index && r.index[id] == b.index[id])
  {
    var r := EnsureOrder(b, o);
    EnsureOrderKeepsIndexes(b, o);
    IndexInRange(r.orders, r.index, o.id);
    forall i | 0 <= i < |r.orders|
      ensures Known(placed, r.orders[i].execution)
    {
      if i < |b.orders| { assert Known(placed, b.orders[i].execution); }
    }
    forall i | 0 <= i < |b.fills|
      ensures SoundFill(r.fills[i], i, r.orders)
    {
      FillSurvives(b.fills[i], i, b.orders, r.orders);
    }
  }

  lemma FillSurvives(f: MatchFill, i: nat, orders: seq<MatchedOrder>, more: seq<MatchedOrder>)
    requires SoundFill(f, i, orders) && orders <= more
    ensures SoundFill(f, i, more)
  {
    assert more[f.makerIndex] == orders[f.makerIndex] && more[f.takerIndex] == orders[f.takerIndex];
  }

  lemma IndexNames(b: MatchBatch, o: Order, placed: Placed)
    requires BatchInv(b, placed) && o.id in b.index && Known(placed, o)
    requires |b.orders| <= INDEX_RANGE
    ensures b.index[o.id] < |b.orders| && SameOrder(b.orders[b.index[o.id]].execution, o)
  {
    assert HasSlot(b.orders, o.id);
    var i :| 0 <= i < |b.orders| && b.orders[i].execution.id == o.id;
    assert SlotMatches(b.orders, b.index, i) && Known(placed, b.orders[i].execution);
  }

  lemma NewFillIsSound(b: MatchBatch, maker: Order, taker: Order, lots: nat, placed: Placed)
    requires BatchInv(b, placed) && Known(placed, maker) && Known(placed, taker)
    requires maker.id in b.index && taker.id in b.index
    requires ValidTick(maker.tick) && Tradable(maker, taker) && lots > 0
    ensures SoundFill(MatchFill(|b.fills| % FILL_RANGE, b.index[maker.id], b.index[taker.id], lots, maker.tick,
                                Classify(maker, taker), ActualUnits(taker, lots, maker.tick)),
                      |b.fills|, b.orders)
  {
    IndexInRange(b.orders, b.index, maker.id);
    IndexInRange(b.orders, b.index, taker.id);
    if |b.orders| <= INDEX_RANGE {
      IndexNames(b, maker, placed);
      IndexNames(b, taker, placed);
    }
  }

  lemma AddFillKeepsInv(b: MatchBatch, maker: Order, taker: Order, lots: nat, placed: Placed)
    requires BatchInv(b, placed) && Known(placed, maker) && Known(placed, taker)
    requires ValidTick(maker.tick) && Tradable(maker, taker) && lots > 0
    ensures BatchInv(AddFill(b, maker, taker, maker.tick, lots), placed)
  {
    EnsureOrderKeepsInv(b, maker, placed);
    var b1 := EnsureOrder(b, maker);
    EnsureOrderKeepsInv(b1, taker, placed);
    var b2 := EnsureOrder(b1, taker);
    NewFillIsSound(b2, maker, taker, lots, placed);
    var r := AddFill(b, maker, taker, maker.tick, lots);
    assert r.fills[..|b2.fills|] == b2.fills;
    forall i | 0 <= i < |r.fills|
      ensures SoundFill(r.fills[i], i, r.orders)
    {
      if i < |b2.fills| { assert SoundFill(b2.fills[i], i, b2.orders); }
    }
  }

  lemma AddUpdateKeepsInv(b: MatchBatch, o: Order, status: Status, qty: nat, spend: nat, refund: nat, reason: Reason, placed: Placed)
    requires BatchInv(b, placed) && Known(placed, o)
    ensures BatchInv(AddUpdate(b, o, status, qty, spend, refund, reason), placed)
  {
    EnsureOrderKeepsInv(b, o, placed);
  }

  /** Events a batch can record without losing its structure. */
  predicate SoundEvent(e: MakerEvent, placed: Placed) {
    && 1 <= e.maker.tick <= 99
    && Known(placed, e.maker)
    && (e.Traded? ==> e.lots > 0 && Known(placed, e.taker) && Tradable(e.maker, e.taker))
  }

  predicate SoundEvents(events: seq<MakerEvent>, placed: Placed) {
    forall i :: 0 <= i < |events| ==> SoundEvent(events[i], placed)
  }

  lemma RecordEventKeepsInv(b: MatchBatch, e: MakerEvent, placed: Placed)
    requires BatchInv(b, placed) && SoundEvent(e, placed)
    ensures BatchInv(RecordEvent(b, e), placed)
  {
    match e
    case Expired(m) =>
      AddUpdateKeepsInv(b, m, Lapsed, m.qty, m.spend, ReleaseRefund(m), OrderExpired, placed);
    case SelfTrade(m) =>
      AddUpdateKeepsInv(b, m, Canceled, m.qty, m.spend, ReleaseRefund(m), SelfTradePrevention, placed);
    case Traded(m, lots, taker) =>
      var after := m.(qty := if lots <= m.qty then m.qty - lots else 0);
      assert Known(placed, after) && Tradable(after, taker);
      hide BatchInv, EnsureOrder, Tradable, Known;
      AddFillKeepsInv(b, after, taker, lots, placed);
      var b1 := AddFill(b, after, taker, m.tick, lots);
      if after.qty == 0 {
        AddUpdateKeepsInv(b1, after, Filled, after.qty, after.spend, ReleaseRefund(after), NoReason, placed);
      } else {
        AddUpdateKeepsInv(b1, after, PartiallyFilled, after.qty, after.spend, 0, NoReason, placed);
      }
  }

  lemma {:induction false} RecordAllKeepsInv(b: MatchBatch, events: seq<MakerEvent>, placed: Placed)
    requires BatchInv(b, placed) && SoundEvents(events, placed)
    ensures TicksValid(events) && BatchInv(RecordAll(b, events), placed)
    decreases |events|
  {
    assert forall i :: 0 <= i < |events| ==> SoundEvent(events[i], placed);
    if events != [] {
      RecordEventKeepsInv(b, events[0], placed);
      RecordAllKeepsInv(RecordEvent(b, events[0]), events[1..], placed);
    }
  }

  // ----- The batch as the matcher fills it in -----

  class PendingBatch {
    var orders: seq<MatchedOrder>
    var orderIndex: map<nat, nat>
    var fills: seq<MatchFill>
    var updates: seq<OrderUpdate>
    var depth: seq<DepthUpdate>

    constructor ()
      ensures View() == EMPTY
    {
      orders, orderIndex, fills, updates, depth := [], map[], [], [], [];
    }

    function View(): MatchBatch
      reads this
    {
      MatchBatch(orders, orderIndex, fills, updates, depth)
    }

    method EnsureIndex(o: Order) returns (i: nat)
      modifies this
      ensures View() == EnsureOrder(old(View()), o)
      ensures o.id in View().index && i == View().index[o.id]
    {
      if o.id in orderIndex {
        return orderIndex[o.id];
      }
      i := |orders| % INDEX_RANGE;
      orderIndex := orderIndex[o.id := i];
      orders := orders + [MatchedOrder(i, o)];
    }

    method RecordFill(maker: Order, taker: Order, price: nat, lots: nat)
      requires price <= 100
      modifies this
      ensures View() == AddFill(old(View()), maker, taker, price, lots)
    {
      var makerIndex := EnsureIndex(maker);
      var takerIndex := EnsureIndex(taker);
      fills := fills + [MatchFill(
        |fills| % FILL_RANGE, makerIndex, takerIndex,
        lots, price, Classify(maker, taker), ActualUnits(taker, lots, price))];
    }

    method RecordUpdate(o: Order, status: Status, qty: nat, spend: nat, refund: nat, reason: Reason)
      modifies this
      ensures View() == AddUpdate(old(View()), o, status, qty, spend, refund, reason)
    {
      var i := EnsureIndex(o);
      updates := updates + [OrderUpdate(i, status, qty, spend, refund, reason)];
    }

    method RecordDepth(side: Side, tick: nat, volume: nat)
      modifies this
      ensures View() == AddDepth(old(View()), side, tick, volume)
    {
      depth := depth + [DepthUpdate(side, tick, volume)];
    }
  }
}
