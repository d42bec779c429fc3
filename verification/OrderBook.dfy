/** The matcher's book: a fixed array of linked price levels per side, with cached best prices. */
module OrderBook {
  import opened Types
  import opened Rounding
  import opened Matching
  import opened Batch
  import opened BookModel
  import opened BookLoops
  import opened PriceLevels

  /** All the levels of a book: each valid, and no two for the same side and tick. */
  ghost predicate Registry(levels: set<PriceLevel>, repr: set<object>)
    reads repr
  {
    && (forall l :: l in levels ==> l in repr && (forall n :: n in l.nodes ==> n in repr) && l.Valid())
    && (forall l, m {:trigger l.tick, m.tick} :: l in levels && m in levels && l.side == m.side && l.tick == m.tick ==> l == m)
  }

  lemma NodeBelongs(l: PriceLevel, n: MemoryOrder)
    requires l.Valid() && n in l.nodes
    ensures n.order.side == l.side && n.order.tick == l.tick
  {
    var i :| 0 <= i < |l.nodes| && l.nodes[i] == n;
    assert n.order == l.queue[i];
  }

  /** An order's own side and tick tell which level holds it, so levels share no orders. */
  lemma LevelsApart(levels: set<PriceLevel>, repr: set<object>, level: PriceLevel)
    requires Registry(levels, repr) && level in levels
    ensures forall l, n :: l in levels && l != level && n in l.nodes ==> n !in level.nodes
  {
    forall l, n | l in levels && l != level && n in l.nodes
      ensures n !in level.nodes
    {
      NodeBelongs(l, n);
      if n in level.nodes {
        NodeBelongs(level, n);
        assert false;
      }
    }
  }

  lemma RegistryGrows(levels: set<PriceLevel>, repr: set<object>, level: PriceLevel)
    requires Registry(levels, repr) && level.Valid() && level.nodes == []
    requires forall l :: l in levels ==> l.side != level.side || l.tick != level.tick
    ensures Registry(levels + {level}, repr + {level})
  {
  }

  class FixedArrayOrderBook {
    var currentTime: int
    var isActive: bool
    const bids: array<PriceLevel?>
    const asks: array<PriceLevel?>
    var bestBid: nat
    var bestAsk: nat
    ghost var bidQueues: Levels
    ghost var askQueues: Levels
    ghost var levels: set<PriceLevel>
    ghost var repr: set<object>

    constructor ()
      ensures Valid() && Value() == NEW_BOOK && repr == {} && fresh(bids) && fresh(asks)
    {
      currentTime, isActive, bestBid, bestAsk := 0, true, 0, 0;
      bids := new PriceLevel?[LEVELS](_ => null);
      asks := new PriceLevel?[LEVELS](_ => null);
      bidQueues, askQueues := NEW_BOOK.bids, NEW_BOOK.asks;
      levels, repr := {}, {};
      new;
      assert forall p :: 0 <= p < LEVELS ==> NEW_BOOK.bids[p] == [] && NEW_BOOK.asks[p] == [];
      forall p | 1 <= p < LEVELS
        ensures Slot(bids, bidQueues, Buy, p) && Slot(asks, askQueues, Sell, p)
      {
        assert bids[p] == null && asks[p] == null;
      }
    }

    /** A slot without a level is an empty queue; a slot with one holds that level's queue. */
    ghost predicate Slot(slots: array<PriceLevel?>, queues: Levels, side: Side, tick: nat)
      requires tick < slots.Length && tick < LEVELS
      reads `levels, slots, levels
    {
      var l := slots[tick];
      if l == null then queues[tick] == []
      else l in levels && l.side == side && l.tick == tick && l.queue == queues[tick]
    }

    ghost predicate Holds(slots: array<PriceLevel?>, queues: Levels, side: Side)
      reads `levels, slots, levels
    {
      && slots.Length == LEVELS && slots[0] == null && queues[0] == []
      && forall p {:trigger slots[p]} {:trigger queues[p]} :: 1 <= p < LEVELS ==> Slot(slots, queues, side, p)
    }

    /** Every level sits in the slot of its side and tick. */
    ghost predicate Slotted()
      requires bids.Length == LEVELS && asks.Length == LEVELS
      reads `levels, bids, asks
    {
      forall l :: l in levels ==> 1 <= l.tick < LEVELS && (if l.side == Buy then bids else asks)[l.tick] == l
    }

    /** The arriving order and the batch are not part of the book. */
    ghost predicate Apart(taker: MemoryOrder, batch: PendingBatch)
      reads `repr
    {
      this !in repr && taker !in repr && batch !in repr
    }

    /** Everything but the cached prices. */
    ghost predicate Shaped()
      reads `bidQueues, `askQueues, `levels, `repr, repr, levels, bids, asks
    {
      && bids != asks && this !in repr && (bids as object) !in repr && (asks as object) !in repr
      && Registry(levels, repr)
      && Holds(bids, bidQueues, Buy) && Holds(asks, askQueues, Sell) && Slotted()
    }

    ghost predicate Valid()
      reads this, repr, levels, bids, asks
    {
      Shaped() && BestOk(bidQueues, Buy, bestBid) && BestOk(askQueues, Sell, bestAsk)
    }

    ghost function Value(): BookValue
      reads this
    {
      BookValue(bidQueues, askQueues, isActive)
    }

    lemma HeldSideOk(slots: array<PriceLevel?>, queues: Levels, side: Side)
      requires Registry(levels, repr) && Holds(slots, queues, side)
      ensures SideOk(queues, side)
    {
      forall p | 1 <= p < LEVELS
        ensures LevelOk(queues[p], side, p)
      {
        assert Slot(slots, queues, side, p);
        if slots[p] != null { assert slots[p].Valid(); }
      }
    }

    /** One turn of the outer loop on a level that is not empty. */
    method VisitAsks(taker: MemoryOrder, level: PriceLevel, tick: nat, batch: PendingBatch)
      requires Shaped() && ValidTick(tick) && asks[tick] == level
      requires Apart(taker, batch) && taker.order.side == Buy && tick <= taker.order.tick
      modifies `askQueues, taker`order, batch, repr
      ensures Shaped() && SideOk(old(askQueues), Sell)
      ensures WalkScene(askQueues, taker.order, batch.View())
           == SweepTick(WalkScene(old(askQueues), old(taker.order), old(batch.View())), tick, currentTime)
      ensures askQueues == old(askQueues)[tick := askQueues[tick]]
      ensures level.head == null <==> askQueues[tick] == []
    {
      hide Sweep, LevelOk, RecordAll, Volume, TicksValid, Registry;
      HeldSideOk(asks, askQueues, Sell);
      assert Slot(asks, askQueues, Sell, tick);
      VisitLevel(taker, level, Sell, tick, batch);
      askQueues := askQueues[tick := level.queue];
      forall p | 1 <= p < LEVELS
        ensures Slot(asks, askQueues, Sell, p) && Slot(bids, bidQueues, Buy, p)
      {
        assert old(Slot(asks, askQueues, Sell, p)) && old(Slot(bids, bidQueues, Buy, p));
      }
      Stocked(asks, askQueues, Sell, tick);
    }

    /** The same turn for an arriving sell. */
    method VisitBids(taker: MemoryOrder, level: PriceLevel, tick: nat, batch: PendingBatch)
      requires Shaped() && ValidTick(tick) && bids[tick] == level
      requires Apart(taker, batch) && taker.order.side == Sell && taker.order.tick <= tick
      modifies `bidQueues, taker`order, batch, repr
      ensures Shaped() && SideOk(old(bidQueues), Buy)
      ensures WalkScene(bidQueues, taker.order, batch.View())
           == SweepTick(WalkScene(old(bidQueues), old(taker.order), old(batch.View())), tick, currentTime)
      ensures bidQueues == old(bidQueues)[tick := bidQueues[tick]]
      ensures level.head == null <==> bidQueues[tick] == []
    {
      hide Sweep, LevelOk, RecordAll, Volume, TicksValid, Registry;
      HeldSideOk(bids, bidQueues, Buy);
      assert Slot(bids, bidQueues, Buy, tick);
      VisitLevel(taker, level, Buy, tick, batch);
      bidQueues := bidQueues[tick := level.queue];
      forall p | 1 <= p < LEVELS
        ensures Slot(asks, askQueues, Sell, p) && Slot(bids, bidQueues, Buy, p)
      {
        assert old(Slot(asks, askQueues, Sell, p)) && old(Slot(bids, bidQueues, Buy, p));
      }
      Stocked(bids, bidQueues, Buy, tick);
    }

    /** The taker meets one level, and the depth left there is published. No other level is touched. */
    method VisitLevel(taker: MemoryOrder, level: PriceLevel, side: Side, tick: nat, batch: PendingBatch)
      requires Registry(levels, repr) && level in levels
      requires this !in repr && taker !in repr && batch !in repr && taker.order.side == Opposite(side)
      requires level.side == side && level.tick == tick && ValidTick(tick) && TickCrosses(tick, taker.order)
      modifies taker`order, batch, repr
      ensures Registry(levels, repr)
      ensures forall l :: l in levels && l != level ==> l.queue == old(l.queue)
      ensures RestingQueue(old(level.queue))
      ensures var s := Sweep(old(level.queue), old(taker.order), currentTime);
        && TicksValid(s.events)
        && taker.order == s.taker && level.queue == s.queue
        && batch.View() == Recorded(old(batch.View()), s.events, [DepthUpdate(side, tick, Volume(s.queue))])
    {
      hide Sweep, LevelOk, RecordAll, Volume, TicksValid;
      LevelsApart(levels, repr, level);
      SweepLevel(taker, level, tick, batch);
      forall l | l in levels && l != level
        ensures l.Valid()
      {
        assert l.nodes == old(l.nodes);
        forall n | n in l.nodes
          ensures n.order == old(n.order) && n.next == old(n.next) && n.prev == old(n.prev)
        {
          assert old(n in l.nodes) && n != taker && n !in old(level.nodes);
        }
        assert old(l.Valid());
        assert l.Linked() && l.Carries();
      }
      assert forall n :: n in level.nodes ==> n in old(level.nodes);
      batch.RecordDepth(side, tick, level.totalVolume);
    }

    /** The two ways the loops ask whether anything rests at a tick. */
    lemma Stocked(slots: array<PriceLevel?>, queues: Levels, side: Side, tick: nat)
      requires Registry(levels, repr) && Holds(slots, queues, side) && tick < LEVELS
      ensures slots[tick] != null && slots[tick].totalVolume > 0 <==> queues[tick] != []
      ensures slots[tick] == null || slots[tick].head == null <==> queues[tick] == []
    {
      assert tick > 0 ==> Slot(slots, queues, side, tick);
      if slots[tick] != null {
        assert slots[tick].Valid();
        assert queues[tick] != [] ==> Resting(queues[tick][0]);
      }
    }

    lemma AskStocked(tick: nat)
      requires Shaped() && tick < LEVELS
      ensures asks.Length == LEVELS && SideOk(askQueues, Sell)
      ensures asks[tick] != null && asks[tick].totalVolume > 0 <==> askQueues[tick] != []
      ensures asks[tick] == null || asks[tick].head == null <==> askQueues[tick] == []
    {
      Stocked(asks, askQueues, Sell, tick);
      HeldSideOk(asks, askQueues, Sell);
    }

    method UpdateBestAsk(startPrice: nat)
      requires Shaped() && forall p :: 1 <= p < startPrice && p <= 99 ==> askQueues[p] == []
      modifies `bestAsk
      ensures BestOk(askQueues, Sell, bestAsk)
    {
      bestAsk := 0;
      var p := startPrice;
      while p <= 99
        invariant bestAsk == 0
        invariant forall r :: 1 <= r < p && r <= 99 ==> askQueues[r] == []
      {
        AskStocked(p);
        if asks[p] != null && asks[p].totalVolume > 0 {
          bestAsk := p;
          break;
        }
        p := p + 1;
      }
    }

    /** Where an arriving buy starts: the cached best ask, or a scan when none is cached. */
    method FirstAsk() returns (target: nat)
      requires Shaped() && (bestAsk != 0 ==> BestOk(askQueues, Sell, bestAsk))
      ensures BestOk(askQueues, Sell, target)
    {
      target := bestAsk;
      if target == 0 {
        var p := 1;
        AskStocked(0);
        while p <= 99
          invariant 1 <= p <= 100 && target == 0
          invariant forall r :: 0 <= r < p ==> askQueues[r] == []
        {
          AskStocked(p);
          if asks[p] != null && asks[p].totalVolume > 0 {
            target := p;
            break;
          }
          p := p + 1;
        }
      }
    }

    /** The outer loop for an arriving buy: levels from the lowest ask up. */
    method MatchAsks(taker: MemoryOrder, batch: PendingBatch)
      requires Valid() && Apart(taker, batch)
      requires taker.order.side == Buy && ValidTick(taker.order.tick)
      modifies `askQueues, `bestAsk, taker`order, batch, repr
      ensures Shaped() && BestOk(askQueues, Sell, bestAsk) && SideOk(old(askQueues), Sell)
      ensures var w := Walk(old(askQueues), 1, old(taker.order), currentTime);
        && TicksValid(w.events)
        && WalkScene(askQueues, taker.order, batch.View())
           == WalkScene(w.levels, w.taker, Recorded(old(batch.View()), w.events, w.depth))
    {
      hide Shaped, Sweep, Walk, LevelOk, RecordAll, Volume, TicksValid, WalkAhead, SweepTick, SideOk;
      var target := FirstAsk();
      ghost var c0 := WalkScene(askQueues, taker.order, batch.View());
      ghost var rank := if target == 0 then 100 else target;
      AskStocked(0);
      WalkStart(c0, rank, currentTime);
      while !IsFilled(taker.order) && target != 0 && target <= taker.order.tick && target <= 99
        invariant Shaped() && 1 <= rank <= 100 && rank == (if target == 0 then 100 else target)
        invariant forall p :: 1 <= p < rank ==> askQueues[p] == []
        invariant SameOrder(c0.taker, taker.order)
        invariant WalkAhead(c0, WalkScene(askQueues, taker.order, batch.View()), rank, currentTime)
        decreases 100 - rank, !IsFilled(taker.order)
      {
        AskStocked(target);
        var level := asks[target];
        if level == null || level.head == null {
          WalkSkips(c0, WalkScene(askQueues, taker.order, batch.View()), rank, currentTime);
          target := target + 1;
          rank := rank + 1;
          continue;
        }
        WalkMeets(c0, WalkScene(askQueues, taker.order, batch.View()), rank, currentTime);
        VisitAsks(taker, level, target, batch);
        if level.head == null {
          target := target + 1;
          rank := rank + 1;
        }
      }
      WalkEnds(c0, WalkScene(askQueues, taker.order, batch.View()), rank, currentTime);
      UpdateBestAsk(target);
    }

    lemma BidStocked(tick: nat)
      requires Shaped() && tick < LEVELS
      ensures bids.Length == LEVELS && SideOk(bidQueues, Buy)
      ensures bids[tick] != null && bids[tick].totalVolume > 0 <==> bidQueues[tick] != []
      ensures bids[tick] == null || bids[tick].head == null <==> bidQueues[tick] == []
    {
      Stocked(bids, bidQueues, Buy, tick);
      HeldSideOk(bids, bidQueues, Buy);
    }

    method UpdateBestBid(startPrice: nat)
      requires Shaped() && startPrice <= 99 && forall p :: startPrice < p <= 99 ==> bidQueues[p] == []
      modifies `bestBid
      ensures BestOk(bidQueues, Buy, bestBid)
    {
      bestBid := 0;
      var p := startPrice;
      BidStocked(0);
      while p >= 1
        invariant 0 <= p <= 99 && bestBid == 0
        invariant forall r :: p < r <= 99 ==> bidQueues[r] == []
      {
        BidStocked(p);
        if bids[p] != null && bids[p].totalVolume > 0 {
          bestBid := p;
          break;
        }
        p := p - 1;
      }
    }

    method FirstBid() returns (target: nat)
      requires Shaped() && (bestBid != 0 ==> BestOk(bidQueues, Buy, bestBid))
      ensures BestOk(bidQueues, Buy, target)
    {
      target := bestBid;
      if target == 0 {
        var p := 99;
        BidStocked(0);
        while p >= 1
          invariant 0 <= p <= 99 && target == 0
          invariant forall r :: p < r <= 99 ==> bidQueues[r] == []
        {
          BidStocked(p);
          if bids[p] != null && bids[p].totalVolume > 0 {
            target := p;
            break;
          }
          p := p - 1;
        }
      }
    }

    /** The outer loop for an arriving sell: levels from the highest bid down, stopping at the lowest tick. */
    method MatchBids(taker: MemoryOrder, batch: PendingBatch)
      requires Valid() && Apart(taker, batch)
      requires taker.order.side == Sell && ValidTick(taker.order.tick)
      modifies `bidQueues, `bestBid, taker`order, batch, repr
      ensures Shaped() && BestOk(bidQueues, Buy, bestBid) && SideOk(old(bidQueues), Buy)
      ensures var w := Walk(old(bidQueues), 1, old(taker.order), currentTime);
        && TicksValid(w.events)
        && WalkScene(bidQueues, taker.order, batch.View())
           == WalkScene(w.levels, w.taker, Recorded(old(batch.View()), w.events, w.depth))
    {
      hide Shaped, Sweep, Walk, LevelOk, RecordAll, Volume, TicksValid, WalkAhead, SweepTick, SideOk;
      var target := FirstBid();
      ghost var c0 := WalkScene(bidQueues, taker.order, batch.View());
      ghost var rank := 100 - target;
      BidStocked(0);
      WalkStart(c0, rank, currentTime);
      while !IsFilled(taker.order) && target != 0 && target >= taker.order.tick && target >= 1
        invariant Shaped() && 0 <= target <= 99 && rank == 100 - target
        invariant forall p :: target < p <= 99 ==> bidQueues[p] == []
        invariant SameOrder(c0.taker, taker.order)
        invariant WalkAhead(c0, WalkScene(bidQueues, taker.order, batch.View()), rank, currentTime)
        decreases target, !IsFilled(taker.order)
      {
        BidStocked(target);
        var level := bids[target];
        if level == null || level.head == null {
          WalkSkips(c0, WalkScene(bidQueues, taker.order, batch.View()), rank, currentTime);
          rank := rank + 1;
          if target == 1 {
            break;
          }
          target := target - 1;
          continue;
        }
        WalkMeets(c0, WalkScene(bidQueues, taker.order, batch.View()), rank, currentTime);
        VisitBids(taker, level, target, batch);
        if level.head == null {
          rank := rank + 1;
          if target == 1 {
            break;
          }
          target := target - 1;
        }
      }
      WalkEnds(c0, WalkScene(bidQueues, taker.order, batch.View()), rank, currentTime);
      UpdateBestBid(target);
    }

    // ----- Resting an order -----

    /** Levels come into being the first time something rests at them. */
    method EnsureLevel(side: Side, tick: nat) returns (level: PriceLevel)
      requires Shaped() && this !in repr && ValidTick(tick)
      modifies `levels, `repr, bids, asks
      ensures Shaped() && level in levels && level.side == side && level.tick == tick
      ensures old(repr) <= repr && fresh(repr - old(repr)) && this !in repr
      ensures level.queue == SideOf(Value(), side)[tick]
    {
      hide Registry, PriceLevel.Valid, PriceLevel.Consistent, Volume;
      var slots := if side == Buy then bids else asks;
      assert Slot(slots, SideOf(Value(), side), side, tick);
      if slots[tick] == null {
        var created := new PriceLevel(side, tick);
        RegistryGrows(levels, repr, created);
        slots[tick] := created;
        levels, repr := levels + {created}, repr + {created};
        forall p | 1 <= p < LEVELS
          ensures Slot(asks, askQueues, Sell, p) && Slot(bids, bidQueues, Buy, p)
        {
          assert old(Slot(asks, askQueues, Sell, p)) && old(Slot(bids, bidQueues, Buy, p));
        }
      }
      level := slots[tick];
    }

    /** A new order joins the tail of its level. No other level is touched. */
    method Append(order: MemoryOrder, level: PriceLevel)
      requires Registry(levels, repr) && level in levels && this !in repr
      requires order !in repr && order.next == null && order.prev == null
      requires LevelOk([order.order], level.side, level.tick)
      modifies `repr, order, repr
      ensures repr == old(repr) + {order} && Registry(levels, repr)
      ensures forall l :: l in levels && l != level ==> l.queue == old(l.queue)
      ensures order.order == old(order.order) && level.queue == old(level.queue) + [order.order]
      ensures level.totalVolume == Volume(level.queue)
    {
      hide LevelOk, Volume;
      LevelsApart(levels, repr, level);
      level.PushBack(order);
      forall l | l in levels && l != level
        ensures l.Valid()
      {
        assert l.nodes == old(l.nodes);
        forall n | n in l.nodes
          ensures n.order == old(n.order) && n.next == old(n.next) && n.prev == old(n.prev)
        {
          assert old(n in l.nodes) && n != order && n !in old(level.nodes);
        }
        assert old(l.Valid());
        assert l.Linked() && l.Carries();
      }
      repr := repr + {order};
    }

    method AppendAt(order: MemoryOrder, level: PriceLevel, side: Side, tick: nat)
      requires Shaped() && this !in repr && order !in repr && order.next == null && order.prev == null
      requires level in levels && level.side == side == order.order.side && level.tick == tick == order.order.tick
      requires Resting(order.order)
      modifies `bidQueues, `askQueues, `repr, order, repr
      ensures Shaped() && repr == old(repr) + {order} && order.order == old(order.order)
      ensures var queue := SideOf(old(Value()), side)[tick] + [order.order];
        && level.totalVolume == Volume(queue)
        && Value() == WithSide(old(Value()), side, SideOf(old(Value()), side)[tick := queue])
    {
      hide Registry, Volume, PriceLevel.Valid;
      assert Slot(asks, askQueues, Sell, tick) && Slot(bids, bidQueues, Buy, tick);
      Append(order, level);
      if side == Buy {
        bidQueues := bidQueues[tick := level.queue];
      } else {
        askQueues := askQueues[tick := level.queue];
      }
      forall p | 1 <= p < LEVELS
        ensures Slot(asks, askQueues, Sell, p) && Slot(bids, bidQueues, Buy, p)
      {
        assert old(Slot(asks, askQueues, Sell, p)) && old(Slot(bids, bidQueues, Buy, p));
      }
    }

    /** Rests an order and notes it in the batch; the cached best price moves only if the order improves it. */
    method AddOrderToBook(order: MemoryOrder, batch: PendingBatch)
      requires Valid() && Apart(order, batch) && order.next == null && order.prev == null
      requires Resting(order.order)
      modifies `bidQueues, `askQueues, `bestBid, `bestAsk, `levels, `repr, order, batch, bids, asks, repr
      ensures Valid() && old(repr) <= repr && fresh(repr - old(repr) - {order}) && this !in repr
      ensures var (o, v) := (old(order.order), old(Value()));
        var level := SideOf(v, o.side)[o.tick] + [o];
        && Value() == WithSide(v, o.side, SideOf(v, o.side)[o.tick := level])
        && batch.View() == AddDepth(AddUpdate(old(batch.View()), o, New, o.qty, o.spend, 0, NoReason), o.side, o.tick, Volume(level))
    {
      hide Shaped, Volume, AddUpdate, AddDepth, EnsureOrder;
      var side, tick := order.order.side, order.order.tick;
      var level := EnsureLevel(side, tick);
      AppendAt(order, level, side, tick);
      batch.RecordUpdate(order.order, New, order.order.qty, order.order.spend, 0, NoReason);
      batch.RecordDepth(side, tick, level.totalVolume);
      if side == Buy && tick > bestBid {
        bestBid := tick;
      }
      if side == Sell && (bestAsk == 0 || tick < bestAsk) {
        bestAsk := tick;
      }
    }

    // ----- Commands -----

    lemma SidesAreOk()
      requires Shaped()
      ensures SidesOk(Value())
    {
      HeldSideOk(bids, bidQueues, Buy);
      HeldSideOk(asks, askQueues, Sell);
    }

    /** The taker against the other side of the book. */
    method MatchTaker(taker: MemoryOrder, batch: PendingBatch)
      requires Valid() && Apart(taker, batch) && ValidTick(taker.order.tick)
      modifies `bidQueues, `askQueues, `bestBid, `bestAsk, taker`order, batch, repr
      ensures Valid() && SidesOk(old(Value()))
      ensures var w := Matched(old(Value()), old(taker.order), currentTime);
        && TicksValid(w.events)
        && Value() == WithSide(old(Value()), Opposite(old(taker.order.side)), w.levels)
        && taker.order == w.taker
        && batch.View() == Recorded(old(batch.View()), w.events, w.depth)
    {
      hide Shaped, Walk, SideOk;
      SidesAreOk();
      if taker.order.side == Buy {
        MatchAsks(taker, batch);
      } else {
        MatchBids(taker, batch);
      }
    }

    method HandlePlaceOrder(o: Order, batch: PendingBatch)
      requires Valid() && this !in repr && batch !in repr && ValidTick(o.tick)
      modifies `bidQueues, `askQueues, `bestBid, `bestAsk, `levels, `repr, batch, bids, asks, repr
      ensures Valid() && old(repr) <= repr && fresh(repr - old(repr)) && this !in repr
      ensures SidesOk(old(Value()))
      ensures Step(Value(), batch.View()) == Place(old(Value()), old(batch.View()), o, currentTime)
    {
      hide Shaped, Walk, SideOk, AddUpdate, AddDepth, Recorded, Volume;
      SidesAreOk();
      if !isActive {
        batch.RecordUpdate(o, Rejected, o.qty, o.spend, 0, MarketHalted);
        return;
      }
      var taker := new MemoryOrder(o);
      WalkKeepsSide(SideOf(Value(), Opposite(o.side)), 1, o, currentTime);
      MatchTaker(taker, batch);
      if IsFilled(taker.order) {
        batch.RecordUpdate(taker.order, Filled, 0, 0, 0, NoReason);
        return;
      }
      if taker.order.otype == Market {
        var refund := taker.order.spend;
        batch.RecordUpdate(taker.order, Canceled, taker.order.qty, taker.order.spend, refund, MarketUnfilled);
        return;
      }
      AddOrderToBook(taker, batch);
    }

    /** Expired orders leave from the head of one level, up to the first that is still good. */
    method ExpireHeads(level: PriceLevel, batch: PendingBatch) returns (removed: bool)
      requires level.Valid() && ValidTick(level.tick)
      modifies level, level.nodes, batch
      ensures level.Valid() && |level.nodes| <= |old(level.nodes)|
      ensures level.nodes == old(level.nodes)[|old(level.nodes)| - |level.nodes|..]
      ensures removed <==> old(level.queue) != [] && IsExpired(old(level.queue)[0], currentTime)
      ensures level.queue == DropExpired(old(level.queue), currentTime)
      ensures TicksValid(ExpiredPrefix(old(level.queue), currentTime))
      ensures batch.View() == RecordAll(old(batch.View()), ExpiredPrefix(old(level.queue), currentTime))
    {
      hide TickAhead, RecordAll, RecordRemoval, Volume, DropExpired, ExpiredPrefix;
      removed := false;
      var curr := level.head;
      ghost var q0, b0 := level.queue, batch.View();
      TickStart(q0, b0, level.side, level.tick, currentTime);
      while curr != null
        invariant level.Valid() && curr == level.head
        invariant |level.nodes| <= |old(level.nodes)|
        invariant level.nodes == old(level.nodes)[|old(level.nodes)| - |level.nodes|..]
        invariant if removed then q0 != [] && IsExpired(q0[0], currentTime) else level.queue == q0
        invariant TickAhead(q0, b0, level.queue, batch.View(), level.side, level.tick, currentTime)
        decreases |level.nodes|
      {
        var next := curr.next;
        if IsExpired(curr.order, currentTime) {
          TickDrops(q0, b0, level.queue, batch.View(), level.side, level.tick, currentTime);
          RemoveAndRecycleMaker(curr, level, batch, Lapsed, OrderExpired);
          removed := true;
          curr := next;
        } else {
          break;
        }
      }
      TickEnds(q0, b0, level.queue, batch.View(), level.side, level.tick, currentTime);
    }

    /** The same among all levels of the book. */
    method ExpireLevel(level: PriceLevel, batch: PendingBatch) returns (removed: bool)
      requires Registry(levels, repr) && level in levels && this !in repr && batch !in repr && ValidTick(level.tick)
      modifies batch, repr
      ensures Registry(levels, repr)
      ensures forall l :: l in levels && l != level ==> l.queue == old(l.queue)
      ensures level.totalVolume == Volume(level.queue)
      ensures removed <==> old(level.queue) != [] && IsExpired(old(level.queue)[0], currentTime)
      ensures level.queue == DropExpired(old(level.queue), currentTime)
      ensures TicksValid(ExpiredPrefix(old(level.queue), currentTime))
      ensures batch.View() == RecordAll(old(batch.View()), ExpiredPrefix(old(level.queue), currentTime))
    {
      hide LevelOk, RecordAll, Volume, TicksValid, DropExpired, ExpiredPrefix;
      LevelsApart(levels, repr, level);
      removed := ExpireHeads(level, batch);
      forall l | l in levels && l != level
        ensures l.Valid()
      {
        assert l.nodes == old(l.nodes);
        forall n | n in l.nodes
          ensures n.order == old(n.order) && n.next == old(n.next) && n.prev == old(n.prev)
        {
          assert old(n in l.nodes) && n !in old(level.nodes);
        }
        assert old(l.Valid());
        assert l.Linked() && l.Carries();
      }
      assert forall n :: n in level.nodes ==> n in old(level.nodes);
    }

    method ExpireSlot(level: PriceLevel, side: Side, tick: nat, batch: PendingBatch) returns (removed: bool)
      requires Shaped() && this !in repr && batch !in repr && ValidTick(tick)
      requires level == (if side == Buy then bids else asks)[tick]
      modifies `bidQueues, `askQueues, batch, repr
      ensures Shaped() && SidesOk(old(Value()))
      ensures var (q, rest) := (SideOf(old(Value()), side)[tick], SideOf(Value(), side)[tick]);
        && (removed <==> q != [] && IsExpired(q[0], currentTime))
        && rest == DropExpired(q, currentTime) && level.totalVolume == Volume(rest)
        && Value() == WithSide(old(Value()), side, SideOf(old(Value()), side)[tick := rest])
        && TicksValid(ExpiredPrefix(q, currentTime))
        && batch.View() == RecordAll(old(batch.View()), ExpiredPrefix(q, currentTime))
    {
      hide Registry, LevelOk, RecordAll, Volume, TicksValid, DropExpired, ExpiredPrefix, SideOk, IsExpired;
      SidesAreOk();
      assert Slot(asks, askQueues, Sell, tick) && Slot(bids, bidQueues, Buy, tick);
      removed := ExpireLevel(level, batch);
      if side == Buy {
        bidQueues := bidQueues[tick := level.queue];
      } else {
        askQueues := askQueues[tick := level.queue];
      }
      forall p | 1 <= p < LEVELS
        ensures Slot(asks, askQueues, Sell, p) && Slot(bids, bidQueues, Buy, p)
      {
        assert old(Slot(asks, askQueues, Sell, p)) && old(Slot(bids, bidQueues, Buy, p));
      }
    }

    method SweepLevelO1(level: PriceLevel?, side: Side, tick: nat, batch: PendingBatch) returns (removed: bool)
      requires Shaped() && this !in repr && batch !in repr && ValidTick(tick)
      requires level == (if side == Buy then bids else asks)[tick]
      modifies `bidQueues, `askQueues, batch, repr
      ensures Shaped() && SidesOk(old(Value()))
      ensures removed || Value() == old(Value())
      ensures Step(Value(), batch.View()) == TickLevel(old(Value()), old(batch.View()), side, tick, currentTime)
    {
      hide Shaped, RecordAll, Volume, TicksValid, DropExpired, ExpiredPrefix, SideOk, IsExpired;
      SidesAreOk();
      AskStocked(tick);
      BidStocked(tick);
      if level == null || level.head == null {
        return false;
      }
      removed := ExpireSlot(level, side, tick, batch);
      if removed {
        batch.RecordDepth(side, tick, level.totalVolume);
      } else {
        NothingLapses(SideOf(old(Value()), side)[tick], old(batch.View()), currentTime);
      }
    }

    method HandleTick(now: int, batch: PendingBatch)
      requires Valid() && this !in repr && batch !in repr
      modifies `currentTime, `bidQueues, `askQueues, `bestBid, `bestAsk, batch, repr
      ensures Valid() && currentTime == now && SidesOk(old(Value()))
      ensures Step(Value(), batch.View()) == TickFrom(old(Value()), old(batch.View()), 1, now)
    {
      hide Shaped, TickLevel, SideOk, SidesOk;
      currentTime := now;
      SidesAreOk();
      AskStocked(0);
      BidStocked(0);
      var changed := false;
      var p := 1;
      while p <= 99
        invariant 1 <= p <= 100 && Shaped() && SidesOk(Value())
        invariant currentTime == now && bestBid == old(bestBid) && bestAsk == old(bestAsk)
        invariant changed || Value() == old(Value())
        invariant TickFrom(old(Value()), old(batch.View()), 1, now) == TickFrom(Value(), batch.View(), p, now)
      {
        var b := SweepLevelO1(bids[p], Buy, p, batch);
        if b {
          changed := true;
        }
        var a := SweepLevelO1(asks[p], Sell, p, batch);
        if a {
          changed := true;
        }
        SidesAreOk();
        p := p + 1;
      }
      if changed {
        UpdateBestBid(99);
        UpdateBestAsk(1);
      }
    }

    method HandleHalt()
      modifies `isActive
      ensures Value() == old(Value()).(active := false)
    {
      if isActive {
        isActive := false;
      }
    }

    /** One command: the book and the batch become exactly what the price-time matcher makes of them. */
    method ProcessCommand(cmd: Command, batch: PendingBatch)
      requires Valid() && this !in repr && batch !in repr && CommandOk(cmd)
      modifies this, batch, bids, asks, repr
      ensures Valid() && old(repr) <= repr && fresh(repr - old(repr)) && this !in repr
      ensures SidesOk(old(Value()))
      ensures Step(Value(), batch.View()) == Execute(Step(old(Value()), old(batch.View())), cmd)
    {
      hide Shaped, Place, TickFrom, SideOk, SidesOk;
      SidesAreOk();
      currentTime := cmd.timestamp;
      match cmd
      case PlaceOrder(_, o) => HandlePlaceOrder(o, batch);
      case Tick(timestamp) => HandleTick(timestamp, batch);
      case Halt(_) => HandleHalt();
    }

    method RemoveAndRecycleMaker(maker: MemoryOrder, level: PriceLevel, batch: PendingBatch, status: Status, reason: Reason)
      requires level.Consistent() && level.nodes != [] && level.nodes[0] == maker
      modifies level, level.nodes, batch
      ensures level.Consistent() && level.nodes == old(level.nodes)[1..] && level.queue == old(level.queue)[1..]
      ensures batch.View() == RecordRemoval(old(batch.View()), old(maker.order), status, reason)
    {
      level.RemoveHead(maker);
      batch.RecordUpdate(maker.order, status, maker.order.qty, maker.order.spend, ReleaseRefund(maker.order), reason);
      maker.Release();
    }

    /** The lots change hands; the maker stays in its list for now, even with nothing left. */
    method Fill(taker: MemoryOrder, maker: MemoryOrder, level: PriceLevel, price: nat, batch: PendingBatch) returns (lots: nat)
      requires level.Consistent() && taker !in level.nodes && level.nodes != [] && maker == level.nodes[0]
      requires maker.order.tick == price && price <= 100
      requires FillLots(taker.order, maker.order) <= maker.order.qty
      modifies taker`order, level, maker`order, batch
      ensures level.Consistent() && level.nodes == old(level.nodes) && level.queue == old(level.queue)[0 := maker.order]
      ensures lots == FillLots(old(taker.order), old(maker.order))
      ensures taker.order == AfterFill(old(taker.order), old(maker.order))
      ensures maker.order == old(maker.order).(qty := old(maker.order).qty - lots)
      ensures batch.View() == AddFill(old(batch.View()), maker.order, taker.order, price, lots)
    {
      lots := FillLots(taker.order, maker.order);
      taker.order := AfterFill(taker.order, maker.order);
      level.Reduce(maker, 0, lots);
      batch.RecordFill(maker.order, taker.order, price, lots);
    }

    /** The oldest maker of a level trades with the taker, and leaves if nothing remains of it. */
    method TradeWithHead(taker: MemoryOrder, maker: MemoryOrder, level: PriceLevel, price: nat, batch: PendingBatch)
      requires level.Consistent() && taker !in level.nodes && level.nodes != [] && maker == level.nodes[0]
      requires maker.order.tick == price && price <= 100
      requires FillLots(taker.order, maker.order) <= maker.order.qty
      modifies taker`order, level, level.nodes, batch
      ensures level.Consistent()
      ensures taker.order == AfterFill(old(taker.order), old(maker.order))
      ensures var m, lots := old(maker.order), FillLots(old(taker.order), old(maker.order));
        var cut := m.(qty := m.qty - lots);
        var b1 := AddFill(old(batch.View()), cut, taker.order, price, lots);
        if cut.qty == 0 then
          && level.nodes == old(level.nodes)[1..] && level.queue == old(level.queue)[1..]
          && batch.View() == RecordRemoval(b1, cut, Filled, NoReason)
        else
          && level.nodes == old(level.nodes) && level.queue == old(level.queue)[0 := cut]
          && batch.View() == AddUpdate(b1, cut, PartiallyFilled, cut.qty, cut.spend, 0, NoReason)
    {
      var lots := Fill(taker, maker, level, price, batch);
      if maker.order.qty == 0 {
        RemoveAndRecycleMaker(maker, level, batch, Filled, NoReason);
      } else {
        batch.RecordUpdate(maker.order, PartiallyFilled, maker.order.qty, maker.order.spend, 0, NoReason);
      }
    }

    /** One turn of the inner loop: the oldest maker of the level lapses, is cancelled or trades. */
    method MeetHead(taker: MemoryOrder, maker: MemoryOrder, level: PriceLevel, price: nat, batch: PendingBatch)
      requires level.Valid() && taker !in level.nodes && level.nodes != [] && maker == level.nodes[0]
      requires level.tick == price && ValidTick(price) && !IsFilled(taker.order)
      modifies taker`order, level, level.nodes, batch
      ensures level.Valid()
      ensures if level.nodes == old(level.nodes) then IsFilled(taker.order) else level.nodes == old(level.nodes)[1..]
      ensures old(level.queue)[0].tick == price
      ensures Scene(level.queue, taker.order, batch.View())
           == MeetOne(Scene(old(level.queue), old(taker.order), old(batch.View())), currentTime)
    {
      ghost var q := level.queue;
      assert Resting(q[0]) && q[0].tick == price;
      assert LevelOk(q[1..], level.side, level.tick);
      FillLotsInRange(taker.order, maker.order);
      if IsExpired(maker.order, currentTime) {
        RemoveAndRecycleMaker(maker, level, batch, Lapsed, OrderExpired);
        return;
      }
      if maker.order.wallet == taker.order.wallet {
        RemoveAndRecycleMaker(maker, level, batch, Canceled, SelfTradePrevention);
        return;
      }
      TradeWithHead(taker, maker, level, price, batch);
    }

    /** The inner loop: makers of one level against the taker, oldest first. */
    method SweepLevel(taker: MemoryOrder, level: PriceLevel, price: nat, batch: PendingBatch)
      requires level.Valid() && taker !in level.nodes
      requires ValidTick(price) && level.tick == price
      requires level.side == Opposite(taker.order.side) && TickCrosses(price, taker.order)
      modifies taker`order, level, level.nodes, batch
      ensures level.Valid() && taker !in level.nodes
      ensures |level.nodes| <= |old(level.nodes)|
      ensures level.nodes == old(level.nodes)[|old(level.nodes)| - |level.nodes|..]
      ensures RestingQueue(old(level.queue))
      ensures var s := Sweep(old(level.queue), old(taker.order), currentTime);
        && TicksValid(s.events)
        && level.queue == s.queue && taker.order == s.taker
        && batch.View() == RecordAll(old(batch.View()), s.events)
    {
      hide Ahead, MeetOne, Sweep, Volume, RecordAll, TicksValid;
      var maker := level.head;
      ghost var s0 := Scene(level.queue, taker.order, batch.View());
      AheadStart(s0, currentTime);
      while maker != null && !IsFilled(taker.order)
        invariant level.Valid() && taker !in level.nodes
        invariant |level.nodes| <= |old(level.nodes)|
        invariant level.nodes == old(level.nodes)[|old(level.nodes)| - |level.nodes|..]
        invariant SameOrder(s0.taker, taker.order)
        invariant IsFilled(taker.order) || maker == level.head
        invariant Ahead(s0, Scene(level.queue, taker.order, batch.View()), currentTime)
        decreases |level.nodes|, !IsFilled(taker.order)
      {
        var nextMaker := maker.next;
        AheadStep(s0, Scene(level.queue, taker.order, batch.View()), currentTime);
        MeetHead(taker, maker, level, price, batch);
        maker := nextMaker;
      }
      AheadEnd(s0, Scene(level.queue, taker.order, batch.View()), currentTime);
    }
  }
}
