/** What one market keeps over any run of commands. */
module MarketRun {
  import opened Types
  import opened Rounding
  import opened Matching
  import opened Batch
  import opened BookModel
  import Depth

  // ----- Price-time priority of the whole command -----

  /**
   * Placing an order is: sweep the other side as one queue in priority order, then, if it is a limit order with
   * something left, insert it into its own side by price and time.
   */
  lemma PlaceIsPriceTime(b: BookValue, batch: MatchBatch, o: Order, now: int)
    requires SidesOk(b) && ValidTick(o.tick) && b.active
    ensures RestingQueue(Flat(SideOf(b, Opposite(o.side)), o.side, 1))
    ensures var theirs, ours := Flat(SideOf(b, Opposite(o.side)), o.side, 1), Flat(SideOf(b, o.side), Opposite(o.side), 1);
      var s, r := Sweep(theirs, o, now), Place(b, batch, o, now).book;
      && Flat(SideOf(r, Opposite(o.side)), o.side, 1) == s.queue
      && Flat(SideOf(r, o.side), Opposite(o.side), 1)
         == if IsFilled(s.taker) || o.otype == Market then ours else Insert(ours, s.taker, Opposite(o.side))
  {
    WalkIsSweep(SideOf(b, Opposite(o.side)), 1, o, now);
    WalkKeepsSide(SideOf(b, Opposite(o.side)), 1, o, now);
    var w := Matched(b, o, now);
    if !IsFilled(w.taker) && o.otype != Market {
      AppendIsInsert(SideOf(b, o.side), Opposite(o.side), 1, w.taker);
    }
  }

  /**
   * A market buy is accounted to the unit in what the batch says: the notionals of its fills and the refund of
   * its last update make up the amount it set out to spend.
   */
  lemma MarketBuyAccounted(b: BookValue, batch: MatchBatch, o: Order, now: int)
    requires SidesOk(b) && ValidTick(o.tick) && b.active && SpendDenominated(o)
    ensures var r := Place(b, batch, o, now).batch;
      && |r.updates| > 0
      && var last := r.updates[|r.updates| - 1];
         && Notional(r.fills) - Notional(batch.fills) + last.refund == o.spend
         && last.remainingSpend == last.refund
         && (last.refund == 0 <==> last.status == Filled)
  {
    var levels := SideOf(b, Opposite(o.side));
    WalkIsSweep(levels, 1, o, now);
    WalkKeepsSide(levels, 1, o, now);
    SpendTakerPaysExactly(Flat(levels, o.side, 1), o, now);
    SweepKeepsIdentity(Flat(levels, o.side, 1), o, now);
    var w := Matched(b, o, now);
    assert TicksValid(w.events) && PaidUnits(w.events, o) + w.taker.spend == o.spend && SpendDenominated(w.taker);
    RecordAllNotional(batch, w.events, o);
    SettleMarketBuy(WithSide(b, Opposite(o.side), w.levels), Recorded(batch, w.events, w.depth), w.taker);
    hide Settle, RecordAll, PaidUnits, Walk, Notional;
  }

  /** A market buy that is done or given up gets one last update, with whatever it has not spent. */
  lemma SettleMarketBuy(b: BookValue, batch: MatchBatch, taker: Order)
    requires taker.tick < LEVELS && SpendDenominated(taker)
    ensures var r := Settle(b, batch, taker).batch;
      && r.fills == batch.fills && |r.updates| > 0
      && var last := r.updates[|r.updates| - 1];
         && last.refund == taker.spend == last.remainingSpend && (taker.spend == 0 <==> last.status == Filled)
  {
  }

  // ----- The book -----

  predicate AllKnown(levels: Levels, placed: Placed) {
    forall p :: 0 <= p < LEVELS ==> QueueKnown(levels[p], placed)
  }

  predicate QueueKnown(q: seq<Order>, placed: Placed) {
    forall i :: 0 <= i < |q| ==> Known(placed, q[i])
  }

  predicate Uncrossed(b: BookValue) {
    forall p, r :: 1 <= p < LEVELS && 1 <= r < LEVELS && b.bids[p] != [] && b.asks[r] != [] ==> p < r
  }

  predicate BookInv(b: BookValue, placed: Placed) {
    && SidesOk(b) && Uncrossed(b) && AllKnown(b.bids, placed) && AllKnown(b.asks, placed)
  }

  /** Levels only ever lose orders from the front, and amounts from the first that stays. */
  predicate Shrinks(small: Levels, big: Levels) {
    forall p {:trigger small[p]} {:trigger big[p]} :: 0 <= p < LEVELS ==> TailOf(small[p], big[p])
  }

  lemma ShrinksKeeps(small: Levels, big: Levels, placed: Placed)
    requires Shrinks(small, big) && AllKnown(big, placed)
    ensures AllKnown(small, placed)
    ensures forall p :: 0 <= p < LEVELS && small[p] != [] ==> big[p] != []
  {
    forall p | 0 <= p < LEVELS
      ensures QueueKnown(small[p], placed)
    {
      assert TailOf(small[p], big[p]) && QueueKnown(big[p], placed);
      forall i | 0 <= i < |small[p]|
        ensures Known(placed, small[p][i])
      {
        assert SameOrder(small[p][i], big[p][|big[p]| - |small[p]| + i]);
      }
    }
  }

  lemma ShrinksHere(levels: Levels, tick: nat, q: seq<Order>)
    requires tick < LEVELS && TailOf(q, levels[tick])
    ensures Shrinks(levels, levels) && Shrinks(levels[tick := q], levels)
  {
  }

  lemma ShrinksTwice(a: Levels, b: Levels, c: Levels)
    requires Shrinks(a, b) && Shrinks(b, c)
    ensures Shrinks(a, c)
  {
    forall p | 0 <= p < LEVELS
      ensures TailOf(a[p], c[p])
    {
      assert TailOf(a[p], b[p]) && TailOf(b[p], c[p]);
      TailOfTail(a[p], b[p], c[p]);
    }
  }

  lemma TailOfTail(a: seq<Order>, b: seq<Order>, c: seq<Order>)
    requires TailOf(a, b) && TailOf(b, c)
    ensures TailOf(a, c)
  {
    forall i | 0 <= i < |a|
      ensures SameOrder(a[i], c[|c| - |a| + i])
    {
      var j := |b| - |a| + i;
      assert SameOrder(a[i], b[j]) && SameOrder(b[j], c[|c| - |b| + j]);
    }
  }

  lemma {:induction false} WalkShrinks(levels: Levels, rank: nat, taker: Order, now: int)
    requires SideOk(levels, Opposite(taker.side)) && 1 <= rank <= 100
    ensures Shrinks(Walk(levels, rank, taker, now).levels, levels)
    decreases 100 - rank
  {
    ShrinksHere(levels, 0, levels[0]);
    if !(IsFilled(taker) || rank > 99 || !TickCrosses(TickAt(taker.side, rank), taker)) {
      var tick := TickAt(taker.side, rank);
      if levels[tick] == [] {
        WalkShrinks(levels, rank + 1, taker, now);
      } else {
        SweptLevelOk(levels, tick, taker, now);
        SweepKeepsTail(levels[tick], taker, now);
        var s := Sweep(levels[tick], taker, now);
        var rest := levels[tick := s.queue];
        hide Sweep, Shrinks, TailOf, SideOk, LevelOk;
        ShrinksHere(levels, tick, s.queue);
        if s.queue == [] {
          WalkShrinks(rest, rank + 1, s.taker, now);
          ShrinksTwice(Walk(rest, rank + 1, s.taker, now).levels, rest, levels);
        }
      }
    }
  }

  /** When a taker is left with something, no order on the other side crosses it. */
  lemma WalkLeavesNoCross(levels: Levels, taker: Order, now: int, tick: nat)
    requires SideOk(levels, Opposite(taker.side)) && ValidTick(tick)
    requires var w := Walk(levels, 1, taker, now); !IsFilled(w.taker) && w.levels[tick] != []
    ensures !TickCrosses(tick, taker)
  {
    var w := Walk(levels, 1, taker, now);
    WalkIsSweep(levels, 1, taker, now);
    FlatInOrder(levels, taker.side, 1);
    SweepLeavesNoCross(Flat(levels, taker.side, 1), taker, now);
    WalkKeepsSide(levels, 1, taker, now);
    var o := w.levels[tick][0];
    assert LevelOk(w.levels[tick], Opposite(taker.side), tick);
    InFlat(w.levels, taker.side, 1, tick);
    assert o in Flat(w.levels, taker.side, 1);
    assert !Crosses(o, taker);
  }

  lemma {:induction false} InFlat(levels: Levels, takerSide: Side, rank: nat, tick: nat)
    requires 1 <= rank <= 99 && ValidTick(tick)
    requires if takerSide == Buy then rank <= tick else tick <= 100 - rank
    ensures forall i :: 0 <= i < |levels[tick]| ==> levels[tick][i] in Flat(levels, takerSide, rank)
    decreases 100 - rank
  {
    if TickAt(takerSide, rank) != tick {
      InFlat(levels, takerSide, rank + 1, tick);
    }
  }

  lemma AppendKnown(levels: Levels, tick: nat, o: Order, placed: Placed)
    requires AllKnown(levels, placed) && Known(placed, o) && tick < LEVELS
    ensures AllKnown(levels[tick := levels[tick] + [o]], placed)
  {
    var r := levels[tick := levels[tick] + [o]];
    forall p | 0 <= p < LEVELS
      ensures QueueKnown(r[p], placed)
    {
      assert QueueKnown(levels[p], placed);
    }
  }

  lemma KnownGrows(levels: Levels, placed: Placed, o: Order)
    requires AllKnown(levels, placed) && o.id !in placed
    ensures AllKnown(levels, placed[o.id := o])
  {
    forall p | 0 <= p < LEVELS
      ensures QueueKnown(levels[p], placed[o.id := o])
    {
      assert QueueKnown(levels[p], placed);
      forall i | 0 <= i < |levels[p]|
        ensures Known(placed[o.id := o], levels[p][i])
      {
        assert Known(placed, levels[p][i]);
      }
    }
  }

  lemma PlaceKeepsKnown(b: BookValue, batch: MatchBatch, o: Order, now: int, placed: Placed)
    requires SidesOk(b) && AllKnown(b.bids, placed) && AllKnown(b.asks, placed) && ValidTick(o.tick) && o.id !in placed
    ensures var r := Place(b, batch, o, now).book;
      AllKnown(r.bids, placed[o.id := o]) && AllKnown(r.asks, placed[o.id := o])
  {
    KnownGrows(b.bids, placed, o);
    KnownGrows(b.asks, placed, o);
    if b.active {
      var theirs := SideOf(b, Opposite(o.side));
      WalkShrinks(theirs, 1, o, now);
      WalkKeepsSide(theirs, 1, o, now);
      var w := Matched(b, o, now);
      ShrinksKeeps(w.levels, theirs, placed[o.id := o]);
      AppendKnown(SideOf(b, o.side), o.tick, w.taker, placed[o.id := o]);
    }
  }

  lemma PlaceKeepsUncrossed(b: BookValue, batch: MatchBatch, o: Order, now: int, placed: Placed)
    requires SidesOk(b) && Uncrossed(b) && AllKnown(b.bids, placed) && AllKnown(b.asks, placed) && ValidTick(o.tick)
    ensures Uncrossed(Place(b, batch, o, now).book)
  {
    if b.active {
      var theirs := SideOf(b, Opposite(o.side));
      WalkShrinks(theirs, 1, o, now);
      WalkKeepsSide(theirs, 1, o, now);
      var w := Matched(b, o, now);
      ShrinksKeeps(w.levels, theirs, placed);
      var r := Place(b, batch, o, now).book;
      assert forall p :: 1 <= p < LEVELS && p != o.tick ==> SideOf(r, o.side)[p] == SideOf(b, o.side)[p];
      if !IsFilled(w.taker) && o.otype == Limit {
        forall p | 1 <= p < LEVELS && w.levels[p] != []
          ensures !TickCrosses(p, o)
        {
          WalkLeavesNoCross(theirs, o, now, p);
        }
      }
    }
  }

  lemma PlaceKeepsBookInv(b: BookValue, batch: MatchBatch, o: Order, now: int, placed: Placed)
    requires BookInv(b, placed) && ValidTick(o.tick) && o.id !in placed
    ensures BookInv(Place(b, batch, o, now).book, placed[o.id := o])
  {
    PlaceKeepsSides(b, batch, o, now);
    PlaceKeepsKnown(b, batch, o, now, placed);
    PlaceKeepsUncrossed(b, batch, o, now, placed);
  }

  // ----- Expiry -----

  predicate HeadFresh(q: seq<Order>, now: int) {
    q != [] ==> !IsExpired(q[0], now)
  }

  predicate HeadsFresh(levels: Levels, low: nat, high: nat, now: int) {
    forall p :: low <= p < high && p < LEVELS ==> HeadFresh(levels[p], now)
  }

  lemma DropExpiredIsTail(q: seq<Order>, side: Side, tick: nat, now: int)
    requires LevelOk(q, side, tick)
    ensures TailOf(DropExpired(q, now), q) && HeadFresh(DropExpired(q, now), now)
  {
    ExpiredPrefixValid(q, side, tick, now);
  }

  lemma ShrunkSideKeepsBook(b: BookValue, side: Side, levels: Levels, placed: Placed)
    requires BookInv(b, placed) && Shrinks(levels, SideOf(b, side)) && SideOk(levels, side)
    ensures BookInv(WithSide(b, side, levels), placed)
  {
    ShrinksKeeps(levels, SideOf(b, side), placed);
  }

  lemma TickLevelKeepsBook(b: BookValue, batch: MatchBatch, side: Side, tick: nat, now: int, placed: Placed)
    requires BookInv(b, placed) && ValidTick(tick)
    ensures var r := TickLevel(b, batch, side, tick, now).book;
      && BookInv(r, placed) && HeadFresh(SideOf(r, side)[tick], now)
      && r == WithSide(b, side, SideOf(b, side)[tick := SideOf(r, side)[tick]])
  {
    hide Uncrossed, AllKnown, Recorded, TailOf;
    TickLevelKeepsSides(b, batch, side, tick, now);
    var levels, q := SideOf(b, side), SideOf(b, side)[tick];
    assert LevelOk(q, side, tick);
    DropExpiredIsTail(q, side, tick, now);
    var rest := levels[tick := DropExpired(q, now)];
    forall p | 0 <= p < LEVELS
      ensures TailOf(rest[p], levels[p])
    {
      if p != tick { TailRefl(levels[p]); }
    }
    ReplacedLevelOk(levels, side, tick, DropExpired(q, now));
    ShrunkSideKeepsBook(b, side, rest, placed);
    if q == [] || !IsExpired(q[0], now) { assert rest == levels; }
  }

  lemma TailRefl(q: seq<Order>)
    ensures TailOf(q, q)
  {
  }

  /** After a tick no level has an expired order at its head, and the book is as sound as before. */
  lemma {:induction false} TickKeepsBookInv(b: BookValue, batch: MatchBatch, tick: nat, now: int, placed: Placed)
    requires BookInv(b, placed) && 1 <= tick <= 100
    requires HeadsFresh(b.bids, 1, tick, now) && HeadsFresh(b.asks, 1, tick, now)
    ensures var r := TickFrom(b, batch, tick, now).book;
      BookInv(r, placed) && HeadsFresh(r.bids, 1, 100, now) && HeadsFresh(r.asks, 1, 100, now)
    decreases 100 - tick
  {
    if tick <= 99 {
      TickLevelKeepsBook(b, batch, Buy, tick, now, placed);
      var s1 := TickLevel(b, batch, Buy, tick, now);
      TickLevelKeepsBook(s1.book, s1.batch, Sell, tick, now, placed);
      var s2 := TickLevel(s1.book, s1.batch, Sell, tick, now);
      assert forall p :: 1 <= p < tick ==> s2.book.bids[p] == b.bids[p] && s2.book.asks[p] == b.asks[p];
      TickKeepsBookInv(s2.book, s2.batch, tick + 1, now, placed);
    }
  }

  // ----- The batch -----

  lemma {:induction false} FlatKnown(levels: Levels, takerSide: Side, rank: nat, placed: Placed)
    requires AllKnown(levels, placed) && 1 <= rank <= 100
    ensures QueueKnown(Flat(levels, takerSide, rank), placed)
    decreases 100 - rank
  {
    if rank <= 99 {
      assert QueueKnown(levels[TickAt(takerSide, rank)], placed);
      FlatKnown(levels, takerSide, rank + 1, placed);
    }
  }

  /** What a walk does is what a batch may record: known makers, other owners, crossing prices, positive lots. */
  lemma WalkEventsSound(levels: Levels, o: Order, now: int, placed: Placed)
    requires SideOk(levels, Opposite(o.side)) && AllKnown(levels, placed) && o.id !in placed
    ensures SoundEvents(Walk(levels, 1, o, now).events, placed[o.id := o])
  {
    var q := Flat(levels, o.side, 1);
    WalkIsSweep(levels, 1, o, now);
    FlatInOrder(levels, o.side, 1);
    FlatKnown(levels, o.side, 1, placed);
    SweepTakesPrefix(q, o, now);
    SweepKeepsIdentity(q, o, now);
    var events := Walk(levels, 1, o, now).events;
    forall i | 0 <= i < |events|
      ensures SoundEvent(events[i], placed[o.id := o])
    {
      assert MeetsRule(events[i], q[i], o, now) && Resting(q[i]) && Known(placed, q[i]);
      assert NoBetterThan(q[i], o.side, 1);
    }
  }

  lemma BatchInvGrows(batch: MatchBatch, placed: Placed, o: Order)
    requires BatchInv(batch, placed) && o.id !in placed
    ensures BatchInv(batch, placed[o.id := o])
  {
    forall i | 0 <= i < |batch.orders|
      ensures Known(placed[o.id := o], batch.orders[i].execution)
    {
      assert Known(placed, batch.orders[i].execution);
    }
  }

  lemma SettleKeepsBatchInv(b: BookValue, batch: MatchBatch, taker: Order, placed: Placed)
    requires BatchInv(batch, placed) && Known(placed, taker) && taker.tick < LEVELS
    ensures BatchInv(Settle(b, batch, taker).batch, placed)
  {
    if IsFilled(taker) {
      AddUpdateKeepsInv(batch, taker, Filled, 0, 0, 0, NoReason, placed);
    } else if taker.otype == Market {
      AddUpdateKeepsInv(batch, taker, Canceled, taker.qty, taker.spend, taker.spend, MarketUnfilled, placed);
    } else {
      AddUpdateKeepsInv(batch, taker, New, taker.qty, taker.spend, 0, NoReason, placed);
    }
  }

  lemma PlaceKeepsBatchInv(b: BookValue, batch: MatchBatch, o: Order, now: int, placed: Placed)
    requires BookInv(b, placed) && BatchInv(batch, placed) && ValidTick(o.tick) && o.id !in placed
    ensures BatchInv(Place(b, batch, o, now).batch, placed[o.id := o])
  {
    BatchInvGrows(batch, placed, o);
    if b.active {
      var theirs := SideOf(b, Opposite(o.side));
      var w := Matched(b, o, now);
      WalkEventsSound(theirs, o, now, placed);
      WalkKeepsSide(theirs, 1, o, now);
      RecordAllKeepsInv(batch, w.events, placed[o.id := o]);
      SettleKeepsBatchInv(WithSide(b, Opposite(o.side), w.levels), Recorded(batch, w.events, w.depth), w.taker, placed[o.id := o]);
    } else {
      AddUpdateKeepsInv(batch, o, Rejected, o.qty, o.spend, 0, MarketHalted, placed[o.id := o]);
    }
  }

  lemma TickLevelKeepsBatchInv(b: BookValue, batch: MatchBatch, side: Side, tick: nat, now: int, placed: Placed)
    requires BookInv(b, placed) && BatchInv(batch, placed) && ValidTick(tick)
    ensures BatchInv(TickLevel(b, batch, side, tick, now).batch, placed)
  {
    var q := SideOf(b, side)[tick];
    assert LevelOk(q, side, tick) && QueueKnown(q, placed);
    ExpiredPrefixValid(q, side, tick, now);
    var events := ExpiredPrefix(q, now);
    forall i | 0 <= i < |events|
      ensures SoundEvent(events[i], placed)
    {
      assert Resting(q[i]) && Known(placed, q[i]);
    }
    RecordAllKeepsInv(batch, events, placed);
  }

  lemma {:induction false} TickKeepsBatchInv(b: BookValue, batch: MatchBatch, tick: nat, now: int, placed: Placed)
    requires BookInv(b, placed) && BatchInv(batch, placed) && 1 <= tick <= 100
    ensures BatchInv(TickFrom(b, batch, tick, now).batch, placed)
    decreases 100 - tick
  {
    if tick <= 99 {
      TickLevelKeepsBatchInv(b, batch, Buy, tick, now, placed);
      TickLevelKeepsBook(b, batch, Buy, tick, now, placed);
      var s1 := TickLevel(b, batch, Buy, tick, now);
      TickLevelKeepsBatchInv(s1.book, s1.batch, Sell, tick, now, placed);
      TickLevelKeepsBook(s1.book, s1.batch, Sell, tick, now, placed);
      var s2 := TickLevel(s1.book, s1.batch, Sell, tick, now);
      TickKeepsBatchInv(s2.book, s2.batch, tick + 1, now, placed);
    }
  }

  // ----- Depth -----

  /** What a book looks like from outside: the total at every tick of either side. */
  function DepthOf(b: BookValue): (d: Depth.Book)
    ensures Depth.Shaped(d)
  {
    Depth.Book(seq(Depth.SLOTS, p requires 0 <= p < Depth.SLOTS => if p < LEVELS then Volume(b.bids[p]) else 0),
               seq(Depth.SLOTS, p requires 0 <= p < Depth.SLOTS => if p < LEVELS then Volume(b.asks[p]) else 0))
  }

  lemma DepthOfOneLevel(b: BookValue, side: Side, tick: nat, q: seq<Order>)
    requires tick < LEVELS
    ensures DepthOf(WithSide(b, side, SideOf(b, side)[tick := q]))
         == Depth.ApplyOne(DepthOf(b), DepthUpdate(side, tick, Volume(q)))
  {
  }

  predicate TicksOk(updates: seq<DepthUpdate>) {
    forall i :: 0 <= i < |updates| ==> ValidTick(updates[i].tick)
  }

  /** Replaying `updates`, which are at prices that exist, turns the look of `from` into the look of `to`. */
  ghost predicate Explains(from: BookValue, updates: seq<DepthUpdate>, to: BookValue) {
    TicksOk(updates) && Depth.Apply(DepthOf(from), updates) == DepthOf(to)
  }

  lemma ExplainsConcat(a: BookValue, u: seq<DepthUpdate>, b: BookValue, v: seq<DepthUpdate>, c: BookValue)
    requires Explains(a, u, b) && Explains(b, v, c)
    ensures Explains(a, u + v, c)
  {
    Depth.ApplyConcat(DepthOf(a), u, v);
  }

  lemma ExplainsOne(b: BookValue, side: Side, tick: nat, q: seq<Order>)
    requires ValidTick(tick)
    ensures Explains(b, [DepthUpdate(side, tick, Volume(q))], WithSide(b, side, SideOf(b, side)[tick := q]))
  {
    DepthOfOneLevel(b, side, tick, q);
    var u := [DepthUpdate(side, tick, Volume(q))];
    assert u[1..] == [];
  }

  lemma {:induction false} WalkExplained(b: BookValue, rank: nat, taker: Order, now: int)
    requires SideOk(SideOf(b, Opposite(taker.side)), Opposite(taker.side)) && 1 <= rank <= 100
    ensures var w := Walk(SideOf(b, Opposite(taker.side)), rank, taker, now);
      Explains(b, w.depth, WithSide(b, Opposite(taker.side), w.levels))
    decreases 100 - rank
  {
    var side := Opposite(taker.side);
    var levels := SideOf(b, side);
    if !(IsFilled(taker) || rank > 99 || !TickCrosses(TickAt(taker.side, rank), taker)) {
      var tick := TickAt(taker.side, rank);
      if levels[tick] == [] {
        WalkExplained(b, rank + 1, taker, now);
      } else {
        SweptLevelOk(levels, tick, taker, now);
        var s := Sweep(levels[tick], taker, now);
        ExplainsOne(b, side, tick, s.queue);
        if s.queue == [] {
          var c := WithSide(b, side, levels[tick := s.queue]);
          WalkExplained(c, rank + 1, s.taker, now);
          var w := Walk(SideOf(c, side), rank + 1, s.taker, now);
          ExplainsConcat(b, [DepthUpdate(side, tick, Volume(s.queue))], c, w.depth, WithSide(c, side, w.levels));
        }
      }
    }
  }

  /** A step appends to the batch exactly the depth changes that explain what it did to the book. */
  ghost predicate DepthStep(b: BookValue, batch: MatchBatch, s: Step) {
    && |batch.depth| <= |s.batch.depth| && s.batch.depth[..|batch.depth|] == batch.depth
    && Explains(b, s.batch.depth[|batch.depth|..], s.book)
  }

  lemma DepthStepIs(b: BookValue, batch: MatchBatch, s: Step, updates: seq<DepthUpdate>)
    requires s.batch.depth == batch.depth + updates && Explains(b, updates, s.book)
    ensures DepthStep(b, batch, s)
  {
  }

  lemma DepthStepTrans(b: BookValue, batch: MatchBatch, s: Step, t: Step)
    requires DepthStep(b, batch, s) && DepthStep(s.book, s.batch, t)
    ensures DepthStep(b, batch, t)
  {
    var n, k := |batch.depth|, |s.batch.depth|;
    ExplainsConcat(b, s.batch.depth[n..], s.book, t.batch.depth[k..], t.book);
    assert t.batch.depth[n..] == s.batch.depth[n..] + t.batch.depth[k..];
    assert t.batch.depth[..n] == t.batch.depth[..k][..n];
  }

  lemma PlaceExplained(b: BookValue, batch: MatchBatch, o: Order, now: int)
    requires SidesOk(b) && ValidTick(o.tick)
    ensures DepthStep(b, batch, Place(b, batch, o, now))
  {
    if b.active {
      var w := Matched(b, o, now);
      var side := Opposite(o.side);
      WalkExplained(b, 1, o, now);
      WalkKeepsSide(SideOf(b, side), 1, o, now);
      WalkEventsValid(SideOf(b, side), 1, o, now);
      var mid := Step(WithSide(b, side, w.levels), Recorded(batch, w.events, w.depth));
      RecordAllKeepsDepth(batch, w.events, []);
      DepthStepIs(b, batch, mid, w.depth);
      SettleExplained(mid.book, mid.batch, w.taker);
      DepthStepTrans(b, batch, mid, Settle(mid.book, mid.batch, w.taker));
    } else {
      DepthStepIs(b, batch, Place(b, batch, o, now), []);
    }
  }

  lemma SettleExplained(b: BookValue, batch: MatchBatch, taker: Order)
    requires ValidTick(taker.tick)
    ensures DepthStep(b, batch, Settle(b, batch, taker))
  {
    if IsFilled(taker) || taker.otype == Market {
      DepthStepIs(b, batch, Settle(b, batch, taker), []);
    } else {
      var level := SideOf(b, taker.side)[taker.tick] + [taker];
      ExplainsOne(b, taker.side, taker.tick, level);
      DepthStepIs(b, batch, Settle(b, batch, taker), [DepthUpdate(taker.side, taker.tick, Volume(level))]);
    }
  }

  lemma TickLevelExplained(b: BookValue, batch: MatchBatch, side: Side, tick: nat, now: int)
    requires SidesOk(b) && ValidTick(tick)
    ensures DepthStep(b, batch, TickLevel(b, batch, side, tick, now))
  {
    var q := SideOf(b, side)[tick];
    if q == [] || !IsExpired(q[0], now) {
      DepthStepIs(b, batch, TickLevel(b, batch, side, tick, now), []);
    } else {
      assert LevelOk(q, side, tick);
      ExpiredPrefixValid(q, side, tick, now);
      var rest := DropExpired(q, now);
      ExplainsOne(b, side, tick, rest);
      RecordAllKeepsDepth(batch, ExpiredPrefix(q, now), []);
      DepthStepIs(b, batch, TickLevel(b, batch, side, tick, now), [DepthUpdate(side, tick, Volume(rest))]);
    }
  }

  lemma {:induction false} TickExplained(b: BookValue, batch: MatchBatch, tick: nat, now: int)
    requires SidesOk(b) && 1 <= tick <= 100
    ensures DepthStep(b, batch, TickFrom(b, batch, tick, now))
    decreases 100 - tick
  {
    if tick > 99 {
      DepthStepIs(b, batch, Step(b, batch), []);
    } else {
      TickLevelExplained(b, batch, Buy, tick, now);
      TickLevelKeepsSides(b, batch, Buy, tick, now);
      var s1 := TickLevel(b, batch, Buy, tick, now);
      TickLevelExplained(s1.book, s1.batch, Sell, tick, now);
      TickLevelKeepsSides(s1.book, s1.batch, Sell, tick, now);
      var s2 := TickLevel(s1.book, s1.batch, Sell, tick, now);
      TickExplained(s2.book, s2.batch, tick + 1, now);
      DepthStepTrans(b, batch, s1, s2);
      DepthStepTrans(b, batch, s2, TickFrom(s2.book, s2.batch, tick + 1, now));
    }
  }

  lemma ExecuteExplained(s: Step, cmd: Command)
    requires SidesOk(s.book) && CommandOk(cmd)
    ensures DepthStep(s.book, s.batch, Execute(s, cmd))
  {
    match cmd
    case PlaceOrder(now, o) => PlaceExplained(s.book, s.batch, o, now);
    case Tick(now) => TickExplained(s.book, s.batch, 1, now);
    case Halt(_) => DepthStepIs(s.book, s.batch, Execute(s, cmd), []);
  }

  // ----- Runs -----

  /** A market's history: its book, the batch being filled and every order placed so far. */
  datatype MarketState = MarketState(book: BookValue, batch: MatchBatch, placed: Placed)

  const NEW_MARKET := MarketState(NEW_BOOK, EMPTY, map[])

  /** A command, or the batch being handed over and a new one begun. */
  datatype Action = Do(cmd: Command) | Flush

  /** Commands come with fresh order ids and prices between one and ninety-nine hundredths. */
  predicate Allowed(m: MarketState, a: Action) {
    a.Do? && a.cmd.PlaceOrder? ==> a.cmd.order.id !in m.placed && ValidTick(a.cmd.order.tick)
  }

  function Act(m: MarketState, a: Action): MarketState
    requires SidesOk(m.book) && Allowed(m, a)
  {
    match a
    case Flush => m.(batch := EMPTY)
    case Do(cmd) =>
      var s := Execute(Step(m.book, m.batch), cmd);
      MarketState(s.book, s.batch, if cmd.PlaceOrder? then m.placed[cmd.order.id := cmd.order] else m.placed)
  }

  predicate MarketInv(m: MarketState) {
    BookInv(m.book, m.placed) && BatchInv(m.batch, m.placed)
  }

  lemma ActKeepsInv(m: MarketState, a: Action)
    requires MarketInv(m) && Allowed(m, a)
    ensures MarketInv(Act(m, a))
  {
    if a.Do? {
      match a.cmd
      case PlaceOrder(now, o) =>
        PlaceKeepsBookInv(m.book, m.batch, o, now, m.placed);
        PlaceKeepsBatchInv(m.book, m.batch, o, now, m.placed);
      case Tick(now) =>
        TickKeepsBookInv(m.book, m.batch, 1, now, m.placed);
        TickKeepsBatchInv(m.book, m.batch, 1, now, m.placed);
      case Halt(_) =>
    }
  }

  /** `m` is reached from `from` by allowed actions. */
  ghost predicate Reaches(from: MarketState, actions: seq<Action>, m: MarketState)
    decreases |actions|
  {
    if actions == [] then m == from
    else SidesOk(from.book) && Allowed(from, actions[0]) && Reaches(Act(from, actions[0]), actions[1..], m)
  }

  /** Whatever commands arrive, the book stays uncrossed and the batch well formed. */
  lemma {:induction false} RunsKeepInv(from: MarketState, actions: seq<Action>, m: MarketState)
    requires MarketInv(from) && Reaches(from, actions, m)
    ensures MarketInv(m)
    decreases |actions|
  {
    if actions != [] {
      ActKeepsInv(from, actions[0]);
      RunsKeepInv(Act(from, actions[0]), actions[1..], m);
    }
  }

  lemma ReachableInv(actions: seq<Action>, m: MarketState)
    requires Reaches(NEW_MARKET, actions, m)
    ensures MarketInv(m)
  {
    assert SidesOk(NEW_BOOK) && Uncrossed(NEW_BOOK) && AllKnown(NEW_BOOK.bids, map[]) && AllKnown(NEW_BOOK.asks, map[]);
    RunsKeepInv(NEW_MARKET, actions, m);
  }

  lemma {:induction false} RunsKeepTicks(from: MarketState, actions: seq<Action>, m: MarketState)
    requires MarketInv(from) && Reaches(from, actions, m) && TicksOk(from.batch.depth)
    ensures TicksOk(m.batch.depth)
    decreases |actions|
  {
    if actions != [] {
      var (a, next) := (actions[0], Act(from, actions[0]));
      ActKeepsInv(from, a);
      if a.Do? {
        var s := Execute(Step(from.book, from.batch), a.cmd);
        ExecuteExplained(Step(from.book, from.batch), a.cmd);
        assert s.batch.depth == from.batch.depth + s.batch.depth[|from.batch.depth|..];
      }
      hide MarketInv, Execute, Explains;
      RunsKeepTicks(next, actions[1..], m);
    }
  }

  /** Every depth change of a reachable batch is at a price that exists. */
  lemma DepthTicksExist(actions: seq<Action>, m: MarketState)
    requires Reaches(NEW_MARKET, actions, m)
    ensures TicksOk(m.batch.depth)
  {
    ReachableInv([], NEW_MARKET);
    RunsKeepTicks(NEW_MARKET, actions, m);
  }

  /**
   * Every fill of every reachable batch is between two different orders of different owners, at a price that
   * gives neither of them worse than what they signed.
   */
  lemma FillsAreProtected(actions: seq<Action>, m: MarketState, k: nat)
    requires Reaches(NEW_MARKET, actions, m) && k < |m.batch.fills| && |m.batch.orders| <= INDEX_RANGE
    requires forall id :: id in m.placed ==> Normalized(m.placed[id])
    ensures var f := m.batch.fills[k];
      && f.amount > 0 && f.makerIndex < |m.batch.orders| && f.takerIndex < |m.batch.orders|
      && var maker, taker := m.batch.orders[f.makerIndex].execution, m.batch.orders[f.takerIndex].execution;
         && maker.wallet != taker.wallet && maker.id != taker.id && f.makerIndex != f.takerIndex
         && (f.matchType.Transfer? <==> maker.outcome == taker.outcome)
         && ValidTick(f.price)
         && forall o :: o in {maker, taker} ==>
              if o.action == Buy then ActualUnits(o, f.amount, f.price) <= Cost(f.amount, o.originalTick)
              else Cost(f.amount, o.originalTick) <= ActualUnits(o, f.amount, f.price)
  {
    ReachableInv(actions, m);
    var f := m.batch.fills[k];
    assert SoundFill(f, k, m.batch.orders);
    var maker, taker := m.batch.orders[f.makerIndex].execution, m.batch.orders[f.takerIndex].execution;
    assert Known(m.placed, maker) && Known(m.placed, taker);
    PriceProtection(maker, taker, f.amount);
    ClassificationSound(maker, taker);
  }

  /**
   * However a run is cut into batches, a copy of the depth that applies each batch as it is handed over shows
   * the market's own totals whenever the open batch is empty, and is the open batch behind otherwise.
   */
  ghost function Shown(from: MarketState, actions: seq<Action>, shown: Depth.Book): (d: Depth.Book)
    requires MarketInv(from) && Depth.Shaped(shown)
    ensures Depth.Shaped(d)
    decreases |actions|
  {
    if actions == [] || !Allowed(from, actions[0]) then shown
    else
      ActKeepsInv(from, actions[0]);
      Shown(Act(from, actions[0]), actions[1..],
            if actions[0].Flush? then Depth.Apply(shown, from.batch.depth) else shown)
  }

  lemma {:induction false} DepthFollows(from: MarketState, actions: seq<Action>, m: MarketState, shown: Depth.Book)
    requires MarketInv(from) && Reaches(from, actions, m) && Depth.Shaped(shown)
    requires Depth.Apply(shown, from.batch.depth) == DepthOf(from.book)
    ensures Depth.Apply(Shown(from, actions, shown), m.batch.depth) == DepthOf(m.book)
    decreases |actions|
  {
    if actions != [] {
      var a := actions[0];
      var next := Act(from, a);
      ActKeepsInv(from, a);
      var d := if a.Flush? then Depth.Apply(shown, from.batch.depth) else shown;
      ActDepth(from, a, shown);
      hide MarketInv, Act, DepthOf;
      DepthFollows(next, actions[1..], m, d);
    }
  }

  /** One action keeps the copy and the open batch together showing the book. */
  lemma ActDepth(from: MarketState, a: Action, shown: Depth.Book)
    requires MarketInv(from) && Allowed(from, a) && Depth.Shaped(shown)
    requires Depth.Apply(shown, from.batch.depth) == DepthOf(from.book)
    ensures var d := if a.Flush? then Depth.Apply(shown, from.batch.depth) else shown;
      Depth.Apply(d, Act(from, a).batch.depth) == DepthOf(Act(from, a).book)
  {
    hide DepthOf, Depth.Apply;
    if a.Do? {
      var s := Execute(Step(from.book, from.batch), a.cmd);
      ExecuteExplained(Step(from.book, from.batch), a.cmd);
      assert Act(from, a).batch == s.batch && Act(from, a).book == s.book;
      hide MarketInv, Execute, Act;
      StepDepth(from.book, from.batch, s, shown);
    } else {
      Depth.ApplyNone(Depth.Apply(shown, from.batch.depth));
    }
  }

  lemma StepDepth(b: BookValue, batch: MatchBatch, s: Step, shown: Depth.Book)
    requires DepthStep(b, batch, s) && Depth.Shaped(shown) && Depth.Apply(shown, batch.depth) == DepthOf(b)
    ensures Depth.Apply(shown, s.batch.depth) == DepthOf(s.book)
  {
    hide DepthOf, Depth.Apply;
    var added := s.batch.depth[|batch.depth|..];
    Depth.ApplyConcat(shown, batch.depth, added);
    assert s.batch.depth == batch.depth + added;
  }
}
