/** The order book as a value: a queue per tick on each side, and what each command does to it. */
module BookModel {
  import opened Types
  import opened Rounding
  import opened Matching
  import opened Batch

  const LEVELS: nat := 100

  type Levels = s: seq<seq<Order>> | |s| == LEVELS witness seq(LEVELS, _ => [])

  datatype BookValue = BookValue(bids: Levels, asks: Levels, active: bool)

  const NEW_BOOK := BookValue(seq(LEVELS, _ => []), seq(LEVELS, _ => []), true)

  function Opposite(side: Side): Side {
    if side == Buy then Sell else Buy
  }

  function SideOf(b: BookValue, side: Side): Levels {
    if side == Buy then b.bids else b.asks
  }

  function WithSide(b: BookValue, side: Side, levels: Levels): BookValue {
    if side == Buy then b.(bids := levels) else b.(asks := levels)
  }

  function Volume(q: seq<Order>): nat {
    if q == [] then 0 else q[0].qty + Volume(q[1..])
  }

  predicate LevelOk(q: seq<Order>, side: Side, tick: nat) {
    forall i :: 0 <= i < |q| ==> Resting(q[i]) && q[i].tick == tick && q[i].side == side
  }

  predicate SideOk(levels: Levels, side: Side) {
    && levels[0] == []
    && forall p :: 1 <= p < LEVELS ==> LevelOk(levels[p], side, p)
  }

  // ----- Walking the levels from the best price -----

  /** The tick a taker meets at a rank: rank 1 is the lowest ask for a buyer, the highest bid for a seller. */
  function TickAt(takerSide: Side, rank: nat): nat
    requires 1 <= rank <= 99
  {
    if takerSide == Buy then rank else 100 - rank
  }

  predicate TickCrosses(tick: nat, taker: Order) {
    if taker.side == Buy then tick <= taker.tick else taker.tick <= tick
  }

  datatype WalkResult = WalkResult(levels: Levels, taker: Order, events: seq<MakerEvent>, depth: seq<DepthUpdate>) {
    function After(e: seq<MakerEvent>, d: seq<DepthUpdate>): WalkResult {
      this.(events := e + events, depth := d + depth)
    }
  }

  /** Sweep one level after another until the taker is done or the next price no longer crosses. */
  function Walk(levels: Levels, rank: nat, taker: Order, now: int): WalkResult
    requires SideOk(levels, Opposite(taker.side)) && 1 <= rank <= 100
    decreases 100 - rank
  {
    if IsFilled(taker) || rank > 99 || !TickCrosses(TickAt(taker.side, rank), taker) then
      WalkResult(levels, taker, [], [])
    else
      var tick := TickAt(taker.side, rank);
      if levels[tick] == [] then Walk(levels, rank + 1, taker, now)
      else
        var s := Sweep(levels[tick], taker, now);
        SweptLevelOk(levels, tick, taker, now);
        var rest := levels[tick := s.queue];
        var update := DepthUpdate(Opposite(taker.side), tick, Volume(s.queue));
        if s.queue == [] then Walk(rest, rank + 1, s.taker, now).After(s.events, [update])
        else WalkResult(rest, s.taker, s.events, [update])
  }

  lemma SweptQueueOk(q: seq<Order>, side: Side, tick: nat, taker: Order, now: int)
    requires LevelOk(q, side, tick) && ValidTick(tick)
    ensures RestingQueue(q) && LevelOk(Sweep(q, taker, now).queue, side, tick)
  {
    SweepKeepsIdentity(q, taker, now);
    SweepKeepsTail(q, taker, now);
    TailKeepsLevel(Sweep(q, taker, now).queue, q, side, tick);
  }

  lemma TailKeepsLevel(left: seq<Order>, q: seq<Order>, side: Side, tick: nat)
    requires TailOf(left, q) && LevelOk(q, side, tick) && RestingQueue(left)
    ensures LevelOk(left, side, tick)
  {
    forall i | 0 <= i < |left|
      ensures left[i].tick == tick && left[i].side == side
    {
      assert SameOrder(left[i], q[|q| - |left| + i]);
    }
  }

  lemma ReplacedLevelOk(levels: Levels, side: Side, tick: nat, q: seq<Order>)
    requires SideOk(levels, side) && ValidTick(tick) && LevelOk(q, side, tick)
    ensures SideOk(levels[tick := q], side)
  {
    var replaced := levels[tick := q];
    forall p | 1 <= p < LEVELS
      ensures LevelOk(replaced[p], side, p)
    {
      assert LevelOk(levels[p], side, p);
    }
  }

  lemma SweptLevelOk(levels: Levels, tick: nat, taker: Order, now: int)
    requires SideOk(levels, Opposite(taker.side)) && 1 <= tick <= 99
    ensures RestingQueue(levels[tick])
    ensures var s := Sweep(levels[tick], taker, now);
      && LevelOk(s.queue, Opposite(taker.side), tick)
      && SideOk(levels[tick := s.queue], Opposite(taker.side))
      && SameOrder(taker, s.taker)
  {
    assert LevelOk(levels[tick], Opposite(taker.side), tick);
    SweptQueueOk(levels[tick], Opposite(taker.side), tick, taker, now);
    SweepKeepsIdentity(levels[tick], taker, now);
    ReplacedLevelOk(levels, Opposite(taker.side), tick, Sweep(levels[tick], taker, now).queue);
  }

  lemma {:induction false} WalkKeepsSide(levels: Levels, rank: nat, taker: Order, now: int)
    requires SideOk(levels, Opposite(taker.side)) && 1 <= rank <= 100
    ensures var w := Walk(levels, rank, taker, now);
      && SideOk(w.levels, Opposite(taker.side))
      && SameOrder(taker, w.taker)
      && (forall r :: 1 <= r < rank && r <= 99 ==> w.levels[TickAt(taker.side, r)] == levels[TickAt(taker.side, r)])
    decreases 100 - rank
  {
    if !(IsFilled(taker) || rank > 99 || !TickCrosses(TickAt(taker.side, rank), taker)) {
      var tick := TickAt(taker.side, rank);
      if levels[tick] == [] {
        WalkKeepsSide(levels, rank + 1, taker, now);
      } else {
        SweptLevelOk(levels, tick, taker, now);
        var s := Sweep(levels[tick], taker, now);
        if s.queue == [] {
          WalkKeepsSide(levels[tick := s.queue], rank + 1, s.taker, now);
        }
      }
    }
  }

  // ----- The walk is one sweep over the whole side -----

  /** A side as one queue in the order a taker on the other side meets it, from a rank on. */
  function Flat(levels: Levels, takerSide: Side, rank: nat): seq<Order>
    requires 1 <= rank <= 100
    decreases 100 - rank
  {
    if rank > 99 then [] else levels[TickAt(takerSide, rank)] + Flat(levels, takerSide, rank + 1)
  }

  predicate NoBetterThan(o: Order, takerSide: Side, rank: nat)
    requires 1 <= rank <= 100
  {
    if takerSide == Buy then rank <= o.tick else o.tick <= 100 - rank
  }

  lemma {:induction false} FlatInOrder(levels: Levels, takerSide: Side, rank: nat)
    requires SideOk(levels, Opposite(takerSide)) && 1 <= rank <= 100
    ensures var q := Flat(levels, takerSide, rank);
      && RestingQueue(q)
      && BestFirst(q, takerSide)
      && (forall i :: 0 <= i < |q| ==> NoBetterThan(q[i], takerSide, rank) && q[i].side == Opposite(takerSide))
    decreases 100 - rank
  {
    if rank <= 99 {
      var tick := TickAt(takerSide, rank);
      assert LevelOk(levels[tick], Opposite(takerSide), tick);
      FlatInOrder(levels, takerSide, rank + 1);
      var rest := Flat(levels, takerSide, rank + 1);
      assert forall i :: 0 <= i < |rest| ==> NoBetterThan(rest[i], takerSide, rank + 1);
    }
  }

  lemma {:induction false} FlatIgnoresBetter(a: Levels, b: Levels, takerSide: Side, rank: nat)
    requires 1 <= rank <= 100
    requires forall r :: rank <= r <= 99 ==> a[TickAt(takerSide, r)] == b[TickAt(takerSide, r)]
    ensures Flat(a, takerSide, rank) == Flat(b, takerSide, rank)
    decreases 100 - rank
  {
    if rank <= 99 { FlatIgnoresBetter(a, b, takerSide, rank + 1); }
  }

  /** A sweep of one queue carried on into the queue behind it. */
  function Continue(s: SweepResult, r: seq<Order>, now: int): SweepResult
    requires RestingQueue(r)
  {
    if s.queue == [] then
      var t := Sweep(r, s.taker, now);
      t.(events := s.events + t.events)
    else
      SweepResult(s.queue + r, s.taker, s.events)
  }

  lemma BeforeContinue(e: MakerEvent, s: SweepResult, r: seq<Order>, now: int)
    requires RestingQueue(r)
    ensures Continue(s.Before(e), r, now) == Continue(s, r, now).Before(e)
  {
    if s.queue == [] {
      var t := Sweep(r, s.taker, now);
      assert ([e] + s.events) + t.events == [e] + (s.events + t.events);
    }
  }

  lemma {:induction false} SweepConcat(q: seq<Order>, r: seq<Order>, taker: Order, now: int)
    requires RestingQueue(q) && RestingQueue(r) && RestingQueue(q + r)
    requires forall i :: 0 <= i < |q| ==> Crosses(q[i], taker)
    ensures Sweep(q + r, taker, now) == Continue(Sweep(q, taker, now), r, now)
  {
    if q == [] {
      assert q + r == r;
      assert [] + Sweep(r, taker, now).events == Sweep(r, taker, now).events;
    } else if !IsFilled(taker) {
      var m, rest := q[0], q[1..];
      assert (q + r)[1..] == rest + r && (q + r)[0] == m;
      if Eligible(m, taker, now) {
        FillLotsInRange(taker, m);
        var lots, after := FillLots(taker, m), AfterFill(taker, m);
        hide FillLots, AfterFill;
        if lots == m.qty {
          SweepConcat(rest, r, after, now);
          BeforeContinue(Traded(m, lots, after), Sweep(rest, after, now), r, now);
        } else {
          var cut := m.(qty := m.qty - lots);
          assert ([cut] + rest) + r == [cut] + (rest + r);
        }
      } else {
        SweepConcat(rest, r, taker, now);
        BeforeContinue(if IsExpired(m, now) then Expired(m) else SelfTrade(m), Sweep(rest, taker, now), r, now);
      }
    }
  }

  /** A taker that cannot or need not trade at a rank finds nothing behind it either. */
  lemma SweepStops(levels: Levels, rank: nat, taker: Order, now: int)
    requires SideOk(levels, Opposite(taker.side)) && 1 <= rank <= 100
    requires IsFilled(taker) || rank > 99 || !TickCrosses(TickAt(taker.side, rank), taker)
    ensures RestingQueue(Flat(levels, taker.side, rank))
    ensures Sweep(Flat(levels, taker.side, rank), taker, now) == SweepResult(Flat(levels, taker.side, rank), taker, [])
  {
    FlatInOrder(levels, taker.side, rank);
    var q := Flat(levels, taker.side, rank);
    assert q != [] ==> NoBetterThan(q[0], taker.side, rank);
  }

  lemma FlatSplits(levels: Levels, takerSide: Side, rank: nat, q: seq<Order>)
    requires 1 <= rank <= 99
    ensures Flat(levels[TickAt(takerSide, rank) := q], takerSide, rank) == q + Flat(levels, takerSide, rank + 1)
  {
    FlatIgnoresBetter(levels[TickAt(takerSide, rank) := q], levels, takerSide, rank + 1);
  }

  lemma SweepCrossesLevel(levels: Levels, rank: nat, taker: Order, now: int)
    requires SideOk(levels, Opposite(taker.side)) && 1 <= rank <= 99
    requires TickCrosses(TickAt(taker.side, rank), taker)
    ensures var tick := TickAt(taker.side, rank);
      var behind := Flat(levels, taker.side, rank + 1);
      && RestingQueue(levels[tick]) && RestingQueue(behind)
      && RestingQueue(Flat(levels, taker.side, rank))
      && Sweep(Flat(levels, taker.side, rank), taker, now) == Continue(Sweep(levels[tick], taker, now), behind, now)
  {
    var tick := TickAt(taker.side, rank);
    assert LevelOk(levels[tick], Opposite(taker.side), tick);
    FlatInOrder(levels, taker.side, rank);
    FlatInOrder(levels, taker.side, rank + 1);
    SweepConcat(levels[tick], Flat(levels, taker.side, rank + 1), taker, now);
  }

  lemma WalkClearsLevel(levels: Levels, rank: nat, taker: Order, now: int, s: SweepResult, w: WalkResult)
    requires SideOk(levels, Opposite(taker.side)) && 1 <= rank <= 99
    requires SameOrder(taker, s.taker) && s.queue == []
    requires RestingQueue(Flat(levels, taker.side, rank + 1))
    requires Sweep(Flat(levels, taker.side, rank + 1), s.taker, now)
          == SweepResult(Flat(w.levels, taker.side, rank + 1), w.taker, w.events)
    requires w.levels[TickAt(taker.side, rank)] == []
    ensures Continue(s, Flat(levels, taker.side, rank + 1), now)
         == SweepResult(Flat(w.levels, taker.side, rank), w.taker, s.events + w.events)
  {
    assert [] + Flat(w.levels, taker.side, rank + 1) == Flat(w.levels, taker.side, rank + 1);
  }

  /**
   * The nested walk over levels is one price-time sweep of the whole side: same queue left, same taker left,
   * same events in the same order.
   */
  lemma {:induction false} WalkIsSweep(levels: Levels, rank: nat, taker: Order, now: int)
    requires SideOk(levels, Opposite(taker.side)) && 1 <= rank <= 100
    ensures RestingQueue(Flat(levels, taker.side, rank))
    ensures var w := Walk(levels, rank, taker, now);
      Sweep(Flat(levels, taker.side, rank), taker, now)
        == SweepResult(Flat(w.levels, taker.side, rank), w.taker, w.events)
    decreases 100 - rank
  {
    if IsFilled(taker) || rank > 99 || !TickCrosses(TickAt(taker.side, rank), taker) {
      SweepStops(levels, rank, taker, now);
    } else {
      var tick := TickAt(taker.side, rank);
      SweepCrossesLevel(levels, rank, taker, now);
      var s := Sweep(levels[tick], taker, now);
      var rest := levels[tick := s.queue];
      SweptLevelOk(levels, tick, taker, now);
      FlatIgnoresBetter(rest, levels, taker.side, rank + 1);
      if s.queue == [] {
        assert levels[tick] == [] ==> rest == levels && s.taker == taker && s.events == [];
        WalkIsSweep(rest, rank + 1, s.taker, now);
        WalkKeepsSide(rest, rank + 1, s.taker, now);
        var w := Walk(rest, rank + 1, s.taker, now);
        WalkClearsLevel(levels, rank, taker, now, s, w);
        assert Walk(levels, rank, taker, now).events == s.events + w.events;
      } else {
        FlatSplits(levels, taker.side, rank, s.queue);
      }
    }
  }

  // ----- Resting -----

  predicate StrictlyBetter(a: Order, b: Order, takerSide: Side) {
    if takerSide == Buy then a.tick < b.tick else b.tick < a.tick
  }

  /** The priority a new order gets: behind everything at its own price or better, ahead of everything worse. */
  function Insert(q: seq<Order>, o: Order, takerSide: Side): seq<Order> {
    if q == [] then [o]
    else if StrictlyBetter(o, q[0], takerSide) then [o] + q
    else [q[0]] + Insert(q[1..], o, takerSide)
  }

  lemma {:induction false} InsertBehind(a: seq<Order>, b: seq<Order>, o: Order, takerSide: Side)
    requires forall i :: 0 <= i < |a| ==> !StrictlyBetter(o, a[i], takerSide)
    ensures Insert(a + b, o, takerSide) == a + Insert(b, o, takerSide)
  {
    if a == [] {
      assert a + b == b && a + Insert(b, o, takerSide) == Insert(b, o, takerSide);
    } else {
      assert (a + b)[1..] == a[1..] + b;
      InsertBehind(a[1..], b, o, takerSide);
      assert [a[0]] + (a[1..] + Insert(b, o, takerSide)) == a + Insert(b, o, takerSide);
    }
  }

  lemma AppendHere(levels: Levels, takerSide: Side, rank: nat, o: Order)
    requires SideOk(levels, Opposite(takerSide)) && 1 <= rank <= 99
    requires o.tick == TickAt(takerSide, rank)
    ensures Flat(levels[o.tick := levels[o.tick] + [o]], takerSide, rank)
         == levels[o.tick] + Insert(Flat(levels, takerSide, rank + 1), o, takerSide)
  {
    var behind := Flat(levels, takerSide, rank + 1);
    FlatInOrder(levels, takerSide, rank + 1);
    FlatSplits(levels, takerSide, rank, levels[o.tick] + [o]);
    assert behind != [] ==> NoBetterThan(behind[0], takerSide, rank + 1);
    assert Insert(behind, o, takerSide) == [o] + behind;
    assert (levels[o.tick] + [o]) + behind == levels[o.tick] + ([o] + behind);
  }

  /** Joining the tail of its level is price-time priority on the whole side. */
  lemma {:induction false} AppendIsInsert(levels: Levels, takerSide: Side, rank: nat, o: Order)
    requires SideOk(levels, Opposite(takerSide)) && 1 <= rank <= 100
    requires ValidTick(o.tick) && NoBetterThan(o, takerSide, rank)
    ensures Flat(levels[o.tick := levels[o.tick] + [o]], takerSide, rank)
         == Insert(Flat(levels, takerSide, rank), o, takerSide)
    decreases 100 - rank
  {
    var tick := TickAt(takerSide, rank);
    assert LevelOk(levels[tick], Opposite(takerSide), tick);
    InsertBehind(levels[tick], Flat(levels, takerSide, rank + 1), o, takerSide);
    if o.tick == tick {
      AppendHere(levels, takerSide, rank, o);
    } else {
      AppendIsInsert(levels, takerSide, rank + 1, o);
    }
  }

  // ----- Commands -----

  datatype Step = Step(book: BookValue, batch: MatchBatch)

  /** The taker's part of placing an order: what it trades against the other side. */
  function Matched(b: BookValue, o: Order, now: int): WalkResult
    requires SideOk(SideOf(b, Opposite(o.side)), Opposite(o.side))
  {
    Walk(SideOf(b, Opposite(o.side)), 1, o, now)
  }

  /** What becomes of the taker: done, refused as a market order, or resting behind its own price level. */
  function Settle(b: BookValue, batch: MatchBatch, taker: Order): Step
    requires taker.tick < LEVELS
  {
    if IsFilled(taker) then Step(b, AddUpdate(batch, taker, Filled, 0, 0, 0, NoReason))
    else if taker.otype == Market then
      Step(b, AddUpdate(batch, taker, Canceled, taker.qty, taker.spend, taker.spend, MarketUnfilled))
    else
      var levels := SideOf(b, taker.side);
      var level := levels[taker.tick] + [taker];
      var noted := AddUpdate(batch, taker, New, taker.qty, taker.spend, 0, NoReason);
      Step(WithSide(b, taker.side, levels[taker.tick := level]),
           AddDepth(noted, taker.side, taker.tick, Volume(level)))
  }

  predicate SidesOk(b: BookValue) {
    SideOk(b.bids, Buy) && SideOk(b.asks, Sell)
  }

  function Place(b: BookValue, batch: MatchBatch, o: Order, now: int): Step
    requires SidesOk(b) && ValidTick(o.tick)
  {
    if !b.active then Step(b, AddUpdate(batch, o, Rejected, o.qty, o.spend, 0, MarketHalted))
    else
      var w := Matched(b, o, now);
      WalkEventsValid(SideOf(b, Opposite(o.side)), 1, o, now);
      WalkKeepsSide(SideOf(b, Opposite(o.side)), 1, o, now);
      Settle(WithSide(b, Opposite(o.side), w.levels), Recorded(batch, w.events, w.depth), w.taker)
  }

  lemma {:induction false} WalkEventsValid(levels: Levels, rank: nat, taker: Order, now: int)
    requires SideOk(levels, Opposite(taker.side)) && 1 <= rank <= 100
    ensures TicksValid(Walk(levels, rank, taker, now).events)
  {
    WalkIsSweep(levels, rank, taker, now);
    var q := Flat(levels, taker.side, rank);
    SweepTakesPrefix(q, taker, now);
    var s := Sweep(q, taker, now);
    forall i | 0 <= i < |s.events|
      ensures 1 <= s.events[i].maker.tick <= 99
    {
      assert MeetsRule(s.events[i], q[i], taker, now) && Resting(q[i]);
    }
  }

  function DropExpired(q: seq<Order>, now: int): seq<Order> {
    if q != [] && IsExpired(q[0], now) then DropExpired(q[1..], now) else q
  }

  function ExpiredPrefix(q: seq<Order>, now: int): seq<MakerEvent> {
    if q != [] && IsExpired(q[0], now) then [Expired(q[0])] + ExpiredPrefix(q[1..], now) else []
  }

  /** One level under a tick: the expired orders at its head leave, up to the first that is still good. */
  function TickLevel(b: BookValue, batch: MatchBatch, side: Side, tick: nat, now: int): Step
    requires SidesOk(b) && ValidTick(tick)
  {
    var levels := SideOf(b, side);
    var q := levels[tick];
    if q == [] || !IsExpired(q[0], now) then Step(b, batch)
    else
      var rest := DropExpired(q, now);
      assert LevelOk(q, side, tick);
      ExpiredPrefixValid(q, side, tick, now);
      Step(WithSide(b, side, levels[tick := rest]),
           Recorded(batch, ExpiredPrefix(q, now), [DepthUpdate(side, tick, Volume(rest))]))
  }

  /** The expired head is a prefix, and what is left is the rest of the queue, with a good order in front. */
  lemma {:induction false} ExpiredPrefixSplits(q: seq<Order>, now: int)
    ensures var k := |ExpiredPrefix(q, now)|; k <= |q| && DropExpired(q, now) == q[k..]
    ensures forall i :: 0 <= i < |ExpiredPrefix(q, now)| ==> ExpiredPrefix(q, now)[i] == Expired(q[i]) && IsExpired(q[i], now)
    ensures DropExpired(q, now) != [] ==> !IsExpired(DropExpired(q, now)[0], now)
  {
    if q != [] && IsExpired(q[0], now) {
      ExpiredPrefixSplits(q[1..], now);
    }
  }

  lemma ExpiredPrefixValid(q: seq<Order>, side: Side, tick: nat, now: int)
    requires LevelOk(q, side, tick)
    ensures TicksValid(ExpiredPrefix(q, now))
    ensures LevelOk(DropExpired(q, now), side, tick)
    ensures |DropExpired(q, now)| <= |q| && DropExpired(q, now) == q[|q| - |DropExpired(q, now)|..]
    ensures |ExpiredPrefix(q, now)| == |q| - |DropExpired(q, now)|
    ensures forall i :: 0 <= i < |ExpiredPrefix(q, now)| ==> ExpiredPrefix(q, now)[i] == Expired(q[i]) && IsExpired(q[i], now)
    ensures DropExpired(q, now) != [] ==> !IsExpired(DropExpired(q, now)[0], now)
  {
    ExpiredPrefixSplits(q, now);
    hide ExpiredPrefix, DropExpired;
  }

  function TickFrom(b: BookValue, batch: MatchBatch, tick: nat, now: int): Step
    requires SidesOk(b) && 1 <= tick <= 100
    decreases 100 - tick
  {
    if tick > 99 then Step(b, batch)
    else
      TickLevelKeepsSides(b, batch, Buy, tick, now);
      var s1 := TickLevel(b, batch, Buy, tick, now);
      TickLevelKeepsSides(s1.book, s1.batch, Sell, tick, now);
      var s2 := TickLevel(s1.book, s1.batch, Sell, tick, now);
      TickFrom(s2.book, s2.batch, tick + 1, now)
  }

  lemma TickLevelKeepsSides(b: BookValue, batch: MatchBatch, side: Side, tick: nat, now: int)
    requires SidesOk(b) && ValidTick(tick)
    ensures SidesOk(TickLevel(b, batch, side, tick, now).book)
  {
    assert LevelOk(SideOf(b, side)[tick], side, tick);
    ExpiredPrefixValid(SideOf(b, side)[tick], side, tick, now);
    ReplacedLevelOk(SideOf(b, side), side, tick, DropExpired(SideOf(b, side)[tick], now));
  }

  lemma PlaceKeepsSides(b: BookValue, batch: MatchBatch, o: Order, now: int)
    requires SidesOk(b) && ValidTick(o.tick)
    ensures SidesOk(Place(b, batch, o, now).book)
  {
    if b.active {
      var w := Matched(b, o, now);
      WalkKeepsSide(SideOf(b, Opposite(o.side)), 1, o, now);
      var levels := SideOf(b, o.side);
      assert LevelOk(levels[o.tick], o.side, o.tick);
      if !IsFilled(w.taker) && w.taker.otype == Limit {
        ReplacedLevelOk(levels, o.side, o.tick, levels[o.tick] + [w.taker]);
      }
    }
  }

  datatype Command =
    | PlaceOrder(timestamp: int, order: Order)
    | Tick(timestamp: int)
    | Halt(timestamp: int)

  predicate CommandOk(cmd: Command) {
    cmd.PlaceOrder? ==> ValidTick(cmd.order.tick)
  }

  function Execute(s: Step, cmd: Command): Step
    requires SidesOk(s.book) && CommandOk(cmd)
  {
    match cmd
    case PlaceOrder(now, o) => Place(s.book, s.batch, o, now)
    case Tick(now) => TickFrom(s.book, s.batch, 1, now)
    case Halt(_) => Step(s.book.(active := false), s.batch)
  }
}
