/** Loop invariants of the matching loops, as values: what is done so far, and what is still to come. */
module BookLoops {
  import opened Types
  import opened Matching
  import opened Batch
  import opened BookModel

  /** A level, the taker and the batch while they meet. */
  datatype Scene = Scene(queue: seq<Order>, taker: Order, batch: MatchBatch)

  /** What is still to come from `s` completes what the whole sweep makes of `s0`. */
  ghost predicate Ahead(s0: Scene, s: Scene, now: int) {
    && RestingQueue(s0.queue) && RestingQueue(s.queue)
    && var r0, r := Sweep(s0.queue, s0.taker, now), Sweep(s.queue, s.taker, now);
       && r0.queue == r.queue && r0.taker == r.taker
       && TicksValid(r0.events) && TicksValid(r.events)
       && RecordAll(s0.batch, r0.events) == RecordAll(s.batch, r.events)
  }

  lemma SweepTicksValid(q: seq<Order>, t: Order, now: int)
    requires RestingQueue(q)
    ensures TicksValid(Sweep(q, t, now).events)
  {
    SweepTakesPrefix(q, t, now);
    var s := Sweep(q, t, now);
    forall i | 0 <= i < |s.events|
      ensures 1 <= s.events[i].maker.tick <= 99
    {
      assert MeetsRule(s.events[i], q[i], t, now) && Resting(q[i]);
    }
  }

  lemma AheadStart(s: Scene, now: int)
    requires RestingQueue(s.queue)
    ensures Ahead(s, s, now)
  {
    SweepTicksValid(s.queue, s.taker, now);
  }

  /** One turn of the inner loop on values. */
  function MeetOne(s: Scene, now: int): Scene
    requires s.queue != [] && s.queue[0].tick <= 100
  {
    var m := s.queue[0];
    if IsExpired(m, now) then
      Scene(s.queue[1..], s.taker, RecordRemoval(s.batch, m, Lapsed, OrderExpired))
    else if m.wallet == s.taker.wallet then
      Scene(s.queue[1..], s.taker, RecordRemoval(s.batch, m, Canceled, SelfTradePrevention))
    else Trade(s)
  }

  function Trade(s: Scene): Scene
    requires s.queue != [] && s.queue[0].tick <= 100
  {
    var m, lots, after := s.queue[0], FillLots(s.taker, s.queue[0]), AfterFill(s.taker, s.queue[0]);
    var cut := m.(qty := if lots <= m.qty then m.qty - lots else 0);
    var b := AddFill(s.batch, cut, after, m.tick, lots);
    if cut.qty == 0 then Scene(s.queue[1..], after, RecordRemoval(b, cut, Filled, NoReason))
    else Scene(s.queue[0 := cut], after, AddUpdate(b, cut, PartiallyFilled, cut.qty, cut.spend, 0, NoReason))
  }

  lemma AheadTrade(s0: Scene, s: Scene, now: int)
    requires Ahead(s0, s, now)
    requires !IsFilled(s.taker) && s.queue != [] && Eligible(s.queue[0], s.taker, now)
    ensures Ahead(s0, Trade(s), now) && SameOrder(s.taker, Trade(s).taker)
  {
    var m, rest := s.queue[0], s.queue[1..];
    FillLotsInRange(s.taker, m);
    var r := Sweep(s.queue, s.taker, now);
    var lots, after := FillLots(s.taker, m), AfterFill(s.taker, m);
    var cut := m.(qty := m.qty - lots);
    if lots == m.qty {
      assert r.events[1..] == Sweep(rest, after, now).events;
    } else {
      assert s.queue[0 := cut] == [cut] + rest;
      assert r.events[1..] == [];
      assert Resting(cut);
    }
  }

  lemma AheadEnd(s0: Scene, s: Scene, now: int)
    requires Ahead(s0, s, now) && (IsFilled(s.taker) || s.queue == [])
    ensures var r := Sweep(s0.queue, s0.taker, now);
      && TicksValid(r.events)
      && s == Scene(r.queue, r.taker, RecordAll(s0.batch, r.events))
  {
  }

  lemma AheadStep(s0: Scene, s: Scene, now: int)
    requires Ahead(s0, s, now)
    requires !IsFilled(s.taker) && s.queue != [] && Crosses(s.queue[0], s.taker)
    ensures Ahead(s0, MeetOne(s, now), now) && SameOrder(s.taker, MeetOne(s, now).taker)
  {
    if Eligible(s.queue[0], s.taker, now) {
      AheadTrade(s0, s, now);
    } else {
      var r := Sweep(s.queue, s.taker, now);
      assert r.events[1..] == Sweep(s.queue[1..], s.taker, now).events;
    }
  }

  // ----- The outer loop -----

  /** A side, the taker and the batch while the taker walks the levels. */
  datatype WalkScene = WalkScene(levels: Levels, taker: Order, batch: MatchBatch)

  /** What is still to come from rank `rank` of `c` completes what the whole walk makes of `c0`. */
  ghost predicate WalkAhead(c0: WalkScene, c: WalkScene, rank: nat, now: int) {
    && 1 <= rank <= 100 && SameOrder(c0.taker, c.taker)
    && SideOk(c0.levels, Opposite(c0.taker.side)) && SideOk(c.levels, Opposite(c.taker.side))
    && var w0, w := Walk(c0.levels, 1, c0.taker, now), Walk(c.levels, rank, c.taker, now);
       && w0.levels == w.levels && w0.taker == w.taker
       && TicksValid(w0.events) && TicksValid(w.events)
       && Recorded(c0.batch, w0.events, w0.depth) == Recorded(c.batch, w.events, w.depth)
  }

  predicate EmptyRanks(levels: Levels, takerSide: Side, low: nat, high: nat)
    requires 1 <= low && high <= 100
  {
    forall r {:trigger TickAt(takerSide, r)} :: low <= r < high ==> levels[TickAt(takerSide, r)] == []
  }

  /** Starting the walk at any rank with nothing better in front of it changes nothing. */
  lemma {:induction false} SkipEmpty(levels: Levels, low: nat, high: nat, taker: Order, now: int)
    requires SideOk(levels, Opposite(taker.side)) && 1 <= low <= high <= 100
    requires EmptyRanks(levels, taker.side, low, high)
    ensures Walk(levels, low, taker, now) == Walk(levels, high, taker, now)
    decreases high - low
  {
    if low < high {
      assert levels[TickAt(taker.side, low)] == [];
      SkipEmpty(levels, low + 1, high, taker, now);
    }
  }

  lemma WalkStart(c: WalkScene, rank: nat, now: int)
    requires SideOk(c.levels, Opposite(c.taker.side)) && 1 <= rank <= 100
    requires EmptyRanks(c.levels, c.taker.side, 1, rank)
    ensures WalkAhead(c, c, rank, now)
  {
    SkipEmpty(c.levels, 1, rank, c.taker, now);
    WalkEventsValid(c.levels, 1, c.taker, now);
  }

  lemma WalkSkips(c0: WalkScene, c: WalkScene, rank: nat, now: int)
    requires WalkAhead(c0, c, rank, now) && rank <= 99
    requires c.levels[TickAt(c.taker.side, rank)] == []
    ensures WalkAhead(c0, c, rank + 1, now)
  {
    SkipEmpty(c.levels, rank, rank + 1, c.taker, now);
  }

  function SweepTick(c: WalkScene, tick: nat, now: int): WalkScene
    requires SideOk(c.levels, Opposite(c.taker.side)) && ValidTick(tick)
  {
    SweptLevelOk(c.levels, tick, c.taker, now);
    SweepTicksValid(c.levels[tick], c.taker, now);
    var s := Sweep(c.levels[tick], c.taker, now);
    WalkScene(c.levels[tick := s.queue], s.taker,
              Recorded(c.batch, s.events, [DepthUpdate(Opposite(c.taker.side), tick, Volume(s.queue))]))
  }

  /** After the taker has met a level, either the level is empty or the taker is done. */
  lemma WalkMeets(c0: WalkScene, c: WalkScene, rank: nat, now: int)
    requires WalkAhead(c0, c, rank, now) && rank <= 99 && !IsFilled(c.taker)
    requires TickCrosses(TickAt(c.taker.side, rank), c.taker) && c.levels[TickAt(c.taker.side, rank)] != []
    ensures var d := SweepTick(c, TickAt(c.taker.side, rank), now);
      var left := d.levels[TickAt(c.taker.side, rank)];
      && SameOrder(c0.taker, d.taker)
      && (left != [] ==> IsFilled(d.taker))
      && WalkAhead(c0, d, if left == [] then rank + 1 else rank, now)
  {
    var tick := TickAt(c.taker.side, rank);
    var d := SweepTick(c, tick, now);
    SweptLevelOk(c.levels, tick, c.taker, now);
    SweepTakesPrefix(c.levels[tick], c.taker, now);
    var s := Sweep(c.levels[tick], c.taker, now);
    var e, u := s.events, [DepthUpdate(Opposite(c.taker.side), tick, Volume(s.queue))];
    SweepTicksValid(c.levels[tick], c.taker, now);
    assert s.queue != [] ==> LevelOk(s.queue, Opposite(c.taker.side), tick) && Crosses(s.queue[0], s.taker);
    if s.queue == [] {
      var w := Walk(d.levels, rank + 1, d.taker, now);
      WalkEventsValid(d.levels, rank + 1, d.taker, now);
      RecordedConcat(c.batch, e, u, w.events, w.depth);
    } else {
      RecordedConcat(c.batch, e, u, [], []);
      assert e + [] == e && u + [] == u;
    }
  }

  lemma WalkEnds(c0: WalkScene, c: WalkScene, rank: nat, now: int)
    requires WalkAhead(c0, c, rank, now)
    requires IsFilled(c.taker) || rank > 99 || !TickCrosses(TickAt(c.taker.side, rank), c.taker)
    ensures var w := Walk(c0.levels, 1, c0.taker, now);
      && TicksValid(w.events)
      && c == WalkScene(w.levels, w.taker, Recorded(c0.batch, w.events, w.depth))
  {
    assert c.batch.depth + [] == c.batch.depth;
  }

  // ----- The tick loop -----

  /** What is still to lapse from `q` completes what lapses from `q0`. */
  ghost predicate TickAhead(q0: seq<Order>, b0: MatchBatch, q: seq<Order>, b: MatchBatch, side: Side, tick: nat, now: int) {
    && ValidTick(tick) && LevelOk(q0, side, tick) && LevelOk(q, side, tick)
    && DropExpired(q0, now) == DropExpired(q, now)
    && TicksValid(ExpiredPrefix(q0, now)) && TicksValid(ExpiredPrefix(q, now))
    && RecordAll(b0, ExpiredPrefix(q0, now)) == RecordAll(b, ExpiredPrefix(q, now))
  }

  lemma TickStart(q: seq<Order>, b: MatchBatch, side: Side, tick: nat, now: int)
    requires ValidTick(tick) && LevelOk(q, side, tick)
    ensures TickAhead(q, b, q, b, side, tick, now)
  {
    ExpiredPrefixValid(q, side, tick, now);
  }

  lemma TickDrops(q0: seq<Order>, b0: MatchBatch, q: seq<Order>, b: MatchBatch, side: Side, tick: nat, now: int)
    requires TickAhead(q0, b0, q, b, side, tick, now) && q != [] && IsExpired(q[0], now)
    ensures TickAhead(q0, b0, q[1..], RecordRemoval(b, q[0], Lapsed, OrderExpired), side, tick, now)
  {
    assert LevelOk(q[1..], side, tick);
    ExpiredPrefixValid(q[1..], side, tick, now);
    assert ExpiredPrefix(q, now)[1..] == ExpiredPrefix(q[1..], now);
  }

  lemma TickEnds(q0: seq<Order>, b0: MatchBatch, q: seq<Order>, b: MatchBatch, side: Side, tick: nat, now: int)
    requires TickAhead(q0, b0, q, b, side, tick, now) && (q == [] || !IsExpired(q[0], now))
    ensures q == DropExpired(q0, now) && TicksValid(ExpiredPrefix(q0, now))
    ensures b == RecordAll(b0, ExpiredPrefix(q0, now))
  {
  }

  lemma NothingLapses(q: seq<Order>, b: MatchBatch, now: int)
    requires q == [] || !IsExpired(q[0], now)
    ensures DropExpired(q, now) == q && TicksValid(ExpiredPrefix(q, now))
    ensures RecordAll(b, ExpiredPrefix(q, now)) == b
  {
  }

  // ----- The cached best price -----

  /** `best` is the tick of the best-priced resting order a taker on the other side meets, or 0 when there is none. */
  predicate BestOk(levels: Levels, side: Side, best: nat) {
    best <= 99 && (levels[best] == [] <==> best == 0)
    && forall p :: 1 <= p <= 99 && levels[p] != [] ==> best != 0 && (if side == Sell then best <= p else p <= best)
  }
}
