/** Depth as the feed carries it: compressed updates, the publisher's arrays, and the rows a client keeps. */
module DepthFeed {
  import opened Types
  import opened Batch
  import Depth

  // ----- Last write wins -----

  /** What the updates finally say about one price of one side, if anything. */
  function LastFor(us: seq<DepthUpdate>, side: Side, tick: nat): Option<nat> {
    if us == [] then None
    else
      var u := us[|us| - 1];
      if u.side == side && u.tick == tick then Some(u.volume) else LastFor(us[..|us| - 1], side, tick)
  }

  lemma {:induction false} ApplyAt(d: Depth.Book, us: seq<DepthUpdate>, side: Side, tick: nat)
    requires Depth.Shaped(d) && tick < Depth.SLOTS
    ensures Depth.At(Depth.Apply(d, us), side, tick) ==
      (if LastFor(us, side, tick).Some? then LastFor(us, side, tick).value else Depth.At(d, side, tick))
  {
    if us != [] {
      var n := |us| - 1;
      ApplyAt(d, us[..n], side, tick);
      Depth.ApplyConcat(d, us[..n], [us[n]]);
      assert us[..n] + [us[n]] == us;
      assert Depth.Apply(Depth.Apply(d, us[..n]), [us[n]]) == Depth.ApplyOne(Depth.Apply(d, us[..n]), us[n]);
    }
  }

  ghost predicate SameLast(a: seq<DepthUpdate>, b: seq<DepthUpdate>) {
    forall side: Side, tick: nat :: LastFor(a, side, tick) == LastFor(b, side, tick)
  }

  /** Updates that finally say the same do the same to any depth. */
  lemma SameLastSameDepth(d: Depth.Book, a: seq<DepthUpdate>, b: seq<DepthUpdate>)
    requires Depth.Shaped(d) && SameLast(a, b)
    ensures Depth.Apply(d, a) == Depth.Apply(d, b)
  {
    var x, y := Depth.Apply(d, a), Depth.Apply(d, b);
    forall tick | 0 <= tick < Depth.SLOTS
      ensures x.bids[tick] == y.bids[tick] && x.asks[tick] == y.asks[tick]
    {
      forall side: Side
        ensures Depth.At(x, side, tick) == Depth.At(y, side, tick)
      {
        ApplyAt(d, a, side, tick);
        ApplyAt(d, b, side, tick);
      }
      assert Depth.At(x, Buy, tick) == Depth.At(y, Buy, tick) && Depth.At(x, Sell, tick) == Depth.At(y, Sell, tick);
    }
    assert x.bids == y.bids && x.asks == y.asks;
  }

  predicate OncePerPrice(us: seq<DepthUpdate>) {
    forall i, j :: 0 <= i < j < |us| ==> us[i].side != us[j].side || us[i].tick != us[j].tick
  }

  type PriceKey = (Side, nat)

  /** `latest` says what the updates finally say, and `order` lists its keys. */
  ghost predicate Collected(us: seq<DepthUpdate>, latest: map<PriceKey, DepthUpdate>, order: seq<PriceKey>) {
    && (forall k :: k in latest <==> k in order) && (forall i, j :: 0 <= i < j < |order| ==> order[i] != order[j])
    && (forall k :: k in latest ==> latest[k].side == k.0 && latest[k].tick == k.1)
    && (forall side: Side, tick: nat :: LastFor(us, side, tick) == if (side, tick) in latest then Some(latest[(side, tick)].volume) else None)
  }

  lemma CollectMore(us: seq<DepthUpdate>, latest: map<PriceKey, DepthUpdate>, order: seq<PriceKey>, u: DepthUpdate)
    requires Collected(us, latest, order)
    ensures var k := (u.side, u.tick); Collected(us + [u], latest[k := u], if k in latest then order else order + [k])
  {
    assert (us + [u])[..|us|] == us;
  }

  lemma {:induction false} CollectedLast(us: seq<DepthUpdate>, latest: map<PriceKey, DepthUpdate>, order: seq<PriceKey>, levels: seq<DepthUpdate>)
    requires Collected(us, latest, order) && |levels| == |order| && forall i :: 0 <= i < |order| ==> levels[i] == latest[order[i]]
    ensures SameLast(levels, us) && OncePerPrice(levels)
  {
    forall side: Side, tick: nat
      ensures LastFor(levels, side, tick) == LastFor(us, side, tick)
    {
      LastIn(levels, side, tick);
    }
  }

  lemma {:induction false} LastIn(levels: seq<DepthUpdate>, side: Side, tick: nat)
    ensures LastFor(levels, side, tick).None? ==> forall i :: 0 <= i < |levels| ==> levels[i].side != side || levels[i].tick != tick
    ensures LastFor(levels, side, tick).Some? ==>
      exists i :: 0 <= i < |levels| && levels[i] == DepthUpdate(side, tick, LastFor(levels, side, tick).value)
  {
    if levels != [] {
      LastIn(levels[..|levels| - 1], side, tick);
    }
  }

  /** One update for each price that occurs, with what was last said about it. */
  method CompressDepthUpdates(updates: seq<DepthUpdate>) returns (levels: seq<DepthUpdate>)
    ensures SameLast(levels, updates) && OncePerPrice(levels)
  {
    var latest: map<PriceKey, DepthUpdate>, order: seq<PriceKey> := map[], [];
    for n := 0 to |updates|
      invariant Collected(updates[..n], latest, order)
    {
      var u := updates[n];
      var k := (u.side, u.tick);
      CollectMore(updates[..n], latest, order, u);
      assert updates[..n + 1] == updates[..n] + [u];
      if k !in latest {
        order := order + [k];
      }
      latest := latest[k := u];
    }
    assert updates[..|updates|] == updates;
    levels := [];
    for n := 0 to |order|
      invariant |levels| == n && forall i :: 0 <= i < n ==> levels[i] == latest[order[i]]
    {
      levels := levels + [latest[order[n]]];
    }
    CollectedLast(updates, latest, order, levels);
  }

  // ----- Rows of a ladder -----

  datatype Row = Row(price: nat, volume: nat)

  /** Bids are listed from the highest price down, asks from the lowest up. */
  predicate Before(a: Row, b: Row, down: bool) {
    if down then a.price > b.price else a.price < b.price
  }

  predicate InOrder(rows: seq<Row>, down: bool) {
    forall i, j :: 0 <= i < j < |rows| ==> Before(rows[i], rows[j], down)
  }

  /** The rows are the volumes above zero, in order. */
  ghost predicate Lists(rows: seq<Row>, volumes: seq<nat>, down: bool) {
    InOrder(rows, down) && forall r: Row :: r in rows <==> r.price < |volumes| && volumes[r.price] == r.volume > 0
  }

  lemma {:induction false} OrderedRowsUnique(a: seq<Row>, b: seq<Row>, down: bool)
    requires InOrder(a, down) && InOrder(b, down) && forall r: Row :: r in a <==> r in b
    ensures a == b
  {
    assert b != [] ==> b[0] in b;
    if a != [] {
      var x := a[|a| - 1];
      assert x in b;
      var y := b[|b| - 1];
      assert y in a;
      assert x == y;
      var front, rest := a[..|a| - 1], b[..|b| - 1];
      LastTaken(a, down);
      LastTaken(b, down);
      forall r: Row
        ensures r in front <==> r in rest
      {
        assert r in a <==> r in b;
      }
      OrderedRowsUnique(front, rest, down);
      assert a == front + [x] && b == rest + [x];
    }
  }

  lemma LastTaken(rows: seq<Row>, down: bool)
    requires rows != [] && InOrder(rows, down)
    ensures InOrder(rows[..|rows| - 1], down)
    ensures forall r: Row :: r in rows[..|rows| - 1] <==> r in rows && r != rows[|rows| - 1]
  {
    var n := |rows| - 1;
    assert rows == rows[..n] + [rows[n]];
  }

  /** A ladder has one listing: whoever lists the same depth shows the same rows. */
  lemma ListsUnique(a: seq<Row>, b: seq<Row>, volumes: seq<nat>, down: bool)
    requires Lists(a, volumes, down) && Lists(b, volumes, down)
    ensures a == b
  {
    OrderedRowsUnique(a, b, down);
  }

  datatype Orderbook = Orderbook(bids: seq<Row>, asks: seq<Row>, bestBid: Option<nat>, bestAsk: Option<nat>)

  function FirstPrice(rows: seq<Row>): Option<nat> {
    if rows == [] then None else Some(rows[0].price)
  }

  ghost predicate Shows(o: Orderbook, d: Depth.Book) {
    Lists(o.bids, d.bids, true) && Lists(o.asks, d.asks, false) && o.bestBid == FirstPrice(o.bids) && o.bestAsk == FirstPrice(o.asks)
  }

  // ----- The publisher's copy -----

  class MarketState {
    var seqNo: nat
    const bids: array<nat>
    const asks: array<nat>

    ghost predicate Valid()
      reads this, bids, asks
    {
      bids.Length == Depth.SLOTS && asks.Length == Depth.SLOTS && bids != asks
    }

    ghost function View(): (d: Depth.Book)
      requires Valid()
      reads this, bids, asks
      ensures Depth.Shaped(d)
    {
      Depth.Book(bids[..], asks[..])
    }

    constructor ()
      ensures Valid() && fresh(bids) && fresh(asks) && seqNo == 0 && View() == Depth.Empty()
    {
      seqNo := 0;
      bids := new nat[Depth.SLOTS](i => 0);
      asks := new nat[Depth.SLOTS](i => 0);
      new;
      assert bids[..] == Depth.Empty().bids && asks[..] == Depth.Empty().asks;
    }

    /** A match batch moves the publisher on by one, to the depth its updates say. */
    method ApplyMatchEvent(updates: seq<DepthUpdate>) returns (number: nat, levels: seq<DepthUpdate>)
      requires Valid()
      modifies this`seqNo, bids, asks
      ensures Valid() && seqNo == old(seqNo) + 1 && number == seqNo
      ensures SameLast(levels, updates) && OncePerPrice(levels)
      ensures View() == Depth.Apply(old(View()), levels)
    {
      levels := CompressDepthUpdates(updates);
      seqNo := seqNo + 1;
      for n := 0 to |levels|
        invariant Valid() && seqNo == old(seqNo) + 1 && View() == Depth.Apply(old(View()), levels[..n])
      {
        var level := levels[n];
        ApplyNext(old(View()), levels, n);
        if level.tick >= Depth.SLOTS {
          continue;
        }
        if level.side == Sell {
          asks[level.tick] := level.volume;
        } else {
          bids[level.tick] := level.volume;
        }
      }
      assert levels[..|levels|] == levels;
      return seqNo, levels;
    }

    method SnapshotPayload() returns (number: nat, o: Orderbook)
      requires Valid()
      ensures number == seqNo && Shows(o, View())
    {
      var rows: seq<Row>, best := [], None;
      var price := Depth.SLOTS;
      while price > 0
        invariant price <= Depth.SLOTS && InOrder(rows, true) && best == FirstPrice(rows)
        invariant forall r: Row :: r in rows <==> price <= r.price < Depth.SLOTS && bids[r.price] == r.volume > 0
      {
        price := price - 1;
        if bids[price] > 0 {
          rows := rows + [Row(price, bids[price])];
          if best.None? {
            best := Some(price);
          }
        }
      }
      var up: seq<Row>, lowest := [], None;
      for tick := 0 to Depth.SLOTS
        invariant InOrder(up, false) && lowest == FirstPrice(up)
        invariant forall r: Row :: r in up <==> r.price < tick && asks[r.price] == r.volume > 0
      {
        if asks[tick] > 0 {
          up := up + [Row(tick, asks[tick])];
          if lowest.None? {
            lowest := Some(tick);
          }
        }
      }
      return seqNo, Orderbook(rows, up, best, lowest);
    }
  }

  lemma ApplyNext(d: Depth.Book, levels: seq<DepthUpdate>, n: nat)
    requires Depth.Shaped(d) && n < |levels|
    ensures Depth.Apply(d, levels[..n + 1]) == Depth.ApplyOne(Depth.Apply(d, levels[..n]), levels[n])
  {
    assert levels[..n + 1] == levels[..n] + [levels[n]];
    Depth.ApplyConcat(d, levels[..n], [levels[n]]);
    assert [levels[n]][1..] == [];
  }

  // ----- The client's copy -----

  /** The map holds just the volumes above zero. */
  ghost predicate Holds(m: map<nat, nat>, volumes: seq<nat>) {
    forall p: nat :: (p in m <==> p < |volumes| && volumes[p] > 0) && (p in m ==> m[p] == volumes[p])
  }

  method RowsToMap(rows: seq<Row>, ghost volumes: seq<nat>, ghost down: bool) returns (m: map<nat, nat>)
    requires Lists(rows, volumes, down)
    ensures Holds(m, volumes)
  {
    m := map[];
    for n := 0 to |rows|
      invariant forall p: nat :: p in m ==> Row(p, m[p]) in rows
      invariant forall i :: 0 <= i < n ==> rows[i].price in m
    {
      m := m[rows[n].price := rows[n].volume];
    }
    forall p: nat | p < |volumes| && volumes[p] > 0
      ensures p in m
    {
      assert Row(p, volumes[p]) in rows;
    }
  }

  function InsertRow(rows: seq<Row>, r: Row, down: bool): (s: seq<Row>)
    requires InOrder(rows, down) && forall x :: x in rows ==> x.price != r.price
    ensures InOrder(s, down) && forall x: Row :: x in s <==> x in rows || x == r
  {
    if rows == [] then [r]
    else
      var n := |rows| - 1;
      assert rows == rows[..n] + [rows[n]];
      assert rows[n] in rows;
      if Before(rows[n], r, down) then
        OrderedAppend(rows, r, down);
        rows + [r]
      else
        var front := InsertRow(rows[..n], r, down);
        OrderedAppend(front, rows[n], down);
        front + [rows[n]]
  }

  lemma OrderedAppend(rows: seq<Row>, r: Row, down: bool)
    requires InOrder(rows, down) && (rows == [] || forall x :: x in rows ==> Before(x, r, down))
    ensures InOrder(rows + [r], down)
  {
    forall i, j | 0 <= i < j < |rows| + 1
      ensures Before((rows + [r])[i], (rows + [r])[j], down)
    {
      if j == |rows| { assert rows[i] in rows; }
    }
  }

  method SortedEntries(m: map<nat, nat>, down: bool, ghost volumes: seq<nat>) returns (rows: seq<Row>)
    requires Holds(m, volumes)
    ensures Lists(rows, volumes, down)
  {
    rows := [];
    var left := m.Keys;
    while left != {}
      invariant left <= m.Keys && InOrder(rows, down)
      invariant forall r: Row :: r in rows <==> r.price in m && r.price !in left && m[r.price] == r.volume
      decreases |left|
    {
      var p :| p in left;
      rows := InsertRow(rows, Row(p, m[p]), down);
      left := left - {p};
    }
  }

  /** One level: a volume of zero takes the price off the ladder. */
  method ApplyLevel(m: map<nat, nat>, level: DepthUpdate, ghost volumes: seq<nat>) returns (r: map<nat, nat>)
    requires Holds(m, volumes) && level.tick < |volumes|
    ensures Holds(r, volumes[level.tick := level.volume])
  {
    if level.volume == 0 {
      return m - {level.tick};
    }
    return m[level.tick := level.volume];
  }

  /** A client that shows a depth shows, after a delta, that depth with the delta's levels applied. */
  method ApplyDepthLevels(o: Orderbook, levels: seq<DepthUpdate>, ghost d: Depth.Book) returns (r: Orderbook)
    requires Depth.Shaped(d) && Shows(o, d) && forall i :: 0 <= i < |levels| ==> levels[i].tick < Depth.SLOTS
    ensures Shows(r, Depth.Apply(d, levels))
  {
    var bids := RowsToMap(o.bids, d.bids, true);
    var asks := RowsToMap(o.asks, d.asks, false);
    for n := 0 to |levels|
      invariant var now := Depth.Apply(d, levels[..n]); Holds(bids, now.bids) && Holds(asks, now.asks)
    {
      ghost var now := Depth.Apply(d, levels[..n]);
      ApplyNext(d, levels, n);
      if levels[n].side == Sell {
        asks := ApplyLevel(asks, levels[n], now.asks);
      } else {
        bids := ApplyLevel(bids, levels[n], now.bids);
      }
    }
    assert levels[..|levels|] == levels;
    ghost var now := Depth.Apply(d, levels);
    var bidRows := SortedEntries(bids, true, now.bids);
    var askRows := SortedEntries(asks, false, now.asks);
    return Orderbook(bidRows, askRows, FirstPrice(bidRows), FirstPrice(askRows));
  }
}
