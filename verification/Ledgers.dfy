/** All wallets and positions, and the batch operations on them. */
module Ledgers {
  import opened Types
  import opened Matching
  import opened Batch
  import opened Accounts
  import opened Deltas

  datatype Key = Key(wallet: string, market: nat)

  /** Wallets, positions, and which of them have changed since they were last collected for writing back. */
  datatype Ledger = Ledger(cash: map<string, Wallet>, positions: map<Key, Position>,
                           dirtyCash: set<string>, dirtyPositions: set<Key>)

  const NO_LEDGER := Ledger(map[], map[], {}, {})

  function CashOf(g: Ledger, w: string): Wallet {
    if w in g.cash then g.cash[w] else NO_CASH
  }

  function PositionOf(g: Ledger, k: Key): Position {
    if k in g.positions then g.positions[k] else NO_POSITION
  }

  function At(g: Ledger, k: Key): Account {
    Account(CashOf(g, k.wallet), PositionOf(g, k))
  }

  function Put(g: Ledger, k: Key, a: Account): Ledger {
    Ledger(g.cash[k.wallet := a.cash], g.positions[k := a.position], g.dirtyCash + {k.wallet}, g.dirtyPositions + {k})
  }

  function PutCash(g: Ledger, w: string, x: Wallet): Ledger {
    g.(cash := g.cash[w := x], dirtyCash := g.dirtyCash + {w})
  }

  // ----- Batches -----

  datatype BatchEvent = BatchEvent(id: string, market: nat, orders: seq<MatchedOrder>, fills: seq<MatchFill>, updates: seq<OrderUpdate>)

  predicate EventOk(e: BatchEvent) {
    forall i :: 0 <= i < |e.fills| ==> e.fills[i].price <= 100
  }

  /** Orders by index; a repeated index names the last order that claims it. */
  function ByIndex(orders: seq<MatchedOrder>): map<nat, Order> {
    if orders == [] then map[]
    else ByIndex(orders[..|orders| - 1])[orders[|orders| - 1].orderIndex := orders[|orders| - 1].execution]
  }

  /** The maker's side and then the taker's; a fill that names an order the batch lacks is skipped. */
  function LegsOfFill(index: map<nat, Order>, f: MatchFill): seq<Leg> {
    if f.makerIndex in index && f.takerIndex in index then
      [Leg(index[f.makerIndex], f.amount, f.price), Leg(index[f.takerIndex], f.amount, f.price)]
    else []
  }

  function LegsOf(index: map<nat, Order>, fills: seq<MatchFill>): (r: seq<Leg>)
    requires forall i :: 0 <= i < |fills| ==> fills[i].price <= 100
    ensures LegsOk(r)
  {
    if fills == [] then [] else LegsOf(index, fills[..|fills| - 1]) + LegsOfFill(index, fills[|fills| - 1])
  }

  function Legs(e: BatchEvent): (r: seq<Leg>)
    requires EventOk(e)
    ensures LegsOk(r)
  {
    LegsOf(ByIndex(e.orders), e.fills)
  }

  function ApplyLeg(g: Ledger, market: nat, l: Leg): Ledger
    requires LegOk(l)
  {
    var k := Key(l.order.wallet, market);
    Put(g, k, Fill(At(g, k), l))
  }

  function ApplyLegs(g: Ledger, market: nat, legs: seq<Leg>): Ledger
    requires LegsOk(legs)
  {
    if legs == [] then g else ApplyLeg(ApplyLegs(g, market, legs[..|legs| - 1]), market, legs[|legs| - 1])
  }

  function ReleaseOrder(g: Ledger, o: Order, market: nat, qty: nat, refund: nat): Ledger {
    var k := Key(o.wallet, market);
    Put(g, k, Release(At(g, k), o, qty, refund))
  }

  predicate Releases(u: OrderUpdate) {
    u.status == Canceled || u.status == Lapsed || u.status == Rejected
  }

  function ApplyUpdate(g: Ledger, market: nat, index: map<nat, Order>, u: OrderUpdate): Ledger {
    if Releases(u) && u.orderIndex in index then ReleaseOrder(g, index[u.orderIndex], market, u.remainingQty, u.refund) else g
  }

  function ApplyUpdates(g: Ledger, market: nat, index: map<nat, Order>, updates: seq<OrderUpdate>): Ledger {
    if updates == [] then g
    else ApplyUpdate(ApplyUpdates(g, market, index, updates[..|updates| - 1]), market, index, updates[|updates| - 1])
  }

  function ApplyBatch(g: Ledger, e: BatchEvent): Ledger
    requires EventOk(e)
  {
    ApplyUpdates(ApplyLegs(g, e.market, Legs(e)), e.market, ByIndex(e.orders), e.updates)
  }

  /** The netted delta of every wallet that has a leg. */
  function DeltaMap(legs: seq<Leg>): map<string, Delta>
    requires LegsOk(legs)
  {
    if legs == [] then map[]
    else
      var d, l := DeltaMap(legs[..|legs| - 1]), legs[|legs| - 1];
      var w := l.order.wallet;
      d[w := AddLeg(if w in d then d[w] else NO_DELTA, l)]
  }

  datatype Verdict = Confirmed | Failed

  function SettleOne(a: Account, d: Delta, v: Verdict): Account {
    if v == Confirmed then Confirm(a, d) else Fail(a, d)
  }

  function SettledCash(g: Ledger, market: nat, deltas: map<string, Delta>, v: Verdict): map<string, Wallet> {
    g.cash + (map w | w in deltas :: SettleOne(At(g, Key(w, market)), deltas[w], v).cash)
  }

  function SettledPositions(g: Ledger, market: nat, deltas: map<string, Delta>, v: Verdict): map<Key, Position> {
    g.positions
    + (map k | k in KeysIn(deltas.Keys, market) :: SettleOne(At(g, k), if k.wallet in deltas then deltas[k.wallet] else NO_DELTA, v).position)
  }

  function KeysIn(ws: set<string>, market: nat): set<Key> {
    set w | w in ws :: Key(w, market)
  }

  /** Every wallet of the batch is settled by its own delta, so the order in which they are visited does not matter. */
  function SettleAll(g: Ledger, market: nat, deltas: map<string, Delta>, v: Verdict): Ledger {
    Ledger(SettledCash(g, market, deltas, v), SettledPositions(g, market, deltas, v),
           g.dirtyCash + deltas.Keys, g.dirtyPositions + KeysIn(deltas.Keys, market))
  }

  function Settle(g: Ledger, e: BatchEvent, v: Verdict): Ledger
    requires EventOk(e)
  {
    SettleAll(g, e.market, DeltaMap(Legs(e)), v)
  }

  // ----- One wallet's view -----

  /** The legs of one wallet, in order. */
  function Mine(legs: seq<Leg>, w: string): seq<Leg> {
    if legs == [] then []
    else Mine(legs[..|legs| - 1], w) + (if legs[|legs| - 1].order.wallet == w then [legs[|legs| - 1]] else [])
  }

  lemma {:induction false} MineIsSubset(legs: seq<Leg>, w: string)
    ensures forall i :: 0 <= i < |Mine(legs, w)| ==> Mine(legs, w)[i] in legs && Mine(legs, w)[i].order.wallet == w
    ensures forall i :: 0 <= i < |legs| && legs[i].order.wallet == w ==> legs[i] in Mine(legs, w)
    ensures LegsOk(legs) ==> LegsOk(Mine(legs, w))
  {
    if legs != [] { MineIsSubset(legs[..|legs| - 1], w); }
  }

  lemma MineLast(legs: seq<Leg>, w: string)
    requires legs != []
    ensures var (front, l) := (Mine(legs[..|legs| - 1], w), legs[|legs| - 1]);
      Mine(legs, w) == if l.order.wallet == w then front + [l] else front
  {
  }

  lemma FillAllLast(a: Account, front: seq<Leg>, l: Leg)
    requires LegsOk(front) && LegOk(l)
    ensures FillAll(a, front + [l]) == Fill(FillAll(a, front), l)
    ensures SumLegs(front + [l]) == AddLeg(SumLegs(front), l)
  {
    assert (front + [l])[..|front|] == front;
  }

  lemma ApplyLegHere(g: Ledger, market: nat, l: Leg, k: Key)
    requires LegOk(l)
    ensures k == Key(l.order.wallet, market) ==> At(ApplyLeg(g, market, l), k) == Fill(At(g, k), l)
    ensures k.wallet != l.order.wallet ==> At(ApplyLeg(g, market, l), k) == At(g, k)
    ensures k.market != market ==> PositionOf(ApplyLeg(g, market, l), k) == PositionOf(g, k)
  {
  }

  /** Applying all fills does to each wallet what its own fills do, and moves no position in another market. */
  lemma {:induction false} ApplyLegsIsMine(g: Ledger, market: nat, legs: seq<Leg>, w: string)
    requires LegsOk(legs)
    ensures LegsOk(Mine(legs, w))
    ensures At(ApplyLegs(g, market, legs), Key(w, market)) == FillAll(At(g, Key(w, market)), Mine(legs, w))
  {
    MineIsSubset(legs, w);
    if legs != [] {
      hide Fill, Mine, ApplyLeg, At;
      var (k, last, l) := (Key(w, market), |legs| - 1, legs[|legs| - 1]);
      var before := ApplyLegs(g, market, legs[..last]);
      ApplyLegsIsMine(g, market, legs[..last], w);
      MineLast(legs, w);
      FillAllLast(At(g, k), Mine(legs[..last], w), l);
      ApplyLegHere(before, market, l, k);
    }
  }

  lemma {:induction false} ApplyLegsStaysInMarket(g: Ledger, market: nat, legs: seq<Leg>, k: Key)
    requires LegsOk(legs) && k.market != market
    ensures PositionOf(ApplyLegs(g, market, legs), k) == PositionOf(g, k)
  {
    if legs != [] { ApplyLegsStaysInMarket(g, market, legs[..|legs| - 1], k); }
  }

  /** The map of deltas holds, for exactly the wallets with legs, the sum of their own legs. */
  lemma {:induction false} DeltaMapIsMine(legs: seq<Leg>, w: string)
    requires LegsOk(legs)
    ensures LegsOk(Mine(legs, w))
    ensures w in DeltaMap(legs) <==> Mine(legs, w) != []
    ensures w in DeltaMap(legs) ==> DeltaMap(legs)[w] == SumLegs(Mine(legs, w))
  {
    MineIsSubset(legs, w);
    if legs != [] {
      hide AddLeg, Mine;
      DeltaMapIsMine(legs[..|legs| - 1], w);
      MineLast(legs, w);
      FillAllLast(Account(NO_CASH, NO_POSITION), Mine(legs[..|legs| - 1], w), legs[|legs| - 1]);
    }
  }

  lemma SettleAllAt(g: Ledger, market: nat, deltas: map<string, Delta>, v: Verdict, k: Key)
    ensures var r := SettleAll(g, market, deltas, v);
      if k.wallet !in deltas then At(r, k) == At(g, k)
      else if k.market == market then At(r, k) == SettleOne(At(g, k), deltas[k.wallet], v)
      else PositionOf(r, k) == PositionOf(g, k)
  {
    hide SettleOne;
    if k.wallet in deltas && k.market == market {
      assert k == Key(k.wallet, market);
    }
  }

  /** Settling a batch settles each wallet by the sum of its own legs. */
  lemma SettleIsMine(g: Ledger, e: BatchEvent, v: Verdict, w: string)
    requires EventOk(e)
    ensures LegsOk(Mine(Legs(e), w))
    ensures At(Settle(g, e, v), Key(w, e.market)) == SettleOne(At(g, Key(w, e.market)), SumLegs(Mine(Legs(e), w)), v)
  {
    hide SettleAll;
    DeltaMapIsMine(Legs(e), w);
    SettleAllAt(g, e.market, DeltaMap(Legs(e)), v, Key(w, e.market));
  }

  lemma SettleStaysInMarket(g: Ledger, e: BatchEvent, v: Verdict, k: Key)
    requires EventOk(e) && k.market != e.market
    ensures PositionOf(Settle(g, e, v), k) == PositionOf(g, k)
  {
    hide SettleAll;
    SettleAllAt(g, e.market, DeltaMap(Legs(e)), v, k);
  }

  /** Releases change nothing that is pending. */
  lemma {:induction false} UpdatesKeepPending(g: Ledger, market: nat, index: map<nat, Order>, updates: seq<OrderUpdate>, k: Key)
    ensures SameHoldings(At(g, k), At(ApplyUpdates(g, market, index, updates), k))
  {
    if updates != [] {
      var front := ApplyUpdates(g, market, index, updates[..|updates| - 1]);
      UpdatesKeepPending(g, market, index, updates[..|updates| - 1], k);
      var u := updates[|updates| - 1];
      if Releases(u) && u.orderIndex in index {
        var o := index[u.orderIndex];
        ReleasePreserves(At(front, Key(o.wallet, market)), o, u.remainingQty, u.refund);
      }
    }
  }
}
