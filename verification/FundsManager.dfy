/** The funds manager: wallets and positions in maps, and an index of what has changed since the last collection. */
module FundsManager {
  import opened Types
  import opened Rounding
  import opened Matching
  import opened Batch
  import opened Accounts
  import opened Deltas
  import opened Ledgers

  /** Nothing flagged any more, except a wallet without a name, which is never queued. */
  function Collected(g: Ledger): Ledger {
    g.(dirtyCash := g.dirtyCash * {""}, dirtyPositions := {})
  }

  /** Flags put back on everything a failed write had collected. */
  function Flagged(g: Ledger, wallets: set<string>, positions: set<Key>): Ledger {
    Ledger((map w | w in wallets :: NO_CASH) + g.cash, (map k | k in positions :: NO_POSITION) + g.positions,
           g.dirtyCash + wallets, g.dirtyPositions + positions)
  }

  lemma FlaggedTwice(g: Ledger, wallets: set<string>, positions: set<Key>)
    ensures Flagged(Flagged(g, wallets, {}), {}, positions) == Flagged(g, wallets, positions)
  {
    var h := Flagged(g, wallets, {});
    assert h.positions == g.positions && h.dirtyPositions == g.dirtyPositions;
    assert Flagged(h, {}, positions).cash == h.cash;
    assert h.dirtyCash + {} == h.dirtyCash;
  }

  /** Some wallets flagged so far, with empty ones made where there were none; everything else as it was. */
  ghost predicate WalletsFlagged(g: Ledger, h: Ledger, done: set<string>) {
    && h.cash.Keys == g.cash.Keys + done && h.dirtyCash == g.dirtyCash + done
    && (forall w :: w in h.cash ==> h.cash[w] == CashOf(g, w))
    && h.positions == g.positions && h.dirtyPositions == g.dirtyPositions
  }

  lemma NoneFlagged(g: Ledger, wallets: set<string>, keys: set<Key>)
    ensures WalletsFlagged(g, g, wallets - wallets)
    ensures PositionsFlagged(g, g, keys - keys)
  {
    assert wallets - wallets == {} && keys - keys == {};
  }

  lemma TakeOne<T>(all: set<T>, left: set<T>, x: T)
    requires x in left && left <= all
    ensures all - (left - {x}) == (all - left) + {x}
  {
  }

  lemma TookAll<T>(all: set<T>, left: set<T>)
    requires left == {}
    ensures all - left == all
  {
  }

  lemma FlagsOneWallet(g: Ledger, h: Ledger, done: set<string>, w: string)
    requires WalletsFlagged(g, h, done)
    ensures WalletsFlagged(g, PutCash(h, w, CashOf(h, w)), done + {w})
  {
  }

  lemma AllWalletsFlagged(g: Ledger, h: Ledger, wallets: set<string>)
    requires WalletsFlagged(g, h, wallets)
    ensures h == Flagged(g, wallets, {})
  {
    assert h.cash == Flagged(g, wallets, {}).cash;
    assert h.positions == Flagged(g, wallets, {}).positions;
    assert g.dirtyPositions + {} == g.dirtyPositions;
  }

  function FlagPosition(h: Ledger, k: Key): Ledger {
    h.(positions := h.positions[k := PositionOf(h, k)], dirtyPositions := h.dirtyPositions + {k})
  }

  ghost predicate PositionsFlagged(g: Ledger, h: Ledger, done: set<Key>) {
    && h.positions.Keys == g.positions.Keys + done && h.dirtyPositions == g.dirtyPositions + done
    && (forall k :: k in h.positions ==> h.positions[k] == PositionOf(g, k))
    && h.cash == g.cash && h.dirtyCash == g.dirtyCash
  }

  lemma FlagsOnePosition(g: Ledger, h: Ledger, done: set<Key>, k: Key)
    requires PositionsFlagged(g, h, done)
    ensures PositionsFlagged(g, FlagPosition(h, k), done + {k})
  {
  }

  lemma AllPositionsFlagged(g: Ledger, h: Ledger, keys: set<Key>)
    requires PositionsFlagged(g, h, keys)
    ensures h == Flagged(g, {}, keys)
  {
    assert h.cash == Flagged(g, {}, keys).cash;
    assert h.positions == Flagged(g, {}, keys).positions;
    assert g.dirtyCash + {} == g.dirtyCash;
  }

  predicate NoRepeats<T(==)>(q: seq<T>) {
    forall i, j :: 0 <= i < j < |q| ==> q[i] != q[j]
  }

  class Manager {
    var ledgers: map<string, Wallet>
    var positions: map<Key, Position>
    var dirtyLedgers: set<string>
    var dirtyPositions: set<Key>
    var walletQueue: seq<string>
    var walletSeen: set<string>
    var positionQueue: seq<Key>
    var positionSeen: set<Key>

    /** What is flagged is queued exactly once, save for a wallet without a name. */
    ghost predicate Valid()
      reads this
    {
      && NoRepeats(walletQueue) && NoRepeats(positionQueue)
      && (forall w :: w in walletSeen <==> w in walletQueue)
      && (forall k :: k in positionSeen <==> k in positionQueue)
      && walletSeen == dirtyLedgers - {""} && positionSeen == dirtyPositions
      && dirtyLedgers <= ledgers.Keys && dirtyPositions <= positions.Keys
    }

    function View(): Ledger
      reads this
    {
      Ledger(ledgers, positions, dirtyLedgers, dirtyPositions)
    }

    constructor ()
      ensures Valid() && View() == NO_LEDGER
    {
      ledgers, positions, dirtyLedgers, dirtyPositions := map[], map[], {}, {};
      walletQueue, walletSeen, positionQueue, positionSeen := [], {}, [], {};
    }

    method MarkWallet(w: string)
      modifies `walletQueue, `walletSeen
      ensures if w == "" || w in old(walletSeen) then walletQueue == old(walletQueue) && walletSeen == old(walletSeen)
              else walletQueue == old(walletQueue) + [w] && walletSeen == old(walletSeen) + {w}
    {
      if w == "" {
        return;
      }
      if w !in walletSeen {
        walletSeen := walletSeen + {w};
        walletQueue := walletQueue + [w];
      }
    }

    method MarkPosition(k: Key)
      modifies `positionQueue, `positionSeen
      ensures if k in old(positionSeen) then positionQueue == old(positionQueue) && positionSeen == old(positionSeen)
              else positionQueue == old(positionQueue) + [k] && positionSeen == old(positionSeen) + {k}
    {
      if k !in positionSeen {
        positionSeen := positionSeen + {k};
        positionQueue := positionQueue + [k];
      }
    }

    method StoreCash(w: string, x: Wallet)
      requires Valid()
      modifies this
      ensures Valid() && View() == PutCash(old(View()), w, x)
    {
      dirtyLedgers := dirtyLedgers + {w};
      MarkWallet(w);
      ledgers := ledgers[w := x];
    }

    method StorePosition(k: Key, p: Position)
      requires Valid()
      modifies this
      ensures Valid()
      ensures View() == old(View()).(positions := old(positions)[k := p], dirtyPositions := old(dirtyPositions) + {k})
    {
      dirtyPositions := dirtyPositions + {k};
      MarkPosition(k);
      positions := positions[k := p];
    }

    method StoreAccount(k: Key, a: Account)
      requires Valid()
      modifies this
      ensures Valid() && View() == Put(old(View()), k, a)
    {
      StoreCash(k.wallet, a.cash);
      StorePosition(k, a.position);
    }

    method Snapshot(k: Key) returns (a: Account)
      ensures a == At(View(), k)
    {
      var cash := if k.wallet in ledgers then ledgers[k.wallet] else NO_CASH;
      var position := if k in positions then positions[k] else NO_POSITION;
      a := Account(cash, position);
    }

    method ApplyDepositConfirmed(w: string, amount: nat)
      requires Valid()
      modifies this
      ensures Valid() && View() == if amount == 0 then old(View()) else PutCash(old(View()), w, Deposit(CashOf(old(View()), w), amount))
    {
      if amount == 0 {
        return;
      }
      var cash := if w in ledgers then ledgers[w] else NO_CASH;
      StoreCash(w, cash.(available := cash.available + amount));
    }

    method ApplyWithdrawConfirmed(w: string, amount: nat)
      requires Valid()
      modifies this
      ensures Valid() && View() == if amount == 0 then old(View()) else PutCash(old(View()), w, Withdraw(CashOf(old(View()), w), amount))
    {
      if amount == 0 {
        return;
      }
      var cash := if w in ledgers then ledgers[w] else NO_CASH;
      if cash.available < amount {
        cash := cash.(available := 0);
      } else {
        cash := cash.(available := cash.available - amount);
      }
      StoreCash(w, cash);
    }

    method ReserveOrder(o: Order, market: nat) returns (error: Option<ReserveError>)
      requires Valid()
      modifies this
      ensures Valid()
      ensures var r := Reserve(At(old(View()), Key(o.wallet, market)), o);
        && (error.None? <==> r.Ok?) && (error.Some? ==> error.value == r.error)
        && View() == if r.Ok? then Put(old(View()), Key(o.wallet, market), r.value) else old(View())
    {
      var k := Key(o.wallet, market);
      var a := Snapshot(k);
      if o.action == Buy {
        var units := RequiredReserve(o);
        if a.cash.available < units {
          return Some(InsufficientCash(a.cash.available, units));
        }
        a := Account(a.cash.(available := a.cash.available - units, locked := a.cash.locked + units),
                     a.position.(collateral := a.position.collateral + units));
      } else {
        var s := a.position.Of(o.outcome);
        if s.available < o.qty {
          return Some(InsufficientShares(s.available, o.qty));
        }
        a := a.(position := a.position.With(o.outcome, s.(available := s.available - o.qty, locked := s.locked + o.qty)));
      }
      StoreAccount(k, a);
      error := None;
    }

    method ReleaseOneOrder(o: Order, market: nat, qty: nat, refund: nat)
      requires Valid()
      modifies this
      ensures Valid() && View() == ReleaseOrder(old(View()), o, market, qty, refund)
    {
      var k := Key(o.wallet, market);
      var a := Snapshot(k);
      if o.action == Buy {
        var unlock := refund;
        if unlock == 0 {
          unlock := if o.otype == Market then o.spend else Cost(qty, o.originalTick);
        }
        if a.cash.locked < unlock {
          unlock := a.cash.locked;
        }
        var collateral := if unlock < a.position.collateral then unlock else a.position.collateral;
        a := Account(a.cash.(locked := a.cash.locked - unlock, available := a.cash.available + unlock),
                     a.position.(collateral := a.position.collateral - collateral));
      } else {
        var s := a.position.Of(o.outcome);
        var back := if qty < s.locked then qty else s.locked;
        a := a.(position := a.position.With(o.outcome, s.(locked := s.locked - back, available := s.available + back)));
      }
      StoreAccount(k, a);
    }

    method ApplyFillForOrder(l: Leg, market: nat)
      requires Valid() && LegOk(l)
      modifies this
      ensures Valid() && View() == ApplyLeg(old(View()), market, l)
    {
      var k := Key(l.order.wallet, market);
      var a := Snapshot(k);
      var units := ActualUnits(l.order, l.lots, l.price);
      var cash, position := a.cash, a.position;
      var s := position.Of(l.order.outcome);
      if l.order.action == Buy {
        var taken := units;
        if l.order.otype == Limit {
          taken := Cost(l.lots, l.order.originalTick);
        }
        if cash.locked < taken {
          taken := cash.locked;
        }
        cash := cash.(locked := cash.locked - taken);
        position := position.(collateral := position.collateral - if taken < position.collateral then taken else position.collateral);
        if l.order.otype == Limit && taken > units {
          cash := cash.(available := cash.available + (taken - units));
        }
        position := position.With(l.order.outcome, s.(pending := s.pending + l.lots));
      } else {
        position := position.With(l.order.outcome, s.(locked := s.locked - if l.lots < s.locked then l.lots else s.locked));
        cash := cash.(pending := cash.pending + units);
      }
      StoreAccount(k, Account(cash, position));
    }

    method ApplyMatchPending(maker: Leg, taker: Leg, market: nat)
      requires Valid() && LegOk(maker) && LegOk(taker)
      modifies this
      ensures Valid() && View() == ApplyLeg(ApplyLeg(old(View()), market, maker), market, taker)
    {
      ApplyFillForOrder(maker, market);
      ApplyFillForOrder(taker, market);
    }

    /** Settles every wallet of a batch by its own delta, in whatever order the map is walked. */
    method ApplySettlementByBatch(e: BatchEvent, v: Verdict)
      requires Valid() && EventOk(e)
      modifies this
      ensures Valid() && View() == Settle(old(View()), e, v)
    {
      hide SettledSoFar, SettleAll, EventOk, SettleOne, At, Put;
      var deltas := ComputeBatchDeltas(e);
      var left := deltas.Keys;
      ghost var g := View();
      NoneSettled(g, e.market, deltas, v);
      while left != {}
        invariant Valid() && left <= deltas.Keys
        invariant SettledSoFar(g, View(), e.market, deltas, deltas.Keys - left, v)
        decreases |left|
      {
        var w :| w in left;
        ghost var before := View();
        SettleWallet(Key(w, e.market), deltas[w], v);
        SettlesOneMore(g, before, e.market, deltas, deltas.Keys - left, w, v);
        TakeOne(deltas.Keys, left, w);
        left := left - {w};
      }
      TookAll(deltas.Keys, left);
      SettledAll(g, View(), e.market, deltas, v);
    }

    method SettleWallet(k: Key, d: Delta, v: Verdict)
      requires Valid()
      modifies this
      ensures Valid() && View() == Put(old(View()), k, SettleOne(At(old(View()), k), d, v))
    {
      var a := Snapshot(k);
      var cash, yes, no := a.cash, a.position.yes, a.position.no;
      if v == Confirmed {
        cash := MovePending(cash, d.cash);
        yes := MoveShares(yes, d.yes);
        no := MoveShares(no, d.no);
      } else {
        var pendingYes := DropPending(yes.pending, d.yes);
        var pendingNo := DropPending(no.pending, d.no);
        yes, no := yes.(pending := pendingYes), no.(pending := pendingNo);
        if d.cash < 0 {
          cash := cash.(available := cash.available + (-d.cash));
        }
        var pendingCash := DropPending(cash.pending, d.cash);
        cash := cash.(pending := pendingCash);
        yes := yes.(available := yes.available + d.yesUsed);
        no := no.(available := no.available + d.noUsed);
      }
      StoreAccount(k, Account(cash, a.position.(yes := yes, no := no)));
    }

    /** Collects what is flagged and queued, and clears the flags. */
    method CollectAndClearDirty() returns (wallets: map<string, Wallet>, collected: map<Key, Position>)
      requires Valid()
      modifies this
      ensures Valid() && View() == Collected(old(View()))
      ensures wallets == map w | w in old(View()).dirtyCash && w != "" :: old(View()).cash[w]
      ensures collected == map k | k in old(View()).dirtyPositions :: old(View()).positions[k]
    {
      wallets := CollectWallets();
      collected := CollectPositions();
    }

    method CollectWallets() returns (wallets: map<string, Wallet>)
      requires Valid()
      modifies this`walletQueue, this`walletSeen, this`dirtyLedgers
      ensures wallets == map w | w in old(walletSeen) :: ledgers[w]
      ensures walletQueue == [] && walletSeen == {} && dirtyLedgers == old(dirtyLedgers) - wallets.Keys
    {
      var queue := walletQueue;
      walletQueue, walletSeen := [], {};
      wallets := map[];
      var i := 0;
      while i < |queue|
        invariant i <= |queue| && wallets.Keys == set j | 0 <= j < i :: queue[j]
        invariant forall w :: w in wallets ==> w in ledgers && wallets[w] == ledgers[w]
        invariant dirtyLedgers == old(dirtyLedgers) - wallets.Keys
        invariant walletQueue == [] && walletSeen == {}
      {
        var w := queue[i];
        assert w in old(walletQueue);
        if w in ledgers && w in dirtyLedgers {
          dirtyLedgers := dirtyLedgers - {w};
          wallets := wallets[w := ledgers[w]];
        }
        i := i + 1;
      }
      assert wallets.Keys == old(walletSeen);
    }

    method CollectPositions() returns (collected: map<Key, Position>)
      requires forall k :: k in positionQueue <==> k in positionSeen
      requires forall i, j :: 0 <= i < j < |positionQueue| ==> positionQueue[i] != positionQueue[j]
      requires positionSeen == dirtyPositions && dirtyPositions <= positions.Keys
      modifies this`positionQueue, this`positionSeen, this`dirtyPositions
      ensures collected == map k | k in old(positionSeen) :: positions[k]
      ensures positionQueue == [] && positionSeen == {} && dirtyPositions == old(dirtyPositions) - collected.Keys
    {
      var queue := positionQueue;
      positionQueue, positionSeen := [], {};
      collected := map[];
      var i := 0;
      while i < |queue|
        invariant i <= |queue| && collected.Keys == set j | 0 <= j < i :: queue[j]
        invariant forall k :: k in collected ==> k in positions && collected[k] == positions[k]
        invariant dirtyPositions == old(dirtyPositions) - collected.Keys
        invariant positionQueue == [] && positionSeen == {}
      {
        var k := queue[i];
        assert k in old(positionQueue);
        if k in positions && k in dirtyPositions {
          dirtyPositions := dirtyPositions - {k};
          collected := collected[k := positions[k]];
        }
        i := i + 1;
      }
      assert collected.Keys == old(positionSeen);
    }

    /** Flags and queues again everything a failed write had collected; what is in memory stays as it is. */
    method RestoreDirty(wallets: map<string, Wallet>, collected: map<Key, Position>)
      requires Valid()
      modifies this
      ensures Valid() && View() == Flagged(old(View()), wallets.Keys, collected.Keys)
    {
      hide Valid;
      RestoreWallets(wallets.Keys);
      RestorePositions(collected.Keys);
      FlaggedTwice(old(View()), wallets.Keys, collected.Keys);
    }

    method RestoreWallets(wallets: set<string>)
      requires Valid()
      modifies this
      ensures Valid() && View() == Flagged(old(View()), wallets, {})
    {
      var left := wallets;
      ghost var g := View();
      NoneFlagged(g, wallets, {});
      hide Valid, WalletsFlagged, PutCash;
      while left != {}
        invariant Valid() && left <= wallets && WalletsFlagged(g, View(), wallets - left)
        decreases |left|
      {
        var w :| w in left;
        FlagsOneWallet(g, View(), wallets - left, w);
        TakeOne(wallets, left, w);
        StoreCash(w, if w in ledgers then ledgers[w] else NO_CASH);
        left := left - {w};
      }
      TookAll(wallets, left);
      AllWalletsFlagged(g, View(), wallets);
    }

    method RestorePositions(keys: set<Key>)
      requires Valid()
      modifies this
      ensures Valid() && View() == Flagged(old(View()), {}, keys)
    {
      var left := keys;
      ghost var g := View();
      NoneFlagged(g, {}, keys);
      hide Valid, PositionsFlagged;
      while left != {}
        invariant Valid() && left <= keys && PositionsFlagged(g, View(), keys - left)
        decreases |left|
      {
        var k :| k in left;
        FlagsOnePosition(g, View(), keys - left, k);
        TakeOne(keys, left, k);
        StorePosition(k, if k in positions then positions[k] else NO_POSITION);
        left := left - {k};
      }
      TookAll(keys, left);
      AllPositionsFlagged(g, View(), keys);
    }
  }

  method MovePending(w: Wallet, wanted: int) returns (r: Wallet)
    ensures r == var (available, pending) := Realise(w.available, w.pending, wanted); w.(available := available, pending := pending)
  {
    r := w;
    if wanted > 0 {
      var moved := if wanted < w.pending then wanted else w.pending;
      if moved > 0 {
        r := w.(pending := w.pending - moved, available := w.available + moved);
      }
    }
  }

  method MoveShares(s: Shares, wanted: int) returns (r: Shares)
    ensures r == RealiseShares(s, wanted)
  {
    r := s;
    if wanted > 0 {
      var moved := if wanted < s.pending then wanted else s.pending;
      if moved > 0 {
        r := s.(pending := s.pending - moved, available := s.available + moved);
      }
    }
  }

  method DropPending(pending: int, wanted: int) returns (r: int)
    ensures r == Withdrawn(pending, wanted)
  {
    r := pending;
    if wanted > 0 {
      var moved := if wanted < pending then wanted else pending;
      if moved > 0 {
        r := pending - moved;
      }
    }
  }

  /** The two sides of every fill added up per wallet. */
  method ComputeBatchDeltas(e: BatchEvent) returns (deltas: map<string, Delta>)
    requires EventOk(e)
    ensures deltas == DeltaMap(Legs(e))
  {
    var index := IndexOrders(e.orders);
    deltas := map[];
    var i := 0;
    assert DeltaMap(LegsOf(index, e.fills[..0])) == map[];
    hide DeltaMap, LegsOf, FillAdded;
    while i < |e.fills|
      invariant i <= |e.fills| && deltas == DeltaMap(LegsOf(index, e.fills[..i]))
    {
      NextDelta(index, e.fills, i);
      deltas := AddFillToDeltas(deltas, index, e.fills[i]);
      i := i + 1;
    }
    assert e.fills[..i] == e.fills;
  }

  function FillAdded(deltas: map<string, Delta>, index: map<nat, Order>, f: MatchFill): map<string, Delta>
    requires f.price <= 100
  {
    if f.makerIndex in index && f.takerIndex in index then
      WithLeg(WithLeg(deltas, Leg(index[f.makerIndex], f.amount, f.price)), Leg(index[f.takerIndex], f.amount, f.price))
    else deltas
  }

  lemma NextDelta(index: map<nat, Order>, fills: seq<MatchFill>, i: nat)
    requires i < |fills| && forall j :: 0 <= j < |fills| ==> fills[j].price <= 100
    ensures DeltaMap(LegsOf(index, fills[..i + 1])) == FillAdded(DeltaMap(LegsOf(index, fills[..i])), index, fills[i])
  {
    var f := fills[i];
    assert fills[..i + 1][..i] == fills[..i];
    hide WithLeg, DeltaMap;
    if f.makerIndex in index && f.takerIndex in index {
      DeltaMapPair(LegsOf(index, fills[..i]), Leg(index[f.makerIndex], f.amount, f.price), Leg(index[f.takerIndex], f.amount, f.price));
    } else {
      assert LegsOf(index, fills[..i]) + [] == LegsOf(index, fills[..i]);
    }
  }

  method AddFillToDeltas(deltas: map<string, Delta>, index: map<nat, Order>, f: MatchFill) returns (r: map<string, Delta>)
    requires f.price <= 100
    ensures r == FillAdded(deltas, index, f)
  {
    r := deltas;
    if f.makerIndex in index && f.takerIndex in index {
      r := AddToDelta(r, Leg(index[f.makerIndex], f.amount, f.price));
      r := AddToDelta(r, Leg(index[f.takerIndex], f.amount, f.price));
    }
  }

  method IndexOrders(orders: seq<MatchedOrder>) returns (index: map<nat, Order>)
    ensures index == ByIndex(orders)
  {
    index := map[];
    var i := 0;
    while i < |orders|
      invariant i <= |orders| && index == ByIndex(orders[..i])
    {
      index := index[orders[i].orderIndex := orders[i].execution];
      assert orders[..i + 1][..i] == orders[..i];
      i := i + 1;
    }
    assert orders[..i] == orders;
  }

  /** One leg on top of a map of deltas. */
  function WithLeg(deltas: map<string, Delta>, l: Leg): map<string, Delta>
    requires LegOk(l)
  {
    deltas[l.order.wallet := AddLeg(if l.order.wallet in deltas then deltas[l.order.wallet] else NO_DELTA, l)]
  }

  lemma DeltaMapPair(legs: seq<Leg>, a: Leg, b: Leg)
    requires LegsOk(legs) && LegOk(a) && LegOk(b)
    ensures DeltaMap(legs + [a, b]) == WithLeg(WithLeg(DeltaMap(legs), a), b)
  {
    assert (legs + [a, b])[..|legs| + 1] == legs + [a] && (legs + [a])[..|legs|] == legs;
  }

  method AddToDelta(deltas: map<string, Delta>, l: Leg) returns (r: map<string, Delta>)
    requires LegOk(l)
    ensures r == WithLeg(deltas, l)
  {
    var w := l.order.wallet;
    var d := if w in deltas then deltas[w] else NO_DELTA;
    var units := ActualUnits(l.order, l.lots, l.price);
    if l.order.action == Buy {
      if l.order.otype == Limit {
        var reserved := Cost(l.lots, l.order.originalTick);
        d := d.(lockUsed := d.lockUsed + reserved);
        if reserved > units {
          d := d.(refund := d.refund + (reserved - units));
        }
      } else {
        d := d.(lockUsed := d.lockUsed + units);
      }
      d := d.(cash := d.cash - units);
      if l.order.outcome == Yes {
        d := d.(yes := d.yes + l.lots);
      } else {
        d := d.(no := d.no + l.lots);
      }
    } else {
      if l.order.outcome == Yes {
        d := d.(yesUsed := d.yesUsed + l.lots, yes := d.yes - l.lots);
      } else {
        d := d.(noUsed := d.noUsed + l.lots, no := d.no - l.lots);
      }
      d := d.(cash := d.cash + units);
    }
    r := deltas[w := d];
  }

  // ----- Settling wallet by wallet -----

  ghost predicate CashSoFar(g: Ledger, h: Ledger, market: nat, deltas: map<string, Delta>, done: set<string>, v: Verdict) {
    && (forall w :: w in h.cash <==> w in g.cash || w in done)
    && forall w :: w in h.cash ==>
         h.cash[w] == if w in done && w in deltas then SettleOne(At(g, Key(w, market)), deltas[w], v).cash else CashOf(g, w)
  }

  ghost predicate PositionsSoFar(g: Ledger, h: Ledger, market: nat, deltas: map<string, Delta>, done: set<string>, v: Verdict) {
    && (forall k :: k in h.positions <==> k in g.positions || (k.market == market && k.wallet in done))
    && forall k :: k in h.positions ==>
         h.positions[k] == if k.market == market && k.wallet in done && k.wallet in deltas then SettleOne(At(g, k), deltas[k.wallet], v).position
                           else PositionOf(g, k)
  }

  /** The wallets in `done` have been settled, the others are as they were. */
  ghost predicate SettledSoFar(g: Ledger, h: Ledger, market: nat, deltas: map<string, Delta>, done: set<string>, v: Verdict) {
    && CashSoFar(g, h, market, deltas, done, v) && PositionsSoFar(g, h, market, deltas, done, v)
    && h.dirtyCash == g.dirtyCash + done && h.dirtyPositions == g.dirtyPositions + KeysIn(done, market)
  }

  lemma NoneSettled(g: Ledger, market: nat, deltas: map<string, Delta>, v: Verdict)
    ensures SettledSoFar(g, g, market, deltas, deltas.Keys - deltas.Keys, v)
  {
    assert deltas.Keys - deltas.Keys == {};
    assert KeysIn({}, market) == {};
  }

  lemma UntouchedSoFar(g: Ledger, h: Ledger, market: nat, deltas: map<string, Delta>, done: set<string>, w: string, v: Verdict)
    requires SettledSoFar(g, h, market, deltas, done, v) && w !in done
    ensures At(h, Key(w, market)) == At(g, Key(w, market))
  {
  }

  lemma CashOneMore(g: Ledger, h: Ledger, r: Ledger, market: nat, deltas: map<string, Delta>, done: set<string>, w: string, v: Verdict)
    requires CashSoFar(g, h, market, deltas, done, v) && w in deltas
    requires r.cash == h.cash[w := SettleOne(At(g, Key(w, market)), deltas[w], v).cash]
    ensures CashSoFar(g, r, market, deltas, done + {w}, v)
  {
    hide SettleOne, At;
    forall x | x in r.cash
      ensures r.cash[x]
           == if x in done + {w} && x in deltas then SettleOne(At(g, Key(x, market)), deltas[x], v).cash else CashOf(g, x)
    {
      if x == w {
      } else {
        assert x in h.cash;
      }
    }
  }

  lemma PositionsOneMore(g: Ledger, h: Ledger, r: Ledger, market: nat, deltas: map<string, Delta>, done: set<string>, w: string, v: Verdict)
    requires PositionsSoFar(g, h, market, deltas, done, v) && w in deltas
    requires r.positions == h.positions[Key(w, market) := SettleOne(At(g, Key(w, market)), deltas[w], v).position]
    ensures PositionsSoFar(g, r, market, deltas, done + {w}, v)
  {
    hide SettleOne, At;
    forall k: Key
      ensures k in r.positions <==> k in g.positions || (k.market == market && k.wallet in done + {w})
      ensures k in r.positions ==>
                r.positions[k]
                == (if k.market == market && k.wallet in done + {w} && k.wallet in deltas then SettleOne(At(g, k), deltas[k.wallet], v).position
                    else PositionOf(g, k))
    {
      if k == Key(w, market) {
      } else {
        assert k in r.positions <==> k in h.positions;
        assert !(k.market == market && k.wallet == w);
      }
    }
  }

  lemma SettlesOneMore(g: Ledger, h: Ledger, market: nat, deltas: map<string, Delta>, done: set<string>, w: string, v: Verdict)
    requires SettledSoFar(g, h, market, deltas, done, v) && w in deltas && w !in done
    ensures SettledSoFar(g, Put(h, Key(w, market), SettleOne(At(h, Key(w, market)), deltas[w], v)), market, deltas, done + {w}, v)
  {
    UntouchedSoFar(g, h, market, deltas, done, w, v);
    hide SettleOne, At, CashSoFar, PositionsSoFar;
    var r := Put(h, Key(w, market), SettleOne(At(h, Key(w, market)), deltas[w], v));
    CashOneMore(g, h, r, market, deltas, done, w, v);
    PositionsOneMore(g, h, r, market, deltas, done, w, v);
    KeysOneMore(done, w, market);
  }

  lemma KeysOneMore(done: set<string>, w: string, market: nat)
    ensures KeysIn(done + {w}, market) == KeysIn(done, market) + {Key(w, market)}
  {
  }

  lemma SettledAll(g: Ledger, h: Ledger, market: nat, deltas: map<string, Delta>, v: Verdict)
    requires SettledSoFar(g, h, market, deltas, deltas.Keys, v)
    ensures h == SettleAll(g, market, deltas, v)
  {
    AllCashSettled(g, h, market, deltas, v);
    AllPositionsSettled(g, h, market, deltas, v);
    hide SettledCash, SettledPositions, CashSoFar, PositionsSoFar;
  }

  lemma AllCashSettled(g: Ledger, h: Ledger, market: nat, deltas: map<string, Delta>, v: Verdict)
    requires CashSoFar(g, h, market, deltas, deltas.Keys, v)
    ensures h.cash == SettledCash(g, market, deltas, v)
  {
    hide SettleOne, At;
    var r := SettledCash(g, market, deltas, v);
    forall w
      ensures w in r <==> w in h.cash
      ensures w in r ==> r[w] == h.cash[w]
    {
      if w in deltas {
        assert r[w] == SettleOne(At(g, Key(w, market)), deltas[w], v).cash;
      }
    }
  }

  lemma AllPositionsSettled(g: Ledger, h: Ledger, market: nat, deltas: map<string, Delta>, v: Verdict)
    requires PositionsSoFar(g, h, market, deltas, deltas.Keys, v)
    ensures h.positions == SettledPositions(g, market, deltas, v)
  {
    hide SettleOne, At;
    var r := SettledPositions(g, market, deltas, v);
    forall k: Key
      ensures k in r <==> k in h.positions
      ensures k in r ==> r[k] == h.positions[k]
    {
      InKeys(deltas.Keys, market, k);
    }
  }

  lemma InKeys(ws: set<string>, market: nat, k: Key)
    ensures k in KeysIn(ws, market) <==> k.market == market && k.wallet in ws
  {
    if k.market == market && k.wallet in ws {
      assert k == Key(k.wallet, market);
    }
  }
}
