/** Money and shares are neither made nor lost, up to one unit for each fill that mints or burns a set. */
module Conservation {
  import opened Types
  import opened Rounding
  import opened Matching
  import opened Batch
  import opened Accounts
  import opened Deltas
  import opened Ledgers
  import opened Inflight
  import opened FundsService
  import opened Pending

  datatype Measure = Money | Stock(market: nat, outcome: Outcome)

  function Holding(s: Shares): int {
    s.available + s.locked + s.pending
  }

  /** What one wallet holds: available, locked and pending together. */
  function Held(g: Ledger, w: string, x: Measure): int {
    match x
    case Money => CashOf(g, w).available + CashOf(g, w).locked + CashOf(g, w).pending
    case Stock(m, o) => Holding(PositionOf(g, Key(w, m)).Of(o))
  }

  function Total(g: Ledger, ws: seq<string>, x: Measure): int {
    if ws == [] then 0 else Total(g, ws[..|ws| - 1], x) + Held(g, ws[|ws| - 1], x)
  }

  // ----- What legs move -----

  function LegNet(l: Leg, market: nat, x: Measure): int
    requires LegOk(l)
  {
    match x
    case Money => if l.order.action == Sell then LegUnits(l) else -(LegUnits(l) as int)
    case Stock(m, o) => if m != market || l.order.outcome != o then 0 else if l.order.action == Buy then l.lots else -(l.lots as int)
  }

  function Net(legs: seq<Leg>, market: nat, x: Measure): int
    requires LegsOk(legs)
  {
    if legs == [] then 0 else Net(legs[..|legs| - 1], market, x) + LegNet(legs[|legs| - 1], market, x)
  }

  lemma {:induction false} NetIsDelta(legs: seq<Leg>, market: nat)
    requires LegsOk(legs)
    ensures Net(legs, market, Money) == Proceeds(legs) - Spent(legs)
    ensures Net(legs, market, Stock(market, Yes)) == Moved(legs, Buy, Yes) - Moved(legs, Sell, Yes)
    ensures Net(legs, market, Stock(market, No)) == Moved(legs, Buy, No) - Moved(legs, Sell, No)
  {
    if legs != [] { NetIsDelta(legs[..|legs| - 1], market); }
  }

  lemma {:induction false} NetElsewhere(legs: seq<Leg>, market: nat, m: nat, o: Outcome)
    requires LegsOk(legs) && m != market
    ensures Net(legs, market, Stock(m, o)) == 0
  {
    if legs != [] { NetElsewhere(legs[..|legs| - 1], market, m, o); }
  }

  function NetMine(legs: seq<Leg>, w: string, market: nat, x: Measure): int
    requires LegsOk(legs)
  {
    MineIsSubset(legs, w);
    Net(Mine(legs, w), market, x)
  }

  lemma NetMineLast(legs: seq<Leg>, w: string, market: nat, x: Measure)
    requires LegsOk(legs) && legs != []
    ensures NetMine(legs, w, market, x)
         == NetMine(legs[..|legs| - 1], w, market, x)
            + (if legs[|legs| - 1].order.wallet == w then LegNet(legs[|legs| - 1], market, x) else 0)
  {
    MineLast(legs, w);
    var front := Mine(legs[..|legs| - 1], w);
    assert (front + [legs[|legs| - 1]])[..|front|] == front;
  }

  function SumMine(legs: seq<Leg>, ws: seq<string>, market: nat, x: Measure): int
    requires LegsOk(legs)
  {
    if ws == [] then 0 else SumMine(legs, ws[..|ws| - 1], market, x) + NetMine(legs, ws[|ws| - 1], market, x)
  }

  predicate Distinct(ws: seq<string>) {
    forall i, j :: 0 <= i < j < |ws| ==> ws[i] != ws[j]
  }

  lemma InAll(ws: seq<string>, w: string)
    requires Distinct(ws) && ws != []
    ensures var n := |ws| - 1;
      Distinct(ws[..n]) && (w in ws <==> w in ws[..n] || w == ws[n]) && !(w in ws[..n] && w == ws[n])
  {
    assert ws == ws[..|ws| - 1] + [ws[|ws| - 1]];
  }

  lemma {:induction false} SumMineLast(legs: seq<Leg>, ws: seq<string>, market: nat, x: Measure)
    requires LegsOk(legs) && legs != [] && Distinct(ws)
    ensures SumMine(legs, ws, market, x)
         == SumMine(legs[..|legs| - 1], ws, market, x)
            + (if legs[|legs| - 1].order.wallet in ws then LegNet(legs[|legs| - 1], market, x) else 0)
  {
    if ws != [] {
      var n := |ws| - 1;
      InAll(ws, legs[|legs| - 1].order.wallet);
      hide Distinct, NetMine, LegNet;
      SumMineLast(legs, ws[..n], market, x);
      NetMineLast(legs, ws[n], market, x);
    }
  }

  lemma {:induction false} SumMineEmpty(ws: seq<string>, market: nat, x: Measure)
    ensures SumMine([], ws, market, x) == 0
  {
    if ws != [] { SumMineEmpty(ws[..|ws| - 1], market, x); }
  }

  predicate Among(legs: seq<Leg>, ws: seq<string>) {
    forall i :: 0 <= i < |legs| ==> legs[i].order.wallet in ws
  }

  /** Summed over a list of wallets that has everyone once, the wallets' shares of the legs are the legs. */
  lemma {:induction false} SumMineIsNet(legs: seq<Leg>, ws: seq<string>, market: nat, x: Measure)
    requires LegsOk(legs) && Distinct(ws) && Among(legs, ws)
    ensures SumMine(legs, ws, market, x) == Net(legs, market, x)
  {
    if legs == [] {
      SumMineEmpty(ws, market, x);
    } else {
      SumMineLast(legs, ws, market, x);
      SumMineIsNet(legs[..|legs| - 1], ws, market, x);
    }
  }

  // ----- What applying and settling do to one wallet -----

  /** Nothing is cut short when the batch is applied, and no buy pays more than its own price. */
  ghost predicate Solid(g: Ledger, b: BatchEvent, w: string)
    requires EventOk(b)
  {
    && LegsOk(Mine(Legs(b), w))
    && NoClamp(At(g, Key(w, b.market)), Mine(Legs(b), w)) && Protected(Mine(Legs(b), w))
  }

  /** What an account holds of a measure that its own market can change. */
  function HeldHere(a: Account, x: Measure): int {
    match x
    case Money => a.cash.available + a.cash.locked + a.cash.pending
    case Stock(_, o) => Holding(a.position.Of(o))
  }

  predicate Local(x: Measure, market: nat) {
    x.Stock? ==> x.market == market
  }

  lemma FillsHold(a: Account, legs: seq<Leg>, market: nat, x: Measure)
    requires LegsOk(legs) && NoClamp(a, legs) && Protected(legs) && Local(x, market)
    ensures HeldHere(FillAll(a, legs), x) == HeldHere(a, x) + Net(legs, market, x)
  {
    FillsMakePending(a, legs);
    FillsUseLocks(a, legs);
    LocksAreSpentOrRefunded(legs);
    DeltaParts(legs);
    NetIsDelta(legs, market);
  }

  lemma SettlingHolds(a: Account, legs: seq<Leg>, v: Verdict, market: nat, x: Measure)
    requires LegsOk(legs) && OneSided(legs) && Covers(a, SumLegs(legs)) && Local(x, market)
    ensures HeldHere(SettleOne(a, SumLegs(legs), v), x) == HeldHere(a, x) - (if v == Failed then Net(legs, market, x) else 0)
  {
    NetIsDelta(legs, market);
    if v == Confirmed {
      ConfirmMoves(a, legs);
      assert x.Stock? ==> Confirm(a, SumLegs(legs)).position.Of(x.outcome).locked == a.position.Of(x.outcome).locked;
    } else {
      FailMoves(a, legs);
      assert x.Stock? ==> Fail(a, SumLegs(legs)).position.Of(x.outcome).locked == a.position.Of(x.outcome).locked;
    }
  }

  lemma ApplyMoves(g: Ledger, b: BatchEvent, w: string, x: Measure)
    requires EventOk(b) && Solid(g, b, w)
    ensures Held(ApplyBatch(g, b), w, x) == Held(g, w, x) + NetMine(Legs(b), w, b.market, x)
  {
    hide ApplyBatch, Held, NetMine, Solid;
    if Local(x, b.market) { ApplyMovesHere(g, b, w, x); } else { ApplyMovesNothing(g, b, w, x); }
  }

  lemma HeldIsHere(g: Ledger, w: string, market: nat, x: Measure)
    requires Local(x, market)
    ensures Held(g, w, x) == HeldHere(At(g, Key(w, market)), x)
  {
  }

  /** Releases change nothing that is held in all. */
  lemma UpdatesHold(g: Ledger, market: nat, index: map<nat, Order>, us: seq<OrderUpdate>, k: Key, x: Measure)
    ensures HeldHere(At(ApplyUpdates(g, market, index, us), k), x) == HeldHere(At(g, k), x)
  {
    UpdatesKeepPending(g, market, index, us, k);
    hide ApplyUpdates;
  }

  lemma ApplyMovesHere(g: Ledger, b: BatchEvent, w: string, x: Measure)
    requires EventOk(b) && Solid(g, b, w) && Local(x, b.market)
    ensures Held(ApplyBatch(g, b), w, x) == Held(g, w, x) + NetMine(Legs(b), w, b.market, x)
  {
    var (legs, here) := (Legs(b), Key(w, b.market));
    var mine := Mine(legs, w);
    assert LegsOk(mine) && NoClamp(At(g, here), mine) && Protected(mine);
    assert ApplyBatch(g, b) == ApplyUpdates(ApplyLegs(g, b.market, legs), b.market, ByIndex(b.orders), b.updates);
    assert NetMine(legs, w, b.market, x) == Net(mine, b.market, x);
    hide ApplyBatch, ApplyLegs, ApplyUpdates, Held, HeldHere, NetMine, Net, Solid, Legs, Mine, NoClamp, Protected, FillAll, At, EventOk;
    ApplyLegsIsMine(g, b.market, legs, w);
    FillsHold(At(g, here), mine, b.market, x);
    UpdatesHold(ApplyLegs(g, b.market, legs), b.market, ByIndex(b.orders), b.updates, here, x);
    HeldIsHere(g, w, b.market, x);
    HeldIsHere(ApplyBatch(g, b), w, b.market, x);
  }

  lemma ApplyMovesNothing(g: Ledger, b: BatchEvent, w: string, x: Measure)
    requires EventOk(b) && !Local(x, b.market)
    ensures Held(ApplyBatch(g, b), w, x) == Held(g, w, x) + NetMine(Legs(b), w, b.market, x)
  {
    var (legs, k) := (Legs(b), Key(w, x.market));
    assert ApplyBatch(g, b) == ApplyUpdates(ApplyLegs(g, b.market, legs), b.market, ByIndex(b.orders), b.updates);
    MineIsSubset(legs, w);
    NetElsewhere(Mine(legs, w), b.market, x.market, x.outcome);
    hide ApplyBatch, ApplyLegs, ApplyUpdates, HeldHere, Legs, Mine, Net, EventOk;
    ApplyLegsStaysInMarket(g, b.market, legs, k);
    UpdatesHold(ApplyLegs(g, b.market, legs), b.market, ByIndex(b.orders), b.updates, k, x);
    HeldIsHere(g, w, x.market, x);
    HeldIsHere(ApplyLegs(g, b.market, legs), w, x.market, x);
    HeldIsHere(ApplyBatch(g, b), w, x.market, x);
  }

  lemma SettleMoves(g: Ledger, b: BatchEvent, v: Verdict, w: string, x: Measure)
    requires OneSidedBatch(b) && Covers(At(g, Key(w, b.market)), DeltaOf(b, w))
    ensures Held(Settle(g, b, v), w, x)
         == Held(g, w, x) - (if v == Failed then NetMine(Legs(b), w, b.market, x) else 0)
  {
    hide SettleOne, Settle;
    var mine := Mine(Legs(b), w);
    MineIsSubset(Legs(b), w);
    assert OneSided(mine);
    if Local(x, b.market) {
      SettleIsMine(g, b, v, w);
      SettlingHolds(At(g, Key(w, b.market)), mine, v, b.market, x);
    } else {
      SettleStaysInMarket(g, b, v, Key(w, x.market));
      NetElsewhere(mine, b.market, x.market, x.outcome);
    }
  }

  // ----- Totals -----

  lemma {:induction false} TotalApplied(g: Ledger, b: BatchEvent, ws: seq<string>, x: Measure)
    requires EventOk(b) && forall w :: w in ws ==> Solid(g, b, w)
    ensures Total(ApplyBatch(g, b), ws, x) == Total(g, ws, x) + SumMine(Legs(b), ws, b.market, x)
  {
    if ws != [] {
      TotalApplied(g, b, ws[..|ws| - 1], x);
      ApplyMoves(g, b, ws[|ws| - 1], x);
    }
  }

  ghost predicate CoversAll(g: Ledger, b: BatchEvent, ws: seq<string>)
    requires EventOk(b)
  {
    forall w :: w in ws ==> Covers(At(g, Key(w, b.market)), DeltaOf(b, w))
  }

  lemma {:induction false} TotalSettled(g: Ledger, b: BatchEvent, v: Verdict, ws: seq<string>, x: Measure)
    requires OneSidedBatch(b) && CoversAll(g, b, ws)
    ensures Total(Settle(g, b, v), ws, x)
         == Total(g, ws, x) - (if v == Failed then SumMine(Legs(b), ws, b.market, x) else 0)
  {
    if ws != [] {
      TotalSettled(g, b, v, ws[..|ws| - 1], x);
      SettleMoves(g, b, v, ws[|ws| - 1], x);
    }
  }

  // ----- Fills -----

  /** The two orders of a fill trade one outcome, or make or break a set of both. */
  predicate Paired(a: Order, b: Order) {
    if a.outcome == b.outcome then a.action != b.action else a.action == b.action
  }

  predicate WellPaired(index: map<nat, Order>, f: MatchFill) {
    f.makerIndex in index && f.takerIndex in index ==> Paired(index[f.makerIndex], index[f.takerIndex])
  }

  /** Whether the fill mints or burns a set whose price does not split into whole units. */
  function Splits(index: map<nat, Order>, f: MatchFill): nat {
    if f.makerIndex in index && f.takerIndex in index && index[f.makerIndex].outcome != index[f.takerIndex].outcome then 1 else 0
  }

  /** How much more cash-and-sets there is after a fill than before: one unit more for some burns, less for some mints. */
  lemma FillDrift(index: map<nat, Order>, f: MatchFill, market: nat)
    requires f.price <= 100 && WellPaired(index, f)
    ensures var legs := LegsOfFill(index, f);
      && LegsOk(legs)
      && Net(legs, market, Stock(market, Yes)) == Net(legs, market, Stock(market, No))
      && -(Splits(index, f) as int) <= Net(legs, market, Money) + Net(legs, market, Stock(market, Yes)) <= Splits(index, f)
  {
    var legs := LegsOfFill(index, f);
    if f.makerIndex in index && f.takerIndex in index {
      var (a, b) := (Leg(index[f.makerIndex], f.amount, f.price), Leg(index[f.takerIndex], f.amount, f.price));
      assert legs[..1] == [a] && [a][..0] == [];
      ComplementCost(f.amount, f.price);
      forall x: Measure
        ensures Net(legs, market, x) == LegNet(a, market, x) + LegNet(b, market, x)
      {
        assert Net([a], market, x) == LegNet(a, market, x);
      }
    }
  }

  // ----- Batches -----

  lemma {:induction false} NetConcat(a: seq<Leg>, b: seq<Leg>, market: nat, x: Measure)
    requires LegsOk(a) && LegsOk(b)
    ensures LegsOk(a + b) && Net(a + b, market, x) == Net(a, market, x) + Net(b, market, x)
  {
    if b == [] {
      assert a + b == a;
    } else {
      assert (a + b)[..|a + b| - 1] == a + b[..|b| - 1];
      NetConcat(a, b[..|b| - 1], market, x);
    }
  }

  function SplitsOf(index: map<nat, Order>, fills: seq<MatchFill>): nat {
    if fills == [] then 0 else SplitsOf(index, fills[..|fills| - 1]) + Splits(index, fills[|fills| - 1])
  }

  lemma {:induction false} FillsDrift(index: map<nat, Order>, fills: seq<MatchFill>, market: nat)
    requires forall i :: 0 <= i < |fills| ==> fills[i].price <= 100 && WellPaired(index, fills[i])
    ensures var legs := LegsOf(index, fills);
      && Net(legs, market, Stock(market, Yes)) == Net(legs, market, Stock(market, No))
      && -(SplitsOf(index, fills) as int) <= Net(legs, market, Money) + Net(legs, market, Stock(market, Yes)) <= SplitsOf(index, fills)
  {
    if fills != [] {
      var (front, f) := (fills[..|fills| - 1], fills[|fills| - 1]);
      FillsDrift(index, front, market);
      FillDrift(index, f, market);
      NetConcat(LegsOf(index, front), LegsOfFill(index, f), market, Money);
      NetConcat(LegsOf(index, front), LegsOfFill(index, f), market, Stock(market, Yes));
      NetConcat(LegsOf(index, front), LegsOfFill(index, f), market, Stock(market, No));
    }
  }

  /** How many of a batch's fills mint or burn. */
  function BatchSplits(b: BatchEvent): nat {
    SplitsOf(ByIndex(b.orders), b.fills)
  }

  /** How much cash and sets together grow when the batch is applied. */
  function BatchDrift(b: BatchEvent): int
    requires EventOk(b)
  {
    Net(Legs(b), b.market, Money) + Net(Legs(b), b.market, Stock(b.market, Yes))
  }

  predicate PairedBatch(b: BatchEvent) {
    EventOk(b) && forall i :: 0 <= i < |b.fills| ==> WellPaired(ByIndex(b.orders), b.fills[i])
  }

  /** A batch drifts by at most one unit for each fill that mints or burns, and keeps YES less NO. */
  lemma BatchDriftBound(b: BatchEvent)
    requires PairedBatch(b)
    ensures -(BatchSplits(b) as int) <= BatchDrift(b) <= BatchSplits(b)
    ensures Net(Legs(b), b.market, Stock(b.market, Yes)) == Net(Legs(b), b.market, Stock(b.market, No))
  {
    FillsDrift(ByIndex(b.orders), b.fills, b.market);
  }

  // ----- Worth -----

  function Sets(g: Ledger, ws: seq<string>, ms: seq<nat>): int {
    if ms == [] then 0 else Sets(g, ws, ms[..|ms| - 1]) + Total(g, ws, Stock(ms[|ms| - 1], Yes))
  }

  /** Cash and YES shares of some wallets over some markets. */
  function Worth(g: Ledger, ws: seq<string>, ms: seq<nat>): int {
    Total(g, ws, Money) + Sets(g, ws, ms)
  }

  /** YES less NO in one market. */
  function Skew(g: Ledger, ws: seq<string>, m: nat): int {
    Total(g, ws, Stock(m, Yes)) - Total(g, ws, Stock(m, No))
  }

  ghost predicate SameSkew(g: Ledger, h: Ledger, ws: seq<string>) {
    forall m :: Skew(h, ws, m) == Skew(g, ws, m)
  }

  predicate DistinctMarkets(ms: seq<nat>) {
    forall i, j :: 0 <= i < j < |ms| ==> ms[i] != ms[j]
  }

  /** A batch's legs take effect, are taken back, or only change from pending to available. */
  datatype Direction = Done | Undone | Kept {
    function Of(x: int): int {
      match this
      case Done => x
      case Undone => -x
      case Kept => 0
    }
  }

  /** A change of the ledger that moves every measure of the wallets as a batch's legs do, or back. */
  ghost predicate ShiftsBy(g: Ledger, h: Ledger, ws: seq<string>, b: BatchEvent, d: Direction)
    requires EventOk(b)
  {
    forall x :: Total(h, ws, x) == Total(g, ws, x) + d.Of(Net(Legs(b), b.market, x))
  }

  lemma {:induction false} SetsShift(g: Ledger, h: Ledger, ws: seq<string>, ms: seq<nat>, b: BatchEvent, d: Direction)
    requires EventOk(b) && ShiftsBy(g, h, ws, b, d) && DistinctMarkets(ms)
    ensures Sets(h, ws, ms) == Sets(g, ws, ms)
      + (if b.market in ms then d.Of(Net(Legs(b), b.market, Stock(b.market, Yes))) else 0)
  {
    if ms != [] {
      var (front, m) := (ms[..|ms| - 1], ms[|ms| - 1]);
      SetsShift(g, h, ws, front, b, d);
      assert ms == front + [m];
      assert Total(h, ws, Stock(m, Yes)) == Total(g, ws, Stock(m, Yes)) + d.Of(Net(Legs(b), b.market, Stock(m, Yes)));
      if m != b.market { NetElsewhere(Legs(b), b.market, m, Yes); }
    }
  }

  lemma WorthShifts(g: Ledger, h: Ledger, ws: seq<string>, ms: seq<nat>, b: BatchEvent, d: Direction)
    requires PairedBatch(b) && ShiftsBy(g, h, ws, b, d) && DistinctMarkets(ms) && b.market in ms
    ensures Worth(h, ws, ms) == Worth(g, ws, ms) + d.Of(BatchDrift(b))
    ensures SameSkew(g, h, ws)
  {
    SetsShift(g, h, ws, ms, b, d);
    assert Total(h, ws, Money) == Total(g, ws, Money) + d.Of(Net(Legs(b), b.market, Money));
    BatchDriftBound(b);
    forall m
      ensures Skew(h, ws, m) == Skew(g, ws, m)
    {
      if m != b.market {
        NetElsewhere(Legs(b), b.market, m, Yes);
        NetElsewhere(Legs(b), b.market, m, No);
      }
      assert Total(h, ws, Stock(m, Yes)) == Total(g, ws, Stock(m, Yes)) + d.Of(Net(Legs(b), b.market, Stock(m, Yes)));
      assert Total(h, ws, Stock(m, No)) == Total(g, ws, Stock(m, No)) + d.Of(Net(Legs(b), b.market, Stock(m, No)));
    }
  }

  // ----- Single ledger changes -----

  lemma AppliedShifts(g: Ledger, b: BatchEvent, ws: seq<string>)
    requires EventOk(b) && Distinct(ws) && Among(Legs(b), ws) && forall w :: w in ws ==> Solid(g, b, w)
    ensures ShiftsBy(g, ApplyBatch(g, b), ws, b, Direction.Done)
  {
    forall x
      ensures Total(ApplyBatch(g, b), ws, x) == Total(g, ws, x) + Net(Legs(b), b.market, x)
    {
      TotalApplied(g, b, ws, x);
      SumMineIsNet(Legs(b), ws, b.market, x);
    }
  }

  lemma SettledShifts(g: Ledger, b: BatchEvent, v: Verdict, ws: seq<string>)
    requires OneSidedBatch(b) && Distinct(ws) && Among(Legs(b), ws) && CoversAll(g, b, ws)
    ensures ShiftsBy(g, Settle(g, b, v), ws, b, if v == Failed then Undone else Kept)
  {
    assert EventOk(b);
    hide Settle, CoversAll, OneSidedBatch, Net, Total, EventOk;
    forall x
      ensures Total(Settle(g, b, v), ws, x) == Total(g, ws, x) - (if v == Failed then Net(Legs(b), b.market, x) else 0)
    {
      TotalSettled(g, b, v, ws, x);
      SumMineIsNet(Legs(b), ws, b.market, x);
    }
  }

  /** What comes in from outside, or goes out. */
  function Inflow(g: Ledger, f: Effect): int {
    match f
    case Crediting(_, amount) => amount
    case Debiting(w, amount) => -Min(amount, CashOf(g, w).available)
    case _ => 0
  }

  predicate Includes(ws: seq<string>, f: Effect) {
    f.Crediting? || f.Debiting? ==> f.wallet in ws
  }

  /** An account that holds in all what it held before leaves every holding as it was. */
  lemma PutHolds(g: Ledger, k: Key, a: Account, w: string, x: Measure)
    requires a.cash.available + a.cash.locked + a.cash.pending
          == CashOf(g, k.wallet).available + CashOf(g, k.wallet).locked + CashOf(g, k.wallet).pending
    requires forall o :: Holding(a.position.Of(o)) == Holding(PositionOf(g, k).Of(o))
    ensures Held(Put(g, k, a), w, x) == Held(g, w, x)
  {
    if x.Stock? && Key(w, x.market) == k {
    } else if w == k.wallet {
    }
  }

  lemma PutCashHolds(g: Ledger, v: string, c: Wallet, w: string, x: Measure)
    ensures Held(PutCash(g, v, c), w, x) == Held(g, w, x)
         + (if x.Money? && w == v
            then c.available + c.locked + c.pending - CashOf(g, v).available - CashOf(g, v).locked - CashOf(g, v).pending
            else 0)
  {
  }

  lemma OtherHeld(g: Ledger, f: Effect, w: string, x: Measure)
    requires EffectOk(f) && !f.Applying? && !f.Settling?
    ensures Held(Perform(g, f), w, x)
         == Held(g, w, x) + (if x.Money? && (f.Crediting? || f.Debiting?) && f.wallet == w then Inflow(g, f) else 0)
  {
    hide Held, Put, PutCash, Reserve, Release;
    match f
    case Reserving(o, market) =>
      var k := Key(o.wallet, market);
      ReserveMoves(At(g, k), o);
      if Reserve(At(g, k), o).Ok? { PutHolds(g, k, Reserve(At(g, k), o).value, w, x); }
    case Releasing(o, market, qty, refund) =>
      var k := Key(o.wallet, market);
      ReleasePreserves(At(g, k), o, qty, refund);
      PutHolds(g, k, Release(At(g, k), o, qty, refund), w, x);
    case Crediting(v, amount) => PutCashHolds(g, v, Deposit(CashOf(g, v), amount), w, x);
    case Debiting(v, amount) => PutCashHolds(g, v, Withdraw(CashOf(g, v), amount), w, x);
  }

  lemma {:induction false} OtherTotal(g: Ledger, f: Effect, ws: seq<string>, x: Measure)
    requires EffectOk(f) && !f.Applying? && !f.Settling? && Distinct(ws)
    ensures Total(Perform(g, f), ws, x)
         == Total(g, ws, x) + (if x.Money? && (f.Crediting? || f.Debiting?) && f.wallet in ws then Inflow(g, f) else 0)
  {
    if ws != [] {
      OtherTotal(g, f, ws[..|ws| - 1], x);
      OtherHeld(g, f, ws[|ws| - 1], x);
      assert ws == ws[..|ws| - 1] + [ws[|ws| - 1]];
    }
  }

  lemma {:induction false} OtherSets(g: Ledger, f: Effect, ws: seq<string>, ms: seq<nat>)
    requires EffectOk(f) && !f.Applying? && !f.Settling? && Distinct(ws)
    ensures Sets(Perform(g, f), ws, ms) == Sets(g, ws, ms)
  {
    if ms != [] {
      OtherSets(g, f, ws, ms[..|ms| - 1]);
      OtherTotal(g, f, ws, Stock(ms[|ms| - 1], Yes));
    }
  }

  lemma OtherWorth(g: Ledger, f: Effect, ws: seq<string>, ms: seq<nat>)
    requires EffectOk(f) && !f.Applying? && !f.Settling? && Distinct(ws) && Includes(ws, f)
    ensures Worth(Perform(g, f), ws, ms) == Worth(g, ws, ms) + Inflow(g, f)
    ensures forall m :: Skew(Perform(g, f), ws, m) == Skew(g, ws, m)
  {
    OtherTotal(g, f, ws, Money);
    OtherSets(g, f, ws, ms);
    forall m
      ensures Skew(Perform(g, f), ws, m) == Skew(g, ws, m)
    {
      OtherTotal(g, f, ws, Stock(m, Yes));
      OtherTotal(g, f, ws, Stock(m, No));
    }
  }

  // ----- The batches of a history -----

  /** Every batch a history brings, as it is first brought under its id, in order. */
  function Batches(hs: seq<Step>): (bs: seq<BatchEvent>)
    requires LegalSteps(hs)
    ensures AllOk(bs)
  {
    if hs == [] then []
    else
      var (before, last) := (Batches(hs[..|hs| - 1]), hs[|hs| - 1]);
      if last.Take? && last.event.MatchExecuted? && last.event.batch.id != "" && Original(hs[..|hs| - 1], last.event.batch.id) == None then
        before + [last.event.batch]
      else before
  }

  lemma {:induction false} BatchesAre(hs: seq<Step>, b: BatchEvent)
    requires LegalSteps(hs)
    ensures b in Batches(hs) <==> b.id != "" && Original(hs, b.id) == Some(b)
  {
    if hs != [] {
      BatchesAre(hs[..|hs| - 1], b);
    }
  }

  lemma {:induction false} BatchesDiffer(hs: seq<Step>)
    requires LegalSteps(hs)
    ensures DistinctIds(Batches(hs))
  {
    if hs != [] {
      var front := hs[..|hs| - 1];
      BatchesDiffer(front);
      forall i | 0 <= i < |Batches(front)|
        ensures Original(front, Batches(front)[i].id).Some?
      {
        BatchesAre(front, Batches(front)[i]);
      }
    }
  }

  /** The batch has failed, and so is undone. */
  predicate Undid(s: Store, b: BatchEvent) {
    b.id in s.entries && s.entries[b.id].phase == Phase.Done(Failed)
  }

  /** The drift of the batches that have not failed: those in flight and those confirmed. */
  function DriftSince(bs: seq<BatchEvent>, s: Store): int
    requires AllOk(bs)
  {
    if bs == [] then 0
    else DriftSince(bs[..|bs| - 1], s) + (if Undid(s, bs[|bs| - 1]) then 0 else BatchDrift(bs[|bs| - 1]))
  }

  /** How many fills of those batches mint or burn. */
  function SplitsSince(bs: seq<BatchEvent>, s: Store): nat {
    if bs == [] then 0
    else SplitsSince(bs[..|bs| - 1], s) + (if Undid(s, bs[|bs| - 1]) then 0 else BatchSplits(bs[|bs| - 1]))
  }

  lemma {:induction false} DriftBound(bs: seq<BatchEvent>, s: Store)
    requires AllOk(bs) && forall i :: 0 <= i < |bs| ==> PairedBatch(bs[i])
    ensures -(SplitsSince(bs, s) as int) <= DriftSince(bs, s) <= SplitsSince(bs, s)
  {
    if bs != [] {
      DriftBound(bs[..|bs| - 1], s);
      BatchDriftBound(bs[|bs| - 1]);
    }
  }

  lemma {:induction false} DriftSame(bs: seq<BatchEvent>, s: Store, r: Store)
    requires AllOk(bs) && forall i :: 0 <= i < |bs| ==> (Undid(s, bs[i]) <==> Undid(r, bs[i]))
    ensures DriftSince(bs, s) == DriftSince(bs, r)
  {
    hide BatchDrift, Undid;
    if bs != [] {
      DriftSame(bs[..|bs| - 1], s, r);
    }
  }

  lemma DriftMore(bs: seq<BatchEvent>, b: BatchEvent, s: Store)
    requires AllOk(bs) && EventOk(b)
    ensures AllOk(bs + [b]) && DriftSince(bs + [b], s) == DriftSince(bs, s) + (if Undid(s, b) then 0 else BatchDrift(b))
  {
    assert (bs + [b])[..|bs|] == bs;
  }

  /** One batch of the list fails: its drift goes. */
  lemma {:induction false} DriftFails(bs: seq<BatchEvent>, s: Store, r: Store, i: nat)
    requires AllOk(bs) && i < |bs| && !Undid(s, bs[i]) && Undid(r, bs[i])
    requires forall j :: 0 <= j < |bs| && j != i ==> (Undid(s, bs[j]) <==> Undid(r, bs[j]))
    ensures DriftSince(bs, r) == DriftSince(bs, s) - BatchDrift(bs[i])
  {
    hide BatchDrift, Undid;
    if i == |bs| - 1 {
      DriftSame(bs[..i], s, r);
    } else {
      DriftFails(bs[..|bs| - 1], s, r, i);
    }
  }

  // ----- Histories -----

  /** The batch's wallets and market are among those counted, and its fills trade or make or break sets. */
  ghost predicate Counted(b: BatchEvent, ws: seq<string>, ms: seq<nat>) {
    PairedBatch(b) && Among(Legs(b), ws) && b.market in ms
  }

  ghost predicate CountedEvent(e: Event, ws: seq<string>, ms: seq<nat>) {
    match e
    case MatchExecuted(b) => Counted(b, ws, ms)
    case DepositConfirmed(_, w, _) => w in ws
    case WithdrawConfirmed(_, w, _) => w in ws
    case _ => true
  }

  ghost predicate AllSolid(g: Ledger, b: BatchEvent, ws: seq<string>)
    requires EventOk(b)
  {
    forall w :: w in ws ==> Solid(g, b, w)
  }

  /** Every step counts, is fair, and every batch finds what it needs in the locks when it is first applied. */
  ghost predicate Orderly(g: Ledger, hs: seq<Step>, ws: seq<string>, ms: seq<nat>)
    requires LegalSteps(hs)
  {
    hs == [] ||
      var (front, last) := (hs[..|hs| - 1], hs[|hs| - 1]);
      && Orderly(g, front, ws, ms)
      && (last.Take? ==>
            && Fair(last.event) && CountedEvent(last.event, ws, ms)
            && (last.event.MatchExecuted? && IsNew(Run(g, front).store, last.event.batch) ==>
                  AllSolid(Run(g, front).ledger, last.event.batch, ws)))
  }

  function EventInflow(m: Memory, e: Event): int
    requires StoreOk(m.store) && Legal(e)
  {
    var fs := Effects(m, e);
    if |fs| == 1 then Inflow(m.ledger, fs[0]) else 0
  }

  /** Confirmed deposits less what withdrawals took, over a history. */
  function NetDeposits(g: Ledger, hs: seq<Step>): int
    requires LegalSteps(hs)
  {
    if hs == [] then 0
    else
      var (front, last) := (hs[..|hs| - 1], hs[|hs| - 1]);
      NetDeposits(g, front) + (if last.Take? then EventInflow(Run(g, front), last.event) else 0)
  }

  // ----- What each message does to the worth -----

  lemma AllCovered(h: Ledger, live: seq<BatchEvent>, i: nat, ws: seq<string>)
    requires PendingInv(h, live) && i < |live|
    ensures CoversAll(h, live[i], ws)
  {
    forall w | w in ws
      ensures Covers(At(h, Key(w, live[i].market)), DeltaOf(live[i], w))
    {
      NeverCut(h, live, i, w);
    }
  }

  lemma SettleWorth(h: Ledger, live: seq<BatchEvent>, ws: seq<string>, ms: seq<nat>, i: nat, v: Verdict)
    requires PendingInv(h, live) && i < |live| && OneSidedBatch(live[i]) && Counted(live[i], ws, ms)
    requires Distinct(ws) && DistinctMarkets(ms)
    ensures Worth(Settle(h, live[i], v), ws, ms) == Worth(h, ws, ms) - (if v == Failed then BatchDrift(live[i]) else 0)
    ensures SameSkew(h, Settle(h, live[i], v), ws)
  {
    AllCovered(h, live, i, ws);
    CoveredWorth(h, live[i], ws, ms, v);
  }

  lemma CoveredWorth(h: Ledger, b: BatchEvent, ws: seq<string>, ms: seq<nat>, v: Verdict)
    requires OneSidedBatch(b) && Counted(b, ws, ms) && CoversAll(h, b, ws) && Distinct(ws) && DistinctMarkets(ms)
    ensures Worth(Settle(h, b, v), ws, ms) == Worth(h, ws, ms) - (if v == Failed then BatchDrift(b) else 0)
    ensures SameSkew(h, Settle(h, b, v), ws)
  {
    var d := if v == Failed then Undone else Kept;
    assert d.Of(BatchDrift(b)) == -(if v == Failed then BatchDrift(b) else 0);
    hide OneSidedBatch, CoversAll, Settle, ShiftsBy, Worth, SameSkew, BatchDrift, Distinct, DistinctMarkets, PairedBatch, Among, Legs, Net, Direction.Of;
    SettledShifts(h, b, v, ws);
    WorthShifts(h, Settle(h, b, v), ws, ms, b, d);
  }

  lemma ApplyWorth(h: Ledger, b: BatchEvent, ws: seq<string>, ms: seq<nat>)
    requires Counted(b, ws, ms) && AllSolid(h, b, ws) && Distinct(ws) && DistinctMarkets(ms)
    ensures Worth(ApplyBatch(h, b), ws, ms) == Worth(h, ws, ms) + BatchDrift(b) && SameSkew(h, ApplyBatch(h, b), ws)
  {
    AppliedShifts(h, b, ws);
    WorthShifts(h, ApplyBatch(h, b), ws, ms, b, Direction.Done);
  }

  /** A batch when it is first brought; it may have failed already. */
  lemma MatchWorth(m: Memory, at: nat, b: BatchEvent, live: seq<BatchEvent>, ws: seq<string>, ms: seq<nat>)
    requires Sound(m, live) && OneSidedBatch(b) && IsNew(m.store, b) && Counted(b, ws, ms) && AllSolid(m.ledger, b, ws)
    requires Distinct(ws) && DistinctMarkets(ms)
    ensures var h := Handle(m, at, MatchExecuted(b));
      && Worth(h.ledger, ws, ms) == Worth(m.ledger, ws, ms) + (if Undid(h.store, b) then 0 else BatchDrift(b))
      && SameSkew(m.ledger, h.ledger, ws)
  {
    assert EventOk(b);
    MatchLedger(m, at, b);
    NewFailed(m, at, b);
    hide Handle, PendingInv, OneSidedBatch, Counted, AllSolid, Lists, AllOneSided, StoreOk, Undid, SameSkew, Worth, BatchDrift, ApplyBatch, Settle;
    ApplyWorth(m.ledger, b, ws, ms);
    if b.id in m.store.waiting && m.store.waiting[b.id].WasSettled? {
      var applied := ApplyBatch(m.ledger, b);
      AppliedKeepsInv(m.ledger, live, b);
      assert (live + [b])[|live|] == b;
      SettleWorth(applied, live + [b], ws, ms, |live|, m.store.waiting[b.id].verdict);
      SkewTwice(m.ledger, applied, Settle(applied, b, m.store.waiting[b.id].verdict), ws);
    }
  }

  lemma NewFailed(m: Memory, at: nat, b: BatchEvent)
    requires StoreOk(m.store) && EventOk(b) && IsNew(m.store, b)
    ensures Undid(Handle(m, at, MatchExecuted(b)).store, b) <==> b.id in m.store.waiting && m.store.waiting[b.id] == WasSettled(Failed)
  {
  }

  lemma SkewTwice(a: Ledger, b: Ledger, c: Ledger, ws: seq<string>)
    requires SameSkew(a, b, ws) && SameSkew(b, c, ws)
    ensures SameSkew(a, c, ws)
  {
  }

  /** A batch in flight when its verdict comes. */
  lemma EndWorth(m: Memory, at: nat, v: Verdict, live: seq<BatchEvent>, i: nat, ws: seq<string>, ms: seq<nat>)
    requires Sound(m, live) && i < |live| && live[i].id != "" && Counted(live[i], ws, ms) && Distinct(ws) && DistinctMarkets(ms)
    ensures var h := Handle(m, at, SettlementEnded(live[i].id, v));
      && Worth(h.ledger, ws, ms) == Worth(m.ledger, ws, ms) - (if v == Failed then BatchDrift(live[i]) else 0)
      && SameSkew(m.ledger, h.ledger, ws)
  {
    assert InFlight(m.store, live[i]) && OneSidedBatch(live[i]);
    EndLedger(m, at, live[i].id, v);
    hide Handle, PendingInv, OneSidedBatch, Counted, Lists, AllOneSided, StoreOk, SameSkew, Worth, BatchDrift, Settle;
    SettleWorth(m.ledger, live, ws, ms, i, v);
  }

  lemma QuietWorth(m: Memory, at: nat, e: Event, ws: seq<string>, ms: seq<nat>)
    requires StoreOk(m.store) && Legal(e) && Quiet(m, e) && CountedEvent(e, ws, ms) && Distinct(ws)
    ensures var h := Handle(m, at, e);
      && Worth(h.ledger, ws, ms) == Worth(m.ledger, ws, ms) + EventInflow(m, e) && SameSkew(m.ledger, h.ledger, ws)
  {
    var fs := Effects(m, e);
    PerformShort(m.ledger, fs);
    if fs != [] { OtherWorth(m.ledger, fs[0], ws, ms); }
  }

  // ----- Every history -----

  /** Every batch of the history counts, and what has changed is what came in and the drift of what has not failed. */
  ghost predicate Balanced(g: Ledger, m: Memory, inflow: int, bs: seq<BatchEvent>, ws: seq<string>, ms: seq<nat>) {
    && AllOk(bs) && (forall i :: 0 <= i < |bs| ==> Counted(bs[i], ws, ms))
    && Worth(m.ledger, ws, ms) == Worth(g, ws, ms) + inflow + DriftSince(bs, m.store)
    && SameSkew(g, m.ledger, ws)
  }

  lemma Rebalances(g: Ledger, m: Memory, h: Memory, inflow: int, extra: int, change: int,
                   bs: seq<BatchEvent>, cs: seq<BatchEvent>, ws: seq<string>, ms: seq<nat>)
    requires Balanced(g, m, inflow, bs, ws, ms) && AllOk(cs) && SameSkew(m.ledger, h.ledger, ws)
    requires forall i :: 0 <= i < |cs| ==> Counted(cs[i], ws, ms)
    requires Worth(h.ledger, ws, ms) == Worth(m.ledger, ws, ms) + extra + change
    requires DriftSince(cs, h.store) == DriftSince(bs, m.store) + change
    ensures Balanced(g, h, inflow + extra, cs, ws, ms)
  {
    hide Worth, DriftSince, Counted, AllOk;
    SkewTwice(g, m.ledger, h.ledger, ws);
  }

  lemma {:induction false} OrderlyIsFair(g: Ledger, hs: seq<Step>, ws: seq<string>, ms: seq<nat>)
    requires LegalSteps(hs) && Orderly(g, hs, ws, ms)
    ensures FairSteps(hs)
  {
    if hs != [] {
      OrderlyIsFair(g, hs[..|hs| - 1], ws, ms);
    }
  }

  lemma {:induction false} AllBalanced(g: Ledger, hs: seq<Step>, ws: seq<string>, ms: seq<nat>)
    requires LegalSteps(hs) && Orderly(g, hs, ws, ms) && PendingInv(g, []) && Distinct(ws) && DistinctMarkets(ms)
    ensures Balanced(g, Run(g, hs), NetDeposits(g, hs), Batches(hs), ws, ms)
  {
    if hs != [] {
      var front, last := hs[..|hs| - 1], hs[|hs| - 1];
      AllBalanced(g, front, ws, ms);
      if last.Take? {
        StepBalances(g, hs, ws, ms);
      } else {
        DropBalances(g, Run(g, front), last.saved, NetDeposits(g, front), Batches(front), ws, ms);
      }
    }
  }

  lemma DropBalances(g: Ledger, m: Memory, saved: nat, inflow: int, bs: seq<BatchEvent>, ws: seq<string>, ms: seq<nat>)
    requires Balanced(g, m, inflow, bs, ws, ms)
    ensures Balanced(g, m.(store := Evict(m.store, saved)), inflow, bs, ws, ms)
  {
    forall i | 0 <= i < |bs|
      ensures Undid(m.store, bs[i]) <==> Undid(Evict(m.store, saved), bs[i])
    {
    }
    DriftSame(bs, m.store, Evict(m.store, saved));
  }

  lemma StepBalances(g: Ledger, hs: seq<Step>, ws: seq<string>, ms: seq<nat>)
    requires LegalSteps(hs) && Orderly(g, hs, ws, ms) && PendingInv(g, []) && Distinct(ws) && DistinctMarkets(ms)
    requires hs != [] && hs[|hs| - 1].Take?
    requires var front := hs[..|hs| - 1]; Balanced(g, Run(g, front), NetDeposits(g, front), Batches(front), ws, ms)
    ensures Balanced(g, Run(g, hs), NetDeposits(g, hs), Batches(hs), ws, ms)
  {
    var (front, e) := (hs[..|hs| - 1], hs[|hs| - 1].event);
    var m := Run(g, front);
    OrderlyIsFair(g, front, ws, ms);
    var live := PendingIsInFlight(g, front);
    if e.MatchExecuted? && IsNew(m.store, e.batch) {
      NewBalances(g, hs, live, ws, ms);
    } else if e.SettlementEnded? && e.id != "" && Transitions(m.store, e.id) {
      EndBalances(g, hs, live, ws, ms);
    } else {
      QuietStepBalances(g, hs, ws, ms);
    }
  }

  lemma StepIsHandle(g: Ledger, hs: seq<Step>)
    requires LegalSteps(hs) && hs != [] && hs[|hs| - 1].Take?
    ensures var (front, e) := (hs[..|hs| - 1], hs[|hs| - 1].event);
      && Legal(e) && Run(g, hs) == Handle(Run(g, front), |hs|, e)
      && NetDeposits(g, hs) == NetDeposits(g, front) + EventInflow(Run(g, front), e)
  {
  }

  /** Matches and verdicts bring nothing in from outside. */
  lemma NothingComesIn(m: Memory, e: Event)
    requires StoreOk(m.store) && Legal(e) && (e.MatchExecuted? || e.SettlementEnded?)
    ensures EventInflow(m, e) == 0
  {
  }

  /** A new batch is the next of the history's batches, and nothing else changes its phase. */
  lemma NewBatch(g: Ledger, hs: seq<Step>)
    requires LegalSteps(hs) && hs != [] && hs[|hs| - 1].Take? && hs[|hs| - 1].event.MatchExecuted?
    requires IsNew(Run(g, hs[..|hs| - 1]).store, hs[|hs| - 1].event.batch)
    ensures var (front, b) := (hs[..|hs| - 1], hs[|hs| - 1].event.batch);
      && Batches(hs) == Batches(front) + [b]
      && forall i :: 0 <= i < |Batches(front)| ==>
           (Undid(Run(g, front).store, Batches(front)[i]) <==> Undid(Run(g, hs).store, Batches(front)[i]))
  {
    var (front, e) := (hs[..|hs| - 1], hs[|hs| - 1].event);
    ExactlyOnce(g, front, e.batch.id);
    forall i | 0 <= i < |Batches(front)|
      ensures Undid(Run(g, front).store, Batches(front)[i]) <==> Undid(Run(g, hs).store, Batches(front)[i])
    {
      BatchesAre(front, Batches(front)[i]);
      OthersStay(Run(g, front).store, |hs|, e, Batches(front)[i].id);
    }
  }

  lemma NewBalances(g: Ledger, hs: seq<Step>, live: seq<BatchEvent>, ws: seq<string>, ms: seq<nat>)
    requires LegalSteps(hs) && Orderly(g, hs, ws, ms) && Distinct(ws) && DistinctMarkets(ms)
    requires hs != [] && hs[|hs| - 1].Take? && hs[|hs| - 1].event.MatchExecuted?
    requires var front := hs[..|hs| - 1];
      && IsNew(Run(g, front).store, hs[|hs| - 1].event.batch) && Sound(Run(g, front), live)
      && Balanced(g, Run(g, front), NetDeposits(g, front), Batches(front), ws, ms)
    ensures Balanced(g, Run(g, hs), NetDeposits(g, hs), Batches(hs), ws, ms)
  {
    var (front, b) := (hs[..|hs| - 1], hs[|hs| - 1].event.batch);
    var m := Run(g, front);
    NewBatch(g, hs);
    StepIsHandle(g, hs);
    NothingComesIn(m, MatchExecuted(b));
    assert Counted(b, ws, ms) && AllSolid(m.ledger, b, ws) && OneSidedBatch(b) && EventOk(b);
    hide Run, NetDeposits, EventInflow, Handle, Batches, Undid, DriftSince, Sound, Worth, BatchDrift, Orderly, Counted, AllSolid, SameSkew;
    MatchWorth(m, |hs|, b, live, ws, ms);
    DriftSame(Batches(front), m.store, Run(g, hs).store);
    DriftMore(Batches(front), b, Run(g, hs).store);
    Rebalances(g, m, Run(g, hs), NetDeposits(g, front), 0, if Undid(Run(g, hs).store, b) then 0 else BatchDrift(b),
               Batches(front), Batches(hs), ws, ms);
  }

  /** A verdict for a batch in flight: one of the history's batches gets its phase, and no other changes. */
  lemma EndedBatch(g: Ledger, hs: seq<Step>, live: seq<BatchEvent>) returns (i: nat, j: nat)
    requires LegalSteps(hs) && hs != [] && hs[|hs| - 1].Take? && hs[|hs| - 1].event.SettlementEnded?
    requires var (front, e) := (hs[..|hs| - 1], hs[|hs| - 1].event);
      e.id != "" && Transitions(Run(g, front).store, e.id) && Lists(Run(g, front).store, live)
    ensures var (front, e) := (hs[..|hs| - 1], hs[|hs| - 1].event);
      var (bs, s, r) := (Batches(front), Run(g, front).store, Run(g, hs).store);
      && i < |bs| && j < |live| && bs[i] == live[j] && live[j].id == e.id && Batches(hs) == bs
      && !Undid(s, bs[i]) && (Undid(r, bs[i]) <==> e.verdict == Failed)
      && forall k :: 0 <= k < |bs| && k != i ==> (Undid(s, bs[k]) <==> Undid(r, bs[k]))
  {
    var (front, e) := (hs[..|hs| - 1], hs[|hs| - 1].event);
    var (s, bs) := (Run(g, front).store, Batches(front));
    ExactlyOnce(g, front, e.id);
    assert HasId(live, e.id);
    j :| 0 <= j < |live| && live[j].id == e.id;
    assert InFlight(s, live[j]);
    BatchesAre(front, live[j]);
    i :| 0 <= i < |bs| && bs[i] == live[j];
    BatchesDiffer(front);
    forall k | 0 <= k < |bs| && k != i
      ensures Undid(s, bs[k]) <==> Undid(Run(g, hs).store, bs[k])
    {
      assert bs[k].id != e.id;
      OthersStay(s, |hs|, e, bs[k].id);
    }
  }

  lemma EndDrift(bs: seq<BatchEvent>, s: Store, r: Store, i: nat, v: Verdict)
    requires AllOk(bs) && i < |bs| && !Undid(s, bs[i]) && (Undid(r, bs[i]) <==> v == Failed)
    requires forall k :: 0 <= k < |bs| && k != i ==> (Undid(s, bs[k]) <==> Undid(r, bs[k]))
    ensures DriftSince(bs, r) == DriftSince(bs, s) + (if v == Failed then -BatchDrift(bs[i]) else 0)
  {
    hide Undid, BatchDrift, DriftSince;
    if v == Failed { DriftFails(bs, s, r, i); } else { DriftSame(bs, s, r); }
  }

  lemma EndBalances(g: Ledger, hs: seq<Step>, live: seq<BatchEvent>, ws: seq<string>, ms: seq<nat>)
    requires LegalSteps(hs) && Distinct(ws) && DistinctMarkets(ms)
    requires hs != [] && hs[|hs| - 1].Take? && hs[|hs| - 1].event.SettlementEnded?
    requires var (front, e) := (hs[..|hs| - 1], hs[|hs| - 1].event);
      && e.id != "" && Transitions(Run(g, front).store, e.id) && Sound(Run(g, front), live)
      && Balanced(g, Run(g, front), NetDeposits(g, front), Batches(front), ws, ms)
    ensures Balanced(g, Run(g, hs), NetDeposits(g, hs), Batches(hs), ws, ms)
  {
    var (front, e) := (hs[..|hs| - 1], hs[|hs| - 1].event);
    var (m, bs) := (Run(g, front), Batches(front));
    var i, j := EndedBatch(g, hs, live);
    StepIsHandle(g, hs);
    NothingComesIn(m, e);
    assert Counted(bs[i], ws, ms) && e == SettlementEnded(live[j].id, e.verdict);
    assert StoreOk(m.store) && EventOk(bs[i]) && AllOk(bs) && forall k :: 0 <= k < |bs| ==> Counted(bs[k], ws, ms);
    hide *;
    EndWorth(m, |hs|, e.verdict, live, j, ws, ms);
    EndDrift(bs, m.store, Run(g, hs).store, i, e.verdict);
    Rebalances(g, m, Run(g, hs), NetDeposits(g, front), 0, if e.verdict == Failed then -BatchDrift(bs[i]) else 0, bs, bs, ws, ms);
  }

  lemma QuietPhases(m: Memory, at: nat, e: Event, bs: seq<BatchEvent>)
    requires StoreOk(m.store) && Legal(e) && Quiet(m, e)
    ensures forall k :: 0 <= k < |bs| ==> (Undid(m.store, bs[k]) <==> Undid(Handle(m, at, e).store, bs[k]))
  {
    hide PerformAll, Effects;
  }

  lemma QuietStepBalances(g: Ledger, hs: seq<Step>, ws: seq<string>, ms: seq<nat>)
    requires LegalSteps(hs) && Orderly(g, hs, ws, ms) && Distinct(ws) && hs != [] && hs[|hs| - 1].Take?
    requires var front := hs[..|hs| - 1];
      Quiet(Run(g, front), hs[|hs| - 1].event) && Balanced(g, Run(g, front), NetDeposits(g, front), Batches(front), ws, ms)
    ensures Balanced(g, Run(g, hs), NetDeposits(g, hs), Batches(hs), ws, ms)
  {
    var (front, e) := (hs[..|hs| - 1], hs[|hs| - 1].event);
    var (m, bs) := (Run(g, front), Batches(front));
    if e.MatchExecuted? && e.batch.id != "" { ExactlyOnce(g, front, e.batch.id); }
    assert Batches(hs) == bs;
    StepIsHandle(g, hs);
    assert Legal(e) && CountedEvent(e, ws, ms);
    QuietPhases(m, |hs|, e, bs);
    hide Run, NetDeposits, Handle, Batches, Undid, DriftSince, Worth, Orderly, EventInflow, SameSkew, Quiet, Legal, CountedEvent;
    QuietWorth(m, |hs|, e, ws, ms);
    DriftSame(bs, m.store, Run(g, hs).store);
    Rebalances(g, m, Run(g, hs), NetDeposits(g, front), EventInflow(m, e), 0, bs, bs, ws, ms);
  }

  /**
   * Conservation over every history: what a set of wallets holds in cash and YES shares is what it held before,
   * plus what was deposited, less what was withdrawn, plus the drift of the batches in flight and confirmed. Failed
   * batches leave no trace. In every market YES less NO never changes.
   */
  lemma Conserved(g: Ledger, hs: seq<Step>, ws: seq<string>, ms: seq<nat>)
    requires LegalSteps(hs) && Orderly(g, hs, ws, ms) && PendingInv(g, []) && Distinct(ws) && DistinctMarkets(ms)
    ensures Worth(Run(g, hs).ledger, ws, ms)
         == Worth(g, ws, ms) + NetDeposits(g, hs) + DriftSince(Batches(hs), Run(g, hs).store)
    ensures forall m :: Skew(Run(g, hs).ledger, ws, m) == Skew(g, ws, m)
  {
    AllBalanced(g, hs, ws, ms);
  }

  /** So it drifts by at most one unit for each fill that mints or burns in a batch in flight or confirmed. */
  lemma DriftIsBounded(g: Ledger, hs: seq<Step>, ws: seq<string>, ms: seq<nat>)
    requires LegalSteps(hs) && Orderly(g, hs, ws, ms) && PendingInv(g, []) && Distinct(ws) && DistinctMarkets(ms)
    ensures var drift := Worth(Run(g, hs).ledger, ws, ms) - Worth(g, ws, ms) - NetDeposits(g, hs);
      -(SplitsSince(Batches(hs), Run(g, hs).store) as int) <= drift <= SplitsSince(Batches(hs), Run(g, hs).store)
  {
    AllBalanced(g, hs, ws, ms);
    var bs := Batches(hs);
    forall i | 0 <= i < |bs|
      ensures PairedBatch(bs[i])
    {
      assert Counted(bs[i], ws, ms);
    }
    DriftBound(bs, Run(g, hs).store);
  }
}
