/** One wallet's cash together with its position in one market, and what each ledger operation makes of them. */
module Accounts {
  import opened Types
  import opened Rounding
  import opened Matching

  datatype Wallet = Wallet(available: nat, locked: nat, pending: int)

  /** One outcome's shares in a position. */
  datatype Shares = Shares(available: nat, locked: nat, pending: int)

  datatype Position = Position(yes: Shares, no: Shares, collateral: nat) {
    function Of(o: Outcome): Shares {
      if o == Yes then yes else no
    }

    function With(o: Outcome, s: Shares): Position {
      if o == Yes then this.(yes := s) else this.(no := s)
    }
  }

  datatype Account = Account(cash: Wallet, position: Position)

  const NO_CASH := Wallet(0, 0, 0)
  const NO_SHARES := Shares(0, 0, 0)
  const NO_POSITION := Position(NO_SHARES, NO_SHARES, 0)

  function Min(a: int, b: int): int {
    if a < b then a else b
  }

  /** What must be locked to place an order. */
  function RequiredReserve(o: Order): nat {
    if o.otype == Market then o.spend else Cost(o.qty, o.originalTick)
  }

  datatype ReserveError = InsufficientCash(available: nat, required: nat) | InsufficientShares(available: nat, required: nat)

  function Reserve(a: Account, o: Order): Result<Account, ReserveError> {
    if o.action == Buy then
      var units := RequiredReserve(o);
      if a.cash.available < units then Err(InsufficientCash(a.cash.available, units))
      else Ok(Account(a.cash.(available := a.cash.available - units, locked := a.cash.locked + units),
                      a.position.(collateral := a.position.collateral + units)))
    else
      var s := a.position.Of(o.outcome);
      if s.available < o.qty then Err(InsufficientShares(s.available, o.qty))
      else Ok(a.(position := a.position.With(o.outcome, s.(available := s.available - o.qty, locked := s.locked + o.qty))))
  }

  /** What a release of `qty` lots asks to unlock; a refund of zero means it must be worked out. */
  function ReleaseUnits(o: Order, qty: nat, refund: nat): nat {
    if refund != 0 then refund
    else if o.otype == Market then o.spend
    else Cost(qty, o.originalTick)
  }

  /** Gives back what remains of an order, never more than is locked. */
  function Release(a: Account, o: Order, qty: nat, refund: nat): Account {
    if o.action == Buy then
      var unlock := Min(ReleaseUnits(o, qty, refund), a.cash.locked);
      Account(a.cash.(locked := a.cash.locked - unlock, available := a.cash.available + unlock),
              a.position.(collateral := a.position.collateral - Min(unlock, a.position.collateral)))
    else
      var s := a.position.Of(o.outcome);
      var back := Min(qty, s.locked);
      a.(position := a.position.With(o.outcome, s.(locked := s.locked - back, available := s.available + back)))
  }

  /** One order's side of one fill. */
  datatype Leg = Leg(order: Order, lots: nat, price: nat)

  predicate LegOk(l: Leg) {
    l.price <= 100
  }

  function LegUnits(l: Leg): nat
    requires LegOk(l)
  {
    ActualUnits(l.order, l.lots, l.price)
  }

  /** What a buy takes out of its lock for a fill: a limit order its own price, a market order the price paid. */
  function LegLock(l: Leg): nat
    requires LegOk(l)
  {
    if l.order.otype == Limit then Cost(l.lots, l.order.originalTick) else LegUnits(l)
  }

  function FillCash(w: Wallet, l: Leg): Wallet
    requires LegOk(l)
  {
    if l.order.action == Sell then w.(pending := w.pending + LegUnits(l))
    else
      var taken := Min(LegLock(l), w.locked);
      var better := if l.order.otype == Limit && taken > LegUnits(l) then taken - LegUnits(l) else 0;
      w.(locked := w.locked - taken, available := w.available + better)
  }

  function FillPosition(p: Position, w: Wallet, l: Leg): Position
    requires LegOk(l)
  {
    var s := p.Of(l.order.outcome);
    if l.order.action == Sell then
      p.With(l.order.outcome, s.(locked := s.locked - Min(l.lots, s.locked)))
    else
      p.(collateral := p.collateral - Min(Min(LegLock(l), w.locked), p.collateral))
       .With(l.order.outcome, s.(pending := s.pending + l.lots))
  }

  function Fill(a: Account, l: Leg): Account
    requires LegOk(l)
  {
    Account(FillCash(a.cash, l), FillPosition(a.position, a.cash, l))
  }

  // ----- The batch as one wallet sees it -----

  /** The total effect of a batch's fills on one wallet. */
  datatype Delta = Delta(lockUsed: nat, refund: nat, cash: int, yes: int, no: int, yesUsed: nat, noUsed: nat)

  const NO_DELTA := Delta(0, 0, 0, 0, 0, 0, 0)

  function AddLeg(d: Delta, l: Leg): Delta
    requires LegOk(l)
  {
    var units := LegUnits(l);
    if l.order.action == Buy then
      var better := if l.order.otype == Limit && LegLock(l) > units then LegLock(l) - units else 0;
      var paid := d.(lockUsed := d.lockUsed + LegLock(l), refund := d.refund + better, cash := d.cash - units);
      if l.order.outcome == Yes then paid.(yes := d.yes + l.lots) else paid.(no := d.no + l.lots)
    else
      var sold := d.(cash := d.cash + units);
      if l.order.outcome == Yes then sold.(yesUsed := d.yesUsed + l.lots, yes := d.yes - l.lots)
      else sold.(noUsed := d.noUsed + l.lots, no := d.no - l.lots)
  }

  /** Moves up to `wanted` from pending to available, if there is anything to move. */
  function Realise(available: nat, pending: int, wanted: int): (nat, int) {
    var moved := Min(wanted, pending);
    if wanted > 0 && moved > 0 then (available + moved, pending - moved) else (available, pending)
  }

  function RealiseShares(s: Shares, wanted: int): Shares {
    var (available, pending) := Realise(s.available, s.pending, wanted);
    s.(available := available, pending := pending)
  }

  /** The batch is on chain: what it made pending becomes available. */
  function Confirm(a: Account, d: Delta): Account {
    var (available, pending) := Realise(a.cash.available, a.cash.pending, d.cash);
    Account(a.cash.(available := available, pending := pending),
            a.position.(yes := RealiseShares(a.position.yes, d.yes), no := RealiseShares(a.position.no, d.no)))
  }

  function Withdrawn(pending: int, wanted: int): int {
    var moved := Min(wanted, pending);
    if wanted > 0 && moved > 0 then pending - moved else pending
  }

  /** The batch will never be on chain: pending goes, money paid and shares sold come back. */
  function Fail(a: Account, d: Delta): Account {
    var back := if d.cash < 0 then -d.cash else 0;
    Account(a.cash.(pending := Withdrawn(a.cash.pending, d.cash), available := a.cash.available + back),
            a.position.(yes := a.position.yes.(pending := Withdrawn(a.position.yes.pending, d.yes),
                                               available := a.position.yes.available + d.yesUsed),
                        no := a.position.no.(pending := Withdrawn(a.position.no.pending, d.no),
                                             available := a.position.no.available + d.noUsed)))
  }

  function Deposit(w: Wallet, amount: nat): Wallet {
    w.(available := w.available + amount)
  }

  function Withdraw(w: Wallet, amount: nat): Wallet {
    w.(available := if w.available < amount then 0 else w.available - amount)
  }

  // ----- Single operations -----

  /** A reservation succeeds exactly when enough is free, moves exactly that, and creates nothing. */
  lemma ReserveMoves(a: Account, o: Order)
    ensures Reserve(a, o).Ok? <==>
      (if o.action == Buy then RequiredReserve(o) <= a.cash.available else o.qty <= a.position.Of(o.outcome).available)
    ensures Reserve(a, o).Ok? ==> SameHoldings(a, Reserve(a, o).value)
    ensures Reserve(a, o).Ok? && o.action == Buy ==> Reserve(a, o).value.cash.locked == a.cash.locked + RequiredReserve(o)
  {
  }

  /** Available plus locked is the same, for cash and for both outcomes, and nothing pending changed. */
  predicate SameHoldings(a: Account, b: Account) {
    && a.cash.available + a.cash.locked == b.cash.available + b.cash.locked && a.cash.pending == b.cash.pending
    && SameShares(a.position.yes, b.position.yes) && SameShares(a.position.no, b.position.no)
  }

  predicate SameShares(a: Shares, b: Shares) {
    a.available + a.locked == b.available + b.locked && a.pending == b.pending
  }

  /** A release, however often it is repeated and whatever it asks for, creates and destroys nothing. */
  lemma ReleasePreserves(a: Account, o: Order, qty: nat, refund: nat)
    ensures SameHoldings(a, Release(a, o, qty, refund))
    ensures Release(a, o, qty, refund).cash.locked <= a.cash.locked
  {
  }

  /** Placing an order and releasing it whole puts everything back. */
  lemma ReserveThenRelease(a: Account, o: Order)
    requires Reserve(a, o).Ok?
    ensures Release(Reserve(a, o).value, o, o.qty, 0) == a
  {
    assert a.position.With(o.outcome, a.position.Of(o.outcome)) == a.position;
  }

  /**
   * An order's end is told twice, in its batch and by a message of its own, whose order has the refund for its spend.
   * The second telling changes nothing if and only if it asks for nothing or the first left nothing locked.
   */
  lemma ReleasedTwiceIff(a: Account, o: Order, qty: nat, refund: nat)
    ensures var again := o.(spend := refund);
      Release(Release(a, o, qty, refund), again, qty, refund) == Release(a, o, qty, refund)
      <==> if o.action == Buy then
             ReleaseUnits(again, qty, refund) == 0 || a.cash.locked <= ReleaseUnits(o, qty, refund)
           else qty == 0 || a.position.Of(o.outcome).locked <= qty
  {
    var r := Release(a, o, qty, refund);
    if o.action == Sell {
      var s := r.position.Of(o.outcome);
      assert Release(r, o.(spend := refund), qty, refund).position.Of(o.outcome).locked == s.locked - Min(qty, s.locked);
      assert r.position.With(o.outcome, s) == r.position;
    }
  }

  /** Otherwise it takes from others: of two equal buys one is called off, told twice, and the other has no lock left. */
  lemma SecondReleaseTakesOthers(a: Account, o: Order)
    requires a.cash.locked == 0 && o.action == Buy && o.otype == Limit && RequiredReserve(o) > 0
    requires a.cash.available >= 2 * RequiredReserve(o)
    ensures Reserve(a, o).Ok? && Reserve(Reserve(a, o).value, o).Ok?
    ensures var placed := Reserve(Reserve(a, o).value, o).value;
      var once := Release(placed, o, o.qty, RequiredReserve(o));
      && once.cash.locked == RequiredReserve(o)
      && Release(once, o.(spend := RequiredReserve(o)), o.qty, RequiredReserve(o)).cash.locked == 0
  {
  }
}
