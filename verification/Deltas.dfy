/** A batch of fills as one wallet sees it: the fills one by one, and the netted delta that later settles them. */
module Deltas {
  import opened Types
  import opened Rounding
  import opened Matching
  import opened Accounts

  predicate LegsOk(legs: seq<Leg>) {
    forall i :: 0 <= i < |legs| ==> LegOk(legs[i])
  }

  /** The fills applied one after another. */
  function FillAll(a: Account, legs: seq<Leg>): Account
    requires LegsOk(legs)
  {
    if legs == [] then a else Fill(FillAll(a, legs[..|legs| - 1]), legs[|legs| - 1])
  }

  /** The netted delta. */
  function SumLegs(legs: seq<Leg>): Delta
    requires LegsOk(legs)
  {
    if legs == [] then NO_DELTA else AddLeg(SumLegs(legs[..|legs| - 1]), legs[|legs| - 1])
  }

  // ----- What the fills amount to -----

  /** Money received for shares sold. */
  function Proceeds(legs: seq<Leg>): nat
    requires LegsOk(legs)
  {
    if legs == [] then 0
    else Proceeds(legs[..|legs| - 1]) + (if legs[|legs| - 1].order.action == Sell then LegUnits(legs[|legs| - 1]) else 0)
  }

  /** Money paid for shares bought. */
  function Spent(legs: seq<Leg>): nat
    requires LegsOk(legs)
  {
    if legs == [] then 0
    else Spent(legs[..|legs| - 1]) + (if legs[|legs| - 1].order.action == Buy then LegUnits(legs[|legs| - 1]) else 0)
  }

  /** Shares of one outcome bought, or sold. */
  function Moved(legs: seq<Leg>, action: Side, o: Outcome): nat {
    if legs == [] then 0
    else
      var l := legs[|legs| - 1];
      Moved(legs[..|legs| - 1], action, o) + (if l.order.action == action && l.order.outcome == o then l.lots else 0)
  }

  lemma {:induction false} DeltaParts(legs: seq<Leg>)
    requires LegsOk(legs)
    ensures var d := SumLegs(legs);
      && d.cash == Proceeds(legs) - Spent(legs)
      && d.yes == Moved(legs, Buy, Yes) - Moved(legs, Sell, Yes) && d.yesUsed == Moved(legs, Sell, Yes)
      && d.no == Moved(legs, Buy, No) - Moved(legs, Sell, No) && d.noUsed == Moved(legs, Sell, No)
  {
    if legs != [] { DeltaParts(legs[..|legs| - 1]); }
  }

  /** Whatever is locked, fills make exactly the sale proceeds and the shares bought pending. */
  lemma {:induction false} FillsMakePending(a: Account, legs: seq<Leg>)
    requires LegsOk(legs)
    ensures var b := FillAll(a, legs);
      && b.cash.pending == a.cash.pending + Proceeds(legs)
      && b.position.yes.pending == a.position.yes.pending + Moved(legs, Buy, Yes)
      && b.position.no.pending == a.position.no.pending + Moved(legs, Buy, No)
      && b.position.yes.available == a.position.yes.available
      && b.position.no.available == a.position.no.available
  {
    if legs != [] { FillsMakePending(a, legs[..|legs| - 1]); }
  }

  // ----- No clamp -----

  /** The leg takes no more out of a lock than is in it. */
  predicate Fits(a: Account, l: Leg)
    requires LegOk(l)
  {
    if l.order.action == Buy then LegLock(l) <= a.cash.locked else l.lots <= a.position.Of(l.order.outcome).locked
  }

  predicate NoClamp(a: Account, legs: seq<Leg>)
    requires LegsOk(legs)
  {
    legs == [] || (NoClamp(a, legs[..|legs| - 1]) && Fits(FillAll(a, legs[..|legs| - 1]), legs[|legs| - 1]))
  }

  /** Under no clamp the locks lose exactly what the delta says, and the better price comes back at once. */
  lemma {:induction false} FillsUseLocks(a: Account, legs: seq<Leg>)
    requires LegsOk(legs) && NoClamp(a, legs)
    ensures var (b, d) := (FillAll(a, legs), SumLegs(legs));
      && b.cash.locked == a.cash.locked - d.lockUsed
      && b.cash.available == a.cash.available + d.refund
      && b.position.yes.locked == a.position.yes.locked - d.yesUsed
      && b.position.no.locked == a.position.no.locked - d.noUsed
  {
    if legs != [] { FillsUseLocks(a, legs[..|legs| - 1]); }
  }

  /** No fill is cut short if and only if the batch as a whole takes no more than is locked before it. */
  lemma {:induction false} NoClampIff(a: Account, legs: seq<Leg>)
    requires LegsOk(legs)
    ensures var d := SumLegs(legs);
      NoClamp(a, legs) <==>
        d.lockUsed <= a.cash.locked && d.yesUsed <= a.position.yes.locked && d.noUsed <= a.position.no.locked
  {
    if legs != [] {
      NoClampIff(a, legs[..|legs| - 1]);
      if NoClamp(a, legs[..|legs| - 1]) {
        FillsUseLocks(a, legs[..|legs| - 1]);
      }
    }
  }

  // ----- One-sided batches -----

  predicate AllOf(legs: seq<Leg>, action: Side) {
    forall i :: 0 <= i < |legs| ==> legs[i].order.action == action
  }

  /** The wallet does not both buy and sell in the batch. */
  predicate OneSided(legs: seq<Leg>) {
    AllOf(legs, Buy) || AllOf(legs, Sell)
  }

  function Gain(x: int): nat {
    if x > 0 then x else 0
  }

  lemma {:induction false} NoneMoved(legs: seq<Leg>, action: Side, other: Side)
    requires LegsOk(legs) && AllOf(legs, action) && action != other
    ensures if action == Buy then Proceeds(legs) == 0 else Spent(legs) == 0
    ensures Moved(legs, other, Yes) == 0 == Moved(legs, other, No)
  {
    if legs != [] {
      assert AllOf(legs[..|legs| - 1], action);
      NoneMoved(legs[..|legs| - 1], action, other);
    }
  }

  /** For a one-sided wallet the netted delta says exactly what the fills made pending. */
  lemma OneSidedIsExact(legs: seq<Leg>)
    requires LegsOk(legs) && OneSided(legs)
    ensures var d := SumLegs(legs);
      && Gain(d.cash) == Proceeds(legs) && Gain(-d.cash) == Spent(legs)
      && Gain(d.yes) == Moved(legs, Buy, Yes) && Gain(d.no) == Moved(legs, Buy, No)
  {
    DeltaParts(legs);
    if AllOf(legs, Buy) { NoneMoved(legs, Buy, Sell); } else { NoneMoved(legs, Sell, Buy); }
  }

  predicate Priced(legs: seq<Leg>) {
    forall i :: 0 <= i < |legs| ==> legs[i].lots > 0 && ValidTick(legs[i].price)
  }

  lemma {:induction false} SomePaid(legs: seq<Leg>, k: nat)
    requires LegsOk(legs) && Priced(legs) && k < |legs|
    ensures legs[k].order.action == Buy ==> Spent(legs) > 0
    ensures legs[k].order.action == Sell ==> Proceeds(legs) > 0
  {
    var l := legs[|legs| - 1];
    if k == |legs| - 1 {
      CostPositive(l.lots, EffectiveTick(l.order, l.price));
    } else {
      SomePaid(legs[..|legs| - 1], k);
    }
  }

  /** The netted delta says exactly what the fills made pending. */
  predicate NettingIsExact(legs: seq<Leg>)
    requires LegsOk(legs)
  {
    var d := SumLegs(legs);
    Gain(d.cash) == Proceeds(legs) && Gain(d.yes) == Moved(legs, Buy, Yes) && Gain(d.no) == Moved(legs, Buy, No)
  }

  /** Netting loses nothing if and only if the wallet is one-sided. */
  lemma NettingIsExactIff(legs: seq<Leg>)
    requires LegsOk(legs) && Priced(legs)
    ensures NettingIsExact(legs) <==> OneSided(legs)
  {
    if OneSided(legs) {
      OneSidedIsExact(legs);
    } else {
      var i :| 0 <= i < |legs| && legs[i].order.action != Sell;
      var j :| 0 <= j < |legs| && legs[j].order.action != Buy;
      SomePaid(legs, i);
      SomePaid(legs, j);
      DeltaParts(legs);
    }
  }

  // ----- Settling -----

  /** What was made pending is still there. */
  predicate Covers(a: Account, d: Delta) {
    d.cash <= a.cash.pending && d.yes <= a.position.yes.pending && d.no <= a.position.no.pending
  }

  /** Confirming moves exactly what the fills made pending to available. */
  lemma ConfirmMoves(a: Account, legs: seq<Leg>)
    requires LegsOk(legs) && OneSided(legs) && Covers(a, SumLegs(legs))
    ensures var b := Confirm(a, SumLegs(legs));
      && b.cash == a.cash.(pending := a.cash.pending - Proceeds(legs), available := a.cash.available + Proceeds(legs))
      && b.position.collateral == a.position.collateral
      && forall o :: b.position.Of(o) == var s, m := a.position.Of(o), Moved(legs, Buy, o);
           s.(pending := s.pending - m, available := s.available + m)
  {
    OneSidedIsExact(legs);
    assert Moved(legs, Buy, Yes) == Gain(SumLegs(legs).yes) && Moved(legs, Buy, No) == Gain(SumLegs(legs).no);
  }

  lemma FailMoves(a: Account, legs: seq<Leg>)
    requires LegsOk(legs) && OneSided(legs) && Covers(a, SumLegs(legs))
    ensures var b := Fail(a, SumLegs(legs));
      && b.cash == a.cash.(pending := a.cash.pending - Proceeds(legs), available := a.cash.available + Spent(legs))
      && b.position.collateral == a.position.collateral
      && forall o :: b.position.Of(o) == var s := a.position.Of(o);
           s.(pending := s.pending - Moved(legs, Buy, o), available := s.available + Moved(legs, Sell, o))
  {
    OneSidedIsExact(legs);
    DeltaParts(legs);
    assert Moved(legs, Buy, Yes) == Gain(SumLegs(legs).yes) && Moved(legs, Buy, No) == Gain(SumLegs(legs).no);
  }

  predicate SamePending(a: Account, b: Account) {
    && a.cash.pending == b.cash.pending
    && a.position.yes.pending == b.position.yes.pending && a.position.no.pending == b.position.no.pending
  }

  /** A confirmed batch leaves nothing pending behind if and only if the wallet did not both buy and sell in it. */
  lemma ConfirmClearsPendingIff(a: Account, legs: seq<Leg>)
    requires LegsOk(legs) && Priced(legs)
    requires a.cash.pending >= 0 && a.position.yes.pending >= 0 && a.position.no.pending >= 0
    ensures SamePending(a, Confirm(FillAll(a, legs), SumLegs(legs))) <==> OneSided(legs)
  {
    FillsMakePending(a, legs);
    DeltaParts(legs);
    NettingIsExactIff(legs);
  }

  /** Nor does a failed batch, if and only if the same holds. */
  lemma FailClearsPendingIff(a: Account, legs: seq<Leg>)
    requires LegsOk(legs) && Priced(legs)
    requires a.cash.pending >= 0 && a.position.yes.pending >= 0 && a.position.no.pending >= 0
    ensures SamePending(a, Fail(FillAll(a, legs), SumLegs(legs))) <==> OneSided(legs)
  {
    FillsMakePending(a, legs);
    DeltaParts(legs);
    NettingIsExactIff(legs);
  }

  /** Selling and buying back ten lots at fifty in one batch strands five units and ten shares as pending. */
  lemma TwoSidedStrands(sell: Order, buy: Order, a: Account)
    requires sell.action == Sell && sell.outcome == Yes && buy.action == Buy && buy.outcome == Yes
    requires SamePending(a, Account(NO_CASH, NO_POSITION))
    ensures var legs := [Leg(sell, 10, 50), Leg(buy, 10, 50)];
      var b := Confirm(FillAll(a, legs), SumLegs(legs));
      b.cash.pending == 5 && b.position.yes.pending == 10
  {
    var legs := [Leg(sell, 10, 50), Leg(buy, 10, 50)];
    var first := [Leg(sell, 10, 50)];
    assert legs[..1] == first && first[..0] == [];
    FillsMakePending(a, legs);
    DeltaParts(legs);
    assert Proceeds(first) == 5 && Spent(first) == 0 && Moved(first, Buy, Yes) == 0 && Moved(first, Sell, Yes) == 10;
    assert Proceeds(legs) == 5 == Spent(legs);
  }

  /** No limit buy pays more than its own price. */
  predicate Protected(legs: seq<Leg>)
    requires LegsOk(legs)
  {
    forall i :: 0 <= i < |legs| && legs[i].order.action == Buy ==> LegUnits(legs[i]) <= LegLock(legs[i])
  }

  /** Under price protection a lock is spent on the price paid and the better price handed back, and on nothing else. */
  lemma {:induction false} LocksAreSpentOrRefunded(legs: seq<Leg>)
    requires LegsOk(legs) && Protected(legs)
    ensures SumLegs(legs).lockUsed == Spent(legs) + SumLegs(legs).refund
  {
    if legs != [] { LocksAreSpentOrRefunded(legs[..|legs| - 1]); }
  }

  /**
   * Two steps of one batch, with anything in between: applying it turned `before` into `filled`, and some time
   * afterwards failing it turned `later` into `failed`. Together they move each consumed lock to available in full
   * and leave every pending amount as it was.
   */
  ghost predicate GivesBack(before: Account, filled: Account, later: Account, failed: Account, legs: seq<Leg>)
    requires LegsOk(legs)
  {
    var d := SumLegs(legs);
    && filled.cash.locked == before.cash.locked - d.lockUsed && failed.cash.locked == later.cash.locked
    && (filled.cash.available - before.cash.available) + (failed.cash.available - later.cash.available) == d.lockUsed
    && (filled.cash.pending - before.cash.pending) + (failed.cash.pending - later.cash.pending) == 0
    && SharesBack(before.position.yes, filled.position.yes, later.position.yes, failed.position.yes, d.yesUsed)
    && SharesBack(before.position.no, filled.position.no, later.position.no, failed.position.no, d.noUsed)
  }

  predicate SharesBack(before: Shares, filled: Shares, later: Shares, failed: Shares, used: nat) {
    && filled.locked == before.locked - used && failed.locked == later.locked
    && (filled.available - before.available) + (failed.available - later.available) == used
    && (filled.pending - before.pending) + (failed.pending - later.pending) == 0
  }

  lemma ApplyThenFail(before: Account, later: Account, legs: seq<Leg>)
    requires LegsOk(legs) && OneSided(legs) && Protected(legs) && NoClamp(before, legs)
    requires Covers(later, SumLegs(legs))
    ensures GivesBack(before, FillAll(before, legs), later, Fail(later, SumLegs(legs)), legs)
  {
    FillsMakePending(before, legs);
    FillsUseLocks(before, legs);
    FailMoves(later, legs);
    LocksAreSpentOrRefunded(legs);
    DeltaParts(legs);
    assert Fail(later, SumLegs(legs)).position.Of(Yes) == Fail(later, SumLegs(legs)).position.yes;
    assert Fail(later, SumLegs(legs)).position.Of(No) == Fail(later, SumLegs(legs)).position.no;
  }

  /** A failed batch gives a wallet back all it took, and takes back all it made pending, if and only if the wallet is one-sided. */
  lemma ApplyThenFailIff(before: Account, later: Account, legs: seq<Leg>)
    requires LegsOk(legs) && Priced(legs) && Protected(legs) && NoClamp(before, legs) && Covers(later, SumLegs(legs))
    ensures GivesBack(before, FillAll(before, legs), later, Fail(later, SumLegs(legs)), legs) <==> OneSided(legs)
  {
    if OneSided(legs) {
      ApplyThenFail(before, later, legs);
    } else {
      FillsMakePending(before, legs);
      NettingIsExactIff(legs);
      assert !NettingIsExact(legs);
      FailTakes(later, SumLegs(legs));
    }
  }

  /** What is pending and covered is taken away exactly as the netted delta says. */
  lemma FailTakes(a: Account, d: Delta)
    requires Covers(a, d)
    ensures var b := Fail(a, d);
      && b.cash.pending == a.cash.pending - Gain(d.cash)
      && b.position.yes.pending == a.position.yes.pending - Gain(d.yes)
      && b.position.no.pending == a.position.no.pending - Gain(d.no)
  {
  }
}
