/** Two-phase admission: a submitted order holds funds from its acceptance until its reservation is carried out. */
module Admission {
  import opened Types
  import opened Rounding
  import opened Accounts
  import opened Deltas
  import opened Ledgers
  import opened Inflight
  import opened FundsService
  import Batch

  datatype Amounts = Amounts(cash: nat, yes: nat, no: nat)

  /** What one accepted submit will lock. */
  datatype Hold = Hold(key: Key, amounts: Amounts)

  datatype Holds = Holds(bySubmit: map<string, Hold>, byKey: map<Key, Amounts>)

  const NOTHING := Amounts(0, 0, 0)
  const NO_HOLDS := Holds(map[], map[])

  function HoldOf(o: Order, market: nat): Hold {
    Hold(Key(o.wallet, market),
         if o.action == Buy then Amounts(RequiredReserve(o), 0, 0)
         else if o.outcome == Yes then Amounts(0, o.qty, 0)
         else Amounts(0, 0, o.qty))
  }

  function Plus(a: Amounts, b: Amounts): Amounts {
    Amounts(a.cash + b.cash, a.yes + b.yes, a.no + b.no)
  }

  function Less(x: nat, y: nat): nat {
    if x <= y then 0 else x - y
  }

  function Minus(a: Amounts, b: Amounts): Amounts {
    Amounts(Less(a.cash, b.cash), Less(a.yes, b.yes), Less(a.no, b.no))
  }

  function HeldAt(h: Holds, k: Key): Amounts {
    if k in h.byKey then h.byKey[k] else NOTHING
  }

  function MarkHold(h: Holds, submit: string, x: Hold): Holds {
    if submit == "" || x.key.wallet == "" then h
    else Holds(h.bySubmit[submit := x], h.byKey[x.key := Plus(HeldAt(h, x.key), x.amounts)])
  }

  function DeleteHold(h: Holds, submit: string): Holds {
    if submit !in h.bySubmit then h
    else
      var x := h.bySubmit[submit];
      var left := Minus(HeldAt(h, x.key), x.amounts);
      Holds(h.bySubmit - {submit}, if left == NOTHING then h.byKey - {x.key} else h.byKey[x.key := left])
  }

  /** The account as admission sees it: what is held already is not available. */
  function Seen(a: Account, held: Amounts): Account {
    Account(a.cash.(available := Less(a.cash.available, held.cash)),
            a.position.(yes := a.position.yes.(available := Less(a.position.yes.available, held.yes)),
                        no := a.position.no.(available := Less(a.position.no.available, held.no))))
  }

  class PendingReserveStore {
    var bySubmit: map<string, Hold>
    var byWalletPos: map<Key, Amounts>

    constructor ()
      ensures View() == NO_HOLDS
    {
      bySubmit, byWalletPos := map[], map[];
    }

    function View(): Holds
      reads this
    {
      Holds(bySubmit, byWalletPos)
    }

    method Mark(submit: string, x: Hold)
      modifies this
      ensures View() == MarkHold(old(View()), submit, x)
    {
      if submit == "" || x.key.wallet == "" {
        return;
      }
      bySubmit := bySubmit[submit := x];
      var agg := if x.key in byWalletPos then byWalletPos[x.key] else NOTHING;
      byWalletPos := byWalletPos[x.key := Plus(agg, x.amounts)];
    }

    method Delete(submit: string)
      modifies this
      ensures View() == DeleteHold(old(View()), submit)
    {
      if submit !in bySubmit {
        return;
      }
      var x := bySubmit[submit];
      bySubmit := bySubmit - {submit};
      var agg := if x.key in byWalletPos then byWalletPos[x.key] else NOTHING;
      var cash, yes, no := 0, 0, 0;
      if agg.cash > x.amounts.cash {
        cash := agg.cash - x.amounts.cash;
      }
      if agg.yes > x.amounts.yes {
        yes := agg.yes - x.amounts.yes;
      }
      if agg.no > x.amounts.no {
        no := agg.no - x.amounts.no;
      }
      if cash == 0 && yes == 0 && no == 0 {
        byWalletPos := byWalletPos - {x.key};
      } else {
        byWalletPos := byWalletPos[x.key := Amounts(cash, yes, no)];
      }
    }

    method Apply(k: Key, a: Account) returns (r: Account)
      ensures r == Seen(a, HeldAt(View(), k))
    {
      if k !in byWalletPos {
        return a;
      }
      var agg := byWalletPos[k];
      r := Account(a.cash.(available := Less(a.cash.available, agg.cash)),
                   a.position.(yes := a.position.yes.(available := Less(a.position.yes.available, agg.yes)),
                               no := a.position.no.(available := Less(a.position.no.available, agg.no))));
    }
  }

  // ----- The aggregate is the sum -----

  function AmountsAt(h: Holds, submit: string, k: Key): Amounts {
    if submit in h.bySubmit && h.bySubmit[submit].key == k then h.bySubmit[submit].amounts else NOTHING
  }

  function SumAt(h: Holds, submits: seq<string>, k: Key): Amounts {
    if submits == [] then NOTHING
    else Plus(SumAt(h, submits[..|submits| - 1], k), AmountsAt(h, submits[|submits| - 1], k))
  }

  /** `submits` lists the outstanding submits, each once. */
  ghost predicate Enumerates(h: Holds, submits: seq<string>) {
    && (forall i, j :: 0 <= i < j < |submits| ==> submits[i] != submits[j])
    && (forall s :: s in submits <==> s in h.bySubmit)
  }

  /** Every aggregate is the sum over the outstanding submits of its wallet and market. */
  ghost predicate Summed(h: Holds, submits: seq<string>) {
    Enumerates(h, submits) && forall k :: HeldAt(h, k) == SumAt(h, submits, k)
  }

  lemma {:induction false} SumOfOthers(h: Holds, r: Holds, submits: seq<string>, k: Key)
    requires forall s :: s in submits ==> AmountsAt(h, s, k) == AmountsAt(r, s, k)
    ensures SumAt(h, submits, k) == SumAt(r, submits, k)
  {
    if submits != [] { SumOfOthers(h, r, submits[..|submits| - 1], k); }
  }

  lemma MarkLeavesOthers(h: Holds, submits: seq<string>, submit: string, x: Hold, k: Key)
    requires submit !in submits
    ensures SumAt(h, submits, k) == SumAt(MarkHold(h, submit, x), submits, k)
  {
    forall s | s in submits
      ensures AmountsAt(h, s, k) == AmountsAt(MarkHold(h, submit, x), s, k)
    {
      assert s != submit;
    }
    SumOfOthers(h, MarkHold(h, submit, x), submits, k);
  }

  lemma MarkHere(h: Holds, submit: string, x: Hold, k: Key)
    requires submit != "" && x.key.wallet != ""
    ensures AmountsAt(MarkHold(h, submit, x), submit, k) == if k == x.key then x.amounts else NOTHING
    ensures HeldAt(MarkHold(h, submit, x), k) == if k == x.key then Plus(HeldAt(h, k), x.amounts) else HeldAt(h, k)
  {
  }

  lemma MarkAt(h: Holds, submits: seq<string>, submit: string, x: Hold, k: Key)
    requires submit != "" && x.key.wallet != ""
    requires HeldAt(h, k) == SumAt(MarkHold(h, submit, x), submits, k)
    ensures HeldAt(MarkHold(h, submit, x), k) == SumAt(MarkHold(h, submit, x), submits + [submit], k)
  {
    hide MarkHold, HeldAt, SumAt;
    SumLast(MarkHold(h, submit, x), submits, submit, k);
    MarkHere(h, submit, x, k);
    if k != x.key {
      assert Plus(HeldAt(h, k), NOTHING) == HeldAt(h, k);
    }
  }

  lemma SumLast(h: Holds, submits: seq<string>, submit: string, k: Key)
    ensures SumAt(h, submits + [submit], k) == Plus(SumAt(h, submits, k), AmountsAt(h, submit, k))
  {
    assert (submits + [submit])[..|submits|] == submits;
  }

  lemma MarkKeepsSum(h: Holds, submits: seq<string>, submit: string, x: Hold)
    requires Summed(h, submits) && submit !in h.bySubmit && submit != "" && x.key.wallet != ""
    ensures Summed(MarkHold(h, submit, x), submits + [submit])
  {
    forall k: Key
      ensures HeldAt(MarkHold(h, submit, x), k) == SumAt(MarkHold(h, submit, x), submits + [submit], k)
    {
      assert HeldAt(h, k) == SumAt(h, submits, k);
      MarkLeavesOthers(h, submits, submit, x, k);
      MarkAt(h, submits, submit, x, k);
    }
  }

  function Without(submits: seq<string>, i: nat): seq<string>
    requires i < |submits|
  {
    submits[..i] + submits[i + 1..]
  }

  lemma PlusSwaps(a: Amounts, b: Amounts, c: Amounts)
    ensures Plus(Plus(a, b), c) == Plus(Plus(a, c), b)
  {
  }

  lemma {:induction false} SumWithout(h: Holds, submits: seq<string>, i: nat, k: Key)
    requires i < |submits|
    ensures SumAt(h, submits, k) == Plus(SumAt(h, Without(submits, i), k), AmountsAt(h, submits[i], k))
  {
    var n := |submits| - 1;
    var rest := Without(submits, i);
    if i == n {
      assert rest == submits[..n];
    } else {
      hide AmountsAt, Plus;
      SumWithout(h, submits[..n], i, k);
      assert rest[..|rest| - 1] == Without(submits[..n], i) && rest[|rest| - 1] == submits[n];
      PlusSwaps(SumAt(h, Without(submits[..n], i), k), AmountsAt(h, submits[i], k), AmountsAt(h, submits[n], k));
    }
  }

  lemma WithoutHas(submits: seq<string>, i: nat, s: string)
    requires i < |submits| && forall a, b :: 0 <= a < b < |submits| ==> submits[a] != submits[b]
    ensures s in Without(submits, i) <==> s in submits && s != submits[i]
    ensures forall a, b :: 0 <= a < b < |submits| - 1 ==> Without(submits, i)[a] != Without(submits, i)[b]
  {
    var rest := Without(submits, i);
    if s in submits && s != submits[i] {
      var j :| 0 <= j < |submits| && submits[j] == s;
      assert rest[if j < i then j else j - 1] == s;
    }
    if s in rest {
      var j :| 0 <= j < |rest| && rest[j] == s;
      assert s == submits[if j < i then j else j + 1];
    }
  }

  lemma HeldAfterDelete(h: Holds, key: string, k: Key)
    ensures var (before, after) := (HeldAt(h, k), HeldAt(DeleteHold(h, key), k));
      && after.cash <= before.cash && after.yes <= before.yes && after.no <= before.no
      && after == if key in h.bySubmit && h.bySubmit[key].key == k then Minus(before, h.bySubmit[key].amounts) else before
  {
  }

  lemma DeleteLeavesOthers(h: Holds, submit: string, s: string, k: Key)
    requires s != submit
    ensures AmountsAt(DeleteHold(h, submit), s, k) == AmountsAt(h, s, k)
  {
  }

  lemma DeleteAt(h: Holds, submits: seq<string>, i: nat, k: Key)
    requires i < |submits| && submits[i] in h.bySubmit && submits[i] !in Without(submits, i)
    requires HeldAt(h, k) == SumAt(h, submits, k)
    ensures HeldAt(DeleteHold(h, submits[i]), k) == SumAt(DeleteHold(h, submits[i]), Without(submits, i), k)
  {
    hide DeleteHold, SumAt, Plus, Minus, Without, HeldAt;
    var r, rest := DeleteHold(h, submits[i]), Without(submits, i);
    SumWithout(h, submits, i, k);
    forall s | s in rest
      ensures AmountsAt(h, s, k) == AmountsAt(r, s, k)
    {
      DeleteLeavesOthers(h, submits[i], s, k);
    }
    SumOfOthers(h, r, rest, k);
    HeldAfterDelete(h, submits[i], k);
    PlusMinus(SumAt(h, rest, k), AmountsAt(h, submits[i], k));
  }

  lemma PlusMinus(a: Amounts, b: Amounts)
    ensures Minus(Plus(a, b), b) == a && Plus(a, NOTHING) == a
  {
  }

  /** With the aggregate a sum, taking a hold back never meets a floor. */
  lemma DeleteKeepsSum(h: Holds, submits: seq<string>, i: nat)
    requires Summed(h, submits) && i < |submits|
    ensures Summed(DeleteHold(h, submits[i]), Without(submits, i))
  {
    forall s
      ensures s in Without(submits, i) <==> s in submits && s != submits[i]
    {
      WithoutHas(submits, i, s);
    }
    WithoutHas(submits, i, submits[i]);
    forall k: Key
      ensures HeldAt(DeleteHold(h, submits[i]), k) == SumAt(DeleteHold(h, submits[i]), Without(submits, i), k)
    {
      hide DeleteHold, SumAt, Without;
      assert HeldAt(h, k) == SumAt(h, submits, k);
      DeleteAt(h, submits, i, k);
    }
  }

  // ----- The desk: submits, reservations and everything else, interleaved -----

  datatype Ticket = Ticket(order: Order, market: nat)

  /** `open` is what has been accepted and whose reservation has not been carried out yet. */
  datatype Desk = Desk(memory: Memory, holds: Holds, open: map<string, Ticket>)

  datatype Move =
    | Submit(key: string, ticket: Ticket)
    | CarryOut(key: string)
    | TurnDown(key: string)
    | Hear(event: Event)

  function TicketKey(t: Ticket): Key {
    Key(t.order.wallet, t.market)
  }

  /** Admission checks an order against what is available and not yet held in its market. */
  predicate Accepts(d: Desk, t: Ticket) {
    Reserve(Seen(At(d.memory.ledger, TicketKey(t)), HeldAt(d.holds, TicketKey(t))), t.order).Ok?
  }

  predicate CanMove(d: Desk, m: Move) {
    match m
    case Submit(key, t) => key != "" && t.order.wallet != ""
    case CarryOut(key) => key in d.open
    case TurnDown(key) => key != ""
    case Hear(e) => Legal(e) && !e.OrderReserved? && !e.ReserveRejected?
  }

  function Moved(d: Desk, m: Move, at: nat): Desk
    requires StoreOk(d.memory.store) && CanMove(d, m)
  {
    match m
    case Submit(key, t) =>
      if key in d.memory.submits || key in d.holds.bySubmit || !Accepts(d, t) then d
      else d.(holds := MarkHold(d.holds, key, HoldOf(t.order, t.market)), open := d.open[key := t])
    case CarryOut(key) =>
      Desk(Handle(d.memory, at, OrderReserved(key, d.open[key].order, d.open[key].market)), DeleteHold(d.holds, key), d.open - {key})
    case TurnDown(key) =>
      Desk(Handle(d.memory, at, ReserveRejected(key)), DeleteHold(d.holds, key), d.open - {key})
    case Hear(e) => d.(memory := Handle(d.memory, at, e))
  }

  /** The books of the desk agree: one hold for every open ticket, none of them carried out before. */
  ghost predicate DeskOk(d: Desk, submits: seq<string>) {
    && StoreOk(d.memory.store) && Summed(d.holds, submits) && d.open.Keys == d.holds.bySubmit.Keys
    && forall s :: s in d.open ==>
         s != "" && s !in d.memory.submits && d.open[s].order.wallet != ""
         && d.holds.bySubmit[s] == HoldOf(d.open[s].order, d.open[s].market)
  }

  lemma KeysGrow<A, B>(x: map<string, A>, y: map<string, B>, k: string, a: A, b: B)
    requires x.Keys == y.Keys
    ensures x[k := a].Keys == y[k := b].Keys
  {
  }

  lemma SubmitKeepsDesk(d: Desk, key: string, t: Ticket, at: nat, submits: seq<string>) returns (after: seq<string>)
    requires DeskOk(d, submits) && CanMove(d, Submit(key, t))
    ensures DeskOk(Moved(d, Submit(key, t), at), after)
  {
    after := submits;
    if key !in d.memory.submits && key !in d.holds.bySubmit && Accepts(d, t) {
      MarkKeepsSum(d.holds, submits, key, HoldOf(t.order, t.market));
      after := submits + [key];
      var (r, x) := (Moved(d, Submit(key, t), at), HoldOf(t.order, t.market));
      assert r == Desk(d.memory, MarkHold(d.holds, key, x), d.open[key := t]) && r.holds.bySubmit == d.holds.bySubmit[key := x];
      KeysGrow(d.open, d.holds.bySubmit, key, t, x);
      hide Summed, Accepts, StoreOk, Moved, MarkHold, HoldOf;
    }
  }

  lemma MoveKeepsDesk(d: Desk, m: Move, at: nat, submits: seq<string>) returns (after: seq<string>)
    requires DeskOk(d, submits) && CanMove(d, m)
    ensures DeskOk(Moved(d, m, at), after)
  {
    after := submits;
    match m
    case Submit(key, t) => after := SubmitKeepsDesk(d, key, t, at, submits);
    case CarryOut(key) =>
      HandleKeepsStore(d.memory, at, OrderReserved(key, d.open[key].order, d.open[key].market));
      assert key in submits;
      var i :| 0 <= i < |submits| && submits[i] == key;
      DeleteKeepsSum(d.holds, submits, i);
      after := Without(submits, i);
    case TurnDown(key) =>
      HandleKeepsStore(d.memory, at, ReserveRejected(key));
      if key in d.open {
        assert key in submits;
        var i :| 0 <= i < |submits| && submits[i] == key;
        DeleteKeepsSum(d.holds, submits, i);
        after := Without(submits, i);
      }
    case Hear(e) =>
      HandleKeepsStore(d.memory, at, e);
  }

  /** A key is reserved at most once: carrying it out marks it, and a marked key changes nothing any more. */
  lemma CarriedOutOnce(d: Desk, key: string, at: nat)
    requires StoreOk(d.memory.store) && key != "" && key in d.open
    ensures key in Moved(d, CarryOut(key), at).memory.submits
    ensures forall t: Ticket ::
      Effects(Moved(d, CarryOut(key), at).memory, OrderReserved(key, t.order, t.market)) == []
  {
    HandleKeepsStore(d.memory, at, OrderReserved(key, d.open[key].order, d.open[key].market));
  }

  lemma MarksStay(d: Desk, m: Move, at: nat)
    requires StoreOk(d.memory.store) && CanMove(d, m)
    ensures d.memory.submits <= Moved(d, m, at).memory.submits
  {
  }

  // ----- What is available only shrinks by reserving and withdrawing -----

  /** No kind of asset has become less available. */
  predicate NoLess(a: Account, b: Account) {
    && a.cash.available <= b.cash.available
    && a.position.yes.available <= b.position.yes.available && a.position.no.available <= b.position.no.available
  }

  lemma {:induction false} FillsNeverLess(a: Account, legs: seq<Leg>)
    requires LegsOk(legs)
    ensures NoLess(a, FillAll(a, legs))
  {
    if legs != [] { FillsNeverLess(a, legs[..|legs| - 1]); }
  }

  lemma {:induction false} UpdatesNeverLess(g: Ledger, market: nat, index: map<nat, Order>, updates: seq<Batch.OrderUpdate>, k: Key)
    ensures NoLess(At(g, k), At(ApplyUpdates(g, market, index, updates), k))
  {
    if updates != [] { UpdatesNeverLess(g, market, index, updates[..|updates| - 1], k); }
  }

  lemma {:induction false} LegsNeverLess(g: Ledger, market: nat, legs: seq<Leg>, k: Key)
    requires LegsOk(legs)
    ensures NoLess(At(g, k), At(ApplyLegs(g, market, legs), k))
  {
    if legs != [] {
      LegsNeverLess(g, market, legs[..|legs| - 1], k);
      LegNeverLess(ApplyLegs(g, market, legs[..|legs| - 1]), market, legs[|legs| - 1], k);
    }
  }

  lemma LegNeverLess(g: Ledger, market: nat, l: Leg, k: Key)
    requires LegOk(l)
    ensures NoLess(At(g, k), At(ApplyLeg(g, market, l), k))
  {
    var here := Key(l.order.wallet, market);
    assert NoLess(At(g, here), Fill(At(g, here), l));
  }

  lemma SettleNeverLess(g: Ledger, e: BatchEvent, v: Verdict, k: Key)
    requires EventOk(e)
    ensures NoLess(At(g, k), At(Settle(g, e, v), k))
  {
    SettleIsMine(g, e, v, k.wallet);
    if k.market != e.market { SettleStaysInMarket(g, e, v, k); }
    var here := Key(k.wallet, e.market);
    var d := SumLegs(Mine(Legs(e), k.wallet));
    assert NoLess(At(g, here), SettleOne(At(g, here), d, v));
    assert At(Settle(g, e, v), k).cash == At(Settle(g, e, v), here).cash;
  }

  lemma EffectNeverLess(g: Ledger, f: Effect, k: Key)
    requires EffectOk(f) && !f.Reserving? && !f.Debiting?
    ensures NoLess(At(g, k), At(Perform(g, f), k))
  {
    match f
    case Applying(b) =>
      LegsNeverLess(g, b.market, Legs(b), k);
      UpdatesNeverLess(ApplyLegs(g, b.market, Legs(b)), b.market, ByIndex(b.orders), b.updates, k);
    case Settling(b, v) =>
      SettleNeverLess(g, b, v, k);
    case Releasing(o, market, qty, refund) =>
    case Crediting(w, amount) =>
  }

  lemma {:induction false} EffectsNeverLess(g: Ledger, fs: seq<Effect>, k: Key)
    requires EffectsOk(fs) && forall i :: 0 <= i < |fs| ==> !fs[i].Reserving? && !fs[i].Debiting?
    ensures NoLess(At(g, k), At(PerformAll(g, fs), k))
  {
    if fs != [] {
      EffectsNeverLess(g, fs[..|fs| - 1], k);
      EffectNeverLess(PerformAll(g, fs[..|fs| - 1]), fs[|fs| - 1], k);
    }
  }

  /** Any message but a reservation leaves shares as available as they were, and any but a withdrawal cash too. */
  lemma HearNeverLess(m: Memory, at: nat, e: Event, k: Key)
    requires StoreOk(m.store) && Legal(e) && !e.OrderReserved?
    ensures var (a, b) := (At(m.ledger, k), At(Handle(m, at, e).ledger, k));
      && a.position.yes.available <= b.position.yes.available && a.position.no.available <= b.position.no.available
      && (!e.WithdrawConfirmed? ==> a.cash.available <= b.cash.available)
  {
    var fs := Effects(m, e);
    if e.WithdrawConfirmed? {
      PerformShort(m.ledger, fs);
    } else {
      EffectsNeverLess(m.ledger, fs, k);
    }
  }

  // ----- Sells -----

  /** What is held of each outcome at a wallet and market is available there. */
  ghost predicate SharesCovered(d: Desk, k: Key) {
    && HeldAt(d.holds, k).yes <= PositionOf(d.memory.ledger, k).yes.available
    && HeldAt(d.holds, k).no <= PositionOf(d.memory.ledger, k).no.available
  }

  ghost predicate SellsCovered(d: Desk) {
    forall k :: SharesCovered(d, k)
  }

  /** One open ticket holds no more than the aggregate of its wallet and market. */
  lemma OwnHold(d: Desk, submits: seq<string>, key: string)
    requires DeskOk(d, submits) && key in d.open
    ensures var (own, all) := (HoldOf(d.open[key].order, d.open[key].market).amounts, HeldAt(d.holds, TicketKey(d.open[key])));
      own.cash <= all.cash && own.yes <= all.yes && own.no <= all.no
  {
    assert key in submits;
    var i :| 0 <= i < |submits| && submits[i] == key;
    var k := TicketKey(d.open[key]);
    assert HeldAt(d.holds, k) == SumAt(d.holds, submits, k);
    SumWithout(d.holds, submits, i, k);
  }

  lemma SubmitKeepsSells(d: Desk, key: string, t: Ticket, at: nat, k: Key)
    requires StoreOk(d.memory.store) && CanMove(d, Submit(key, t)) && SellsCovered(d)
    ensures SharesCovered(Moved(d, Submit(key, t), at), k)
  {
    assert SharesCovered(d, k);
    if k == TicketKey(t) {
    } else {
      assert HeldAt(Moved(d, Submit(key, t), at).holds, k) == HeldAt(d.holds, k);
    }
  }

  lemma HearKeepsSells(d: Desk, e: Event, at: nat, k: Key)
    requires StoreOk(d.memory.store) && CanMove(d, Hear(e)) && SellsCovered(d)
    ensures SharesCovered(Moved(d, Hear(e), at), k)
  {
    assert SharesCovered(d, k);
    HearNeverLess(d.memory, at, e, k);
  }

  lemma TurnDownKeepsSells(d: Desk, key: string, at: nat, k: Key)
    requires StoreOk(d.memory.store) && CanMove(d, TurnDown(key)) && SellsCovered(d)
    ensures SharesCovered(Moved(d, TurnDown(key), at), k)
  {
    assert SharesCovered(d, k);
    HeldAfterDelete(d.holds, key, k);
    PerformShort(d.memory.ledger, []);
  }

  /** The ledger after a reservation is carried out that has not been before. */
  lemma CarryOutLedger(d: Desk, key: string, at: nat, submits: seq<string>)
    requires DeskOk(d, submits) && key in d.open
    ensures Moved(d, CarryOut(key), at).memory.ledger
         == Perform(d.memory.ledger, Reserving(d.open[key].order, d.open[key].market))
  {
    PerformShort(d.memory.ledger, [Reserving(d.open[key].order, d.open[key].market)]);
  }

  lemma CarryOutKeepsSells(d: Desk, key: string, at: nat, submits: seq<string>, k: Key)
    requires DeskOk(d, submits) && CanMove(d, CarryOut(key)) && SellsCovered(d)
    ensures SharesCovered(Moved(d, CarryOut(key), at), k)
  {
    assert SharesCovered(d, k);
    CarryOutLedger(d, key, at, submits);
    HeldAfterDelete(d.holds, key, k);
    OwnHold(d, submits, key);
    var here := TicketKey(d.open[key]);
    hide HeldAt, DeskOk, SellsCovered, StoreOk;
    if k == here {
    } else {
      assert PositionOf(Moved(d, CarryOut(key), at).memory.ledger, k) == PositionOf(d.memory.ledger, k);
    }
  }

  lemma MoveKeepsSells(d: Desk, m: Move, at: nat, submits: seq<string>)
    requires DeskOk(d, submits) && CanMove(d, m) && SellsCovered(d)
    ensures SellsCovered(Moved(d, m, at))
  {
    forall k: Key
      ensures SharesCovered(Moved(d, m, at), k)
    {
      match m
      case Submit(key, t) => SubmitKeepsSells(d, key, t, at, k);
      case CarryOut(key) => CarryOutKeepsSells(d, key, at, submits, k);
      case TurnDown(key) => TurnDownKeepsSells(d, key, at, k);
      case Hear(e) => HearKeepsSells(d, e, at, k);
    }
  }

  /** An accepted sell can always be carried out. */
  lemma CoveredSellSucceeds(d: Desk, submits: seq<string>, key: string)
    requires DeskOk(d, submits) && SellsCovered(d) && key in d.open && d.open[key].order.action == Sell
    ensures Reserve(At(d.memory.ledger, TicketKey(d.open[key])), d.open[key].order).Ok?
  {
    assert SharesCovered(d, TicketKey(d.open[key]));
    OwnHold(d, submits, key);
  }

  // ----- Runs of the desk -----

  ghost predicate CanRun(d: Desk, moves: seq<Move>, at: nat)
    decreases |moves|
  {
    moves == [] || (StoreOk(d.memory.store) && CanMove(d, moves[0]) && CanRun(Moved(d, moves[0], at), moves[1..], at + 1))
  }

  ghost function RunDesk(d: Desk, moves: seq<Move>, at: nat): Desk
    requires CanRun(d, moves, at)
    decreases |moves|
  {
    if moves == [] then d else RunDesk(Moved(d, moves[0], at), moves[1..], at + 1)
  }

  lemma {:induction false} RunKeepsSells(d: Desk, moves: seq<Move>, at: nat, submits: seq<string>) returns (after: seq<string>)
    requires DeskOk(d, submits) && SellsCovered(d) && CanRun(d, moves, at)
    ensures DeskOk(RunDesk(d, moves, at), after) && SellsCovered(RunDesk(d, moves, at))
    decreases |moves|
  {
    if moves == [] {
      after := submits;
    } else {
      var next := MoveKeepsDesk(d, moves[0], at, submits);
      MoveKeepsSells(d, moves[0], at, submits);
      after := RunKeepsSells(Moved(d, moves[0], at), moves[1..], at + 1, next);
    }
  }

  lemma FirstMove(d: Desk, moves: seq<Move>, at: nat, submits: seq<string>) returns (next: seq<string>)
    requires DeskOk(d, submits) && CanRun(d, moves, at) && moves != []
    ensures StoreOk(d.memory.store) && CanMove(d, moves[0])
    ensures DeskOk(Moved(d, moves[0], at), next) && CanRun(Moved(d, moves[0], at), moves[1..], at + 1)
    ensures d.memory.submits <= Moved(d, moves[0], at).memory.submits
    ensures forall key :: moves[0] == CarryOut(key) ==> key !in d.memory.submits && key in Moved(d, moves[0], at).memory.submits
  {
    next := MoveKeepsDesk(d, moves[0], at, submits);
    MarksStay(d, moves[0], at);
    assert moves[0].CarryOut? ==> moves[0].key in d.open && moves[0].key != "" && moves[0].key !in d.memory.submits;
    hide DeskOk, Moved, Handle, CanRun;
    if moves[0].CarryOut? { CarriedOutOnce(d, moves[0].key, at); }
  }

  /** A key that is marked is not open, and is not carried out again. */
  lemma {:induction false} MarkedNotCarriedOut(d: Desk, moves: seq<Move>, at: nat, submits: seq<string>, key: string, j: nat)
    requires DeskOk(d, submits) && CanRun(d, moves, at) && key in d.memory.submits && j < |moves|
    ensures moves[j] != CarryOut(key)
    decreases j
  {
    hide DeskOk, Moved, CanRun, CanMove, StoreOk;
    var next := FirstMove(d, moves, at, submits);
    if j > 0 {
      MarkedNotCarriedOut(Moved(d, moves[0], at), moves[1..], at + 1, next, key, j - 1);
    }
  }

  /** Over every run of the desk a key is carried out at most once, even if it is submitted again. */
  lemma {:induction false} CarriedOutAtMostOnce(d: Desk, moves: seq<Move>, at: nat, submits: seq<string>, key: string, i: nat, j: nat)
    requires DeskOk(d, submits) && CanRun(d, moves, at) && i < j < |moves| && moves[i] == CarryOut(key)
    ensures moves[j] != CarryOut(key)
    decreases i
  {
    hide DeskOk, Moved, CanRun, CanMove, StoreOk;
    var next := FirstMove(d, moves, at, submits);
    if i == 0 {
      MarkedNotCarriedOut(Moved(d, moves[0], at), moves[1..], at + 1, next, key, j - 1);
    } else {
      CarriedOutAtMostOnce(Moved(d, moves[0], at), moves[1..], at + 1, next, key, i - 1, j - 1);
    }
  }

  /** Whatever happens between, an accepted sell that is still open can be carried out: its shares are there. */
  lemma AcceptedSellsSucceed(g: Ledger, moves: seq<Move>, key: string)
    requires CanRun(Desk(Fresh(g), NO_HOLDS, map[]), moves, 1)
    requires var d := RunDesk(Desk(Fresh(g), NO_HOLDS, map[]), moves, 1); key in d.open && d.open[key].order.action == Sell
    ensures var d := RunDesk(Desk(Fresh(g), NO_HOLDS, map[]), moves, 1);
      Reserve(At(d.memory.ledger, TicketKey(d.open[key])), d.open[key].order).Ok?
  {
    var d0 := Desk(Fresh(g), NO_HOLDS, map[]);
    assert DeskOk(d0, []) && SellsCovered(d0);
    var submits := RunKeepsSells(d0, moves, 1, []);
    CoveredSellSucceeds(RunDesk(d0, moves, 1), submits, key);
  }

  // ----- Buys -----

  /** All open buys of a wallet are in one market, and what is held there is available. */
  ghost predicate BuysCovered(d: Desk, w: string, market: nat) {
    && (forall s :: s in d.open && d.open[s].order.wallet == w && d.open[s].order.action == Buy ==> d.open[s].market == market)
    && HeldAt(d.holds, Key(w, market)).cash <= CashOf(d.memory.ledger, w).available
  }

  /** The wallet buys in no other market, and no withdrawal of its is confirmed. */
  predicate StaysIn(m: Move, w: string, market: nat) {
    match m
    case Submit(_, t) => t.order.wallet == w && t.order.action == Buy ==> t.market == market
    case Hear(e) => e.WithdrawConfirmed? ==> e.wallet != w
    case _ => true
  }

  lemma SubmitKeepsBuys(d: Desk, key: string, t: Ticket, at: nat, w: string, market: nat)
    requires StoreOk(d.memory.store) && CanMove(d, Submit(key, t)) && BuysCovered(d, w, market) && StaysIn(Submit(key, t), w, market)
    ensures BuysCovered(Moved(d, Submit(key, t), at), w, market)
  {
    if Key(w, market) == TicketKey(t) {
    } else {
      assert HeldAt(Moved(d, Submit(key, t), at).holds, Key(w, market)) == HeldAt(d.holds, Key(w, market));
    }
  }

  lemma CarryOutKeepsBuys(d: Desk, key: string, at: nat, submits: seq<string>, w: string, market: nat)
    requires DeskOk(d, submits) && CanMove(d, CarryOut(key)) && BuysCovered(d, w, market)
    ensures BuysCovered(Moved(d, CarryOut(key), at), w, market)
  {
    CarryOutLedger(d, key, at, submits);
    HeldAfterDelete(d.holds, key, Key(w, market));
    OwnHold(d, submits, key);
    var t := d.open[key];
    if t.order.wallet == w && t.order.action == Buy {
      assert TicketKey(t) == Key(w, market);
    } else {
      assert CashOf(Moved(d, CarryOut(key), at).memory.ledger, w).available == CashOf(d.memory.ledger, w).available;
    }
  }

  lemma MoveKeepsBuys(d: Desk, m: Move, at: nat, submits: seq<string>, w: string, market: nat)
    requires DeskOk(d, submits) && CanMove(d, m) && BuysCovered(d, w, market) && StaysIn(m, w, market)
    ensures BuysCovered(Moved(d, m, at), w, market)
  {
    match m
    case Submit(key, t) => SubmitKeepsBuys(d, key, t, at, w, market);
    case CarryOut(key) => CarryOutKeepsBuys(d, key, at, submits, w, market);
    case TurnDown(key) =>
      HeldAfterDelete(d.holds, key, Key(w, market));
      PerformShort(d.memory.ledger, []);
    case Hear(e) => HearKeepsCash(d.memory, at, e, w);
  }

  lemma HearKeepsCash(m: Memory, at: nat, e: Event, w: string)
    requires StoreOk(m.store) && Legal(e) && !e.OrderReserved?
    requires e.WithdrawConfirmed? ==> e.wallet != w
    ensures CashOf(m.ledger, w).available <= CashOf(Handle(m, at, e).ledger, w).available
  {
    if e.WithdrawConfirmed? {
      PerformShort(m.ledger, Effects(m, e));
    } else {
      HearNeverLess(m, at, e, Key(w, 0));
    }
  }

  lemma {:induction false} RunKeepsBuys(d: Desk, moves: seq<Move>, at: nat, submits: seq<string>, w: string, market: nat)
    returns (after: seq<string>)
    requires DeskOk(d, submits) && BuysCovered(d, w, market) && CanRun(d, moves, at)
    requires forall i :: 0 <= i < |moves| ==> StaysIn(moves[i], w, market)
    ensures DeskOk(RunDesk(d, moves, at), after) && BuysCovered(RunDesk(d, moves, at), w, market)
    decreases |moves|
  {
    if moves == [] {
      after := submits;
    } else {
      var next := MoveKeepsDesk(d, moves[0], at, submits);
      MoveKeepsBuys(d, moves[0], at, submits, w, market);
      after := RunKeepsBuys(Moved(d, moves[0], at), moves[1..], at + 1, next, w, market);
    }
  }

  /**
   * While a wallet buys in one market only and withdraws nothing, every buy it had accepted and that is still
   * open can be carried out.
   */
  lemma AcceptedBuysSucceed(d: Desk, moves: seq<Move>, at: nat, submits: seq<string>, w: string, market: nat, key: string)
    requires DeskOk(d, submits) && BuysCovered(d, w, market) && CanRun(d, moves, at)
    requires forall i :: 0 <= i < |moves| ==> StaysIn(moves[i], w, market)
    requires var e := RunDesk(d, moves, at); key in e.open && e.open[key].order.wallet == w && e.open[key].order.action == Buy
    ensures var e := RunDesk(d, moves, at);
      Reserve(At(e.memory.ledger, TicketKey(e.open[key])), e.open[key].order).Ok?
  {
    var after := RunKeepsBuys(d, moves, at, submits, w, market);
    OwnHold(RunDesk(d, moves, at), after, key);
  }

  /**
   * Across markets it fails: admission looks only at the market of the order, so a wallet with funds for one of
   * two equal buys has both accepted, and once one is carried out the other cannot be.
   */
  lemma AcrossMarketsFails(g: Ledger, a: Ticket, b: Ticket)
    requires a.order.wallet == b.order.wallet != "" && a.market != b.market
    requires a.order.action == Buy == b.order.action
    requires RequiredReserve(a.order) == RequiredReserve(b.order) == CashOf(g, a.order.wallet).available > 0
    ensures var d0 := Desk(Fresh(g), NO_HOLDS, map[]);
      var d1 := Moved(d0, Submit("a", a), 1);
      var d2 := Moved(d1, Submit("b", b), 2);
      "a" in d2.open && "b" in d2.open && StoreOk(d2.memory.store)
      && var d3 := Moved(d2, CarryOut("a"), 3);
         "b" in d3.open && Reserve(At(d3.memory.ledger, TicketKey(b)), b.order).Err?
  {
    var d0 := Desk(Fresh(g), NO_HOLDS, map[]);
    var d1 := Moved(d0, Submit("a", a), 1);
    assert HeldAt(d1.holds, TicketKey(b)) == NOTHING;
    var d2 := Moved(d1, Submit("b", b), 2);
    PerformShort(g, Effects(d2.memory, OrderReserved("a", a.order, a.market)));
  }

  // ----- Exactly when outstanding buys can all be carried out -----

  predicate BuysOf(ts: seq<Ticket>, w: string) {
    forall i :: 0 <= i < |ts| ==> ts[i].order.wallet == w && ts[i].order.action == Buy
  }

  function TotalReserve(ts: seq<Ticket>): nat {
    if ts == [] then 0 else RequiredReserve(ts[0].order) + TotalReserve(ts[1..])
  }

  /** Carrying the tickets out one after another, every one succeeds. */
  predicate AllSucceed(g: Ledger, ts: seq<Ticket>)
    decreases |ts|
  {
    ts == [] ||
      (Reserve(At(g, TicketKey(ts[0])), ts[0].order).Ok? && AllSucceed(Perform(g, Reserving(ts[0].order, ts[0].market)), ts[1..]))
  }

  /** A wallet's buys, in whatever markets and order, all succeed if and only if together they cost no more than it has. */
  lemma {:induction false} AllSucceedIff(g: Ledger, ts: seq<Ticket>, w: string)
    requires BuysOf(ts, w)
    ensures AllSucceed(g, ts) <==> TotalReserve(ts) <= CashOf(g, w).available
    decreases |ts|
  {
    if ts != [] {
      var h := Perform(g, Reserving(ts[0].order, ts[0].market));
      AllSucceedIff(h, ts[1..], w);
      assert Reserve(At(g, TicketKey(ts[0])), ts[0].order).Ok? ==>
        CashOf(h, w).available == CashOf(g, w).available - RequiredReserve(ts[0].order);
    }
  }

  /** The open buys of one wallet, each once, in some order. */
  ghost predicate ListsBuys(d: Desk, keys: seq<string>, w: string) {
    && (forall i, j :: 0 <= i < j < |keys| ==> keys[i] != keys[j])
    && (forall s :: s in keys <==> s in d.open && d.open[s].order.wallet == w && d.open[s].order.action == Buy)
  }

  function Tickets(d: Desk, keys: seq<string>): (ts: seq<Ticket>)
    requires forall s :: s in keys ==> s in d.open
    ensures |ts| == |keys| && forall i :: 0 <= i < |keys| ==> ts[i] == d.open[keys[i]]
    ensures keys != [] ==> ts[1..] == Tickets(d, keys[1..])
  {
    if keys == [] then [] else [d.open[keys[0]]] + Tickets(d, keys[1..])
  }

  /** Every reservation succeeds when the desk carries out these keys in turn. */
  ghost predicate EachSucceeds(d: Desk, keys: seq<string>, at: nat)
    decreases |keys|
  {
    keys == [] ||
      (StoreOk(d.memory.store) && keys[0] in d.open
       && Reserve(At(d.memory.ledger, TicketKey(d.open[keys[0]])), d.open[keys[0]].order).Ok?
       && EachSucceeds(Moved(d, CarryOut(keys[0]), at), keys[1..], at + 1))
  }

  lemma {:induction false} EachSucceedsIsAll(d: Desk, keys: seq<string>, at: nat, submits: seq<string>)
    requires DeskOk(d, submits) && (forall s :: s in keys ==> s in d.open)
    requires forall i, j :: 0 <= i < j < |keys| ==> keys[i] != keys[j]
    ensures EachSucceeds(d, keys, at) <==> AllSucceed(d.memory.ledger, Tickets(d, keys))
    decreases |keys|
  {
    if keys != [] {
      var n := Moved(d, CarryOut(keys[0]), at);
      var next := MoveKeepsDesk(d, CarryOut(keys[0]), at, submits);
      CarryOutLedger(d, keys[0], at, submits);
      assert forall s :: s in keys[1..] ==> s in n.open && n.open[s] == d.open[s];
      EachSucceedsIsAll(n, keys[1..], at + 1, next);
      SameTickets(d, n, keys[1..]);
    }
  }

  lemma {:induction false} SameTickets(d: Desk, n: Desk, keys: seq<string>)
    requires forall s :: s in keys ==> s in d.open && s in n.open && n.open[s] == d.open[s]
    ensures Tickets(d, keys) == Tickets(n, keys)
  {
  }

  /**
   * At any moment of the desk, all open buys of a wallet, in whatever markets and whatever the order, can be carried
   * out one after another if and only if together they cost no more than the wallet has available.
   */
  lemma OpenBuysSucceedIff(d: Desk, submits: seq<string>, keys: seq<string>, at: nat, w: string)
    requires DeskOk(d, submits) && ListsBuys(d, keys, w)
    ensures EachSucceeds(d, keys, at) <==> TotalReserve(Tickets(d, keys)) <= CashOf(d.memory.ledger, w).available
  {
    EachSucceedsIsAll(d, keys, at, submits);
    AllSucceedIff(d.memory.ledger, Tickets(d, keys), w);
  }
}
