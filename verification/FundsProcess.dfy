/** The funds service as it runs: handlers over the manager, the in-flight store and the admission store. */
module FundsProcess {
  import opened Types
  import opened Matching
  import opened Batch
  import opened Accounts
  import opened Deltas
  import opened Ledgers
  import opened Inflight
  import opened FundsService
  import opened FundsManager
  import opened Admission

  class Service {
    const manager: Manager
    const inflight: InflightStore
    const pending: PendingReserveStore
    var submits: set<string>
    var deposits: set<string>
    var withdrawals: set<string>
    var evtSeq: nat

    ghost predicate Valid()
      reads this, manager, inflight
    {
      manager.Valid() && StoreOk(inflight.View())
    }

    function View(): Memory
      reads this, manager, inflight
    {
      Memory(manager.View(), inflight.View(), submits, deposits, withdrawals)
    }

    constructor ()
      ensures Valid() && fresh(manager) && fresh(inflight) && fresh(pending)
      ensures View() == Fresh(NO_LEDGER) && pending.View() == NO_HOLDS && evtSeq == 0
    {
      manager := new Manager();
      inflight := new InflightStore();
      pending := new PendingReserveStore();
      submits, deposits, withdrawals, evtSeq := {}, {}, {}, 0;
    }

    /** Acknowledging a message moves the event position forward, never back. */
    method Ack(at: nat)
      modifies `evtSeq
      ensures evtSeq == if at > old(evtSeq) then at else old(evtSeq)
    {
      if at > evtSeq {
        evtSeq := at;
      }
    }

    /** Whether a submit is accepted; it is then held until its reservation is carried out. One without a key is dropped. */
    method HandleSubmit(key: string, t: Ticket) returns (published: Option<bool>)
      requires Valid()
      modifies pending
      ensures var seen := key == "" || key in submits || key in old(pending.View()).bySubmit;
        var ok := Reserve(Seen(At(manager.View(), TicketKey(t)), HeldAt(old(pending.View()), TicketKey(t))), t.order).Ok?;
        && published == (if seen then None else Some(ok))
        && pending.View() == if !seen && ok then MarkHold(old(pending.View()), key, HoldOf(t.order, t.market)) else old(pending.View())
    {
      if key == "" {
        return None;
      }
      if key in submits || key in pending.bySubmit {
        return None;
      }
      var a := manager.Snapshot(TicketKey(t));
      a := pending.Apply(TicketKey(t), a);
      if t.order.action == Buy && a.cash.available < RequiredReserve(t.order) {
        return Some(false);
      }
      if t.order.action == Sell && a.position.Of(t.order.outcome).available < t.order.qty {
        return Some(false);
      }
      pending.Mark(key, HoldOf(t.order, t.market));
      return Some(true);
    }

    method HandleReserved(key: string, o: Order, market: nat, at: nat)
      requires Valid()
      modifies this, manager, pending
      ensures Valid() && View() == Handle(old(View()), at, OrderReserved(key, o, market))
      ensures pending.View() == if key == "" then old(pending.View()) else DeleteHold(old(pending.View()), key)
    {
      ghost var m := View();
      if key != "" && key in submits {
        pending.Delete(key);
        Ack(at);
        return;
      }
      OneEffect(m.ledger, Reserving(o, market));
      var error := manager.ReserveOrder(o, market);
      if key != "" {
        submits := submits + {key};
        pending.Delete(key);
      }
      Ack(at);
    }

    method HandleReserveRejected(key: string, at: nat)
      requires Valid()
      modifies this, pending
      ensures Valid() && View() == Handle(old(View()), at, ReserveRejected(key))
      ensures pending.View() == if key == "" then old(pending.View()) else DeleteHold(old(pending.View()), key)
    {
      if key != "" {
        pending.Delete(key);
        submits := submits + {key};
      }
      Ack(at);
    }

    /** All fills of a batch in order, then the releases its updates call for. */
    method ApplyBatchEvent(e: BatchEvent)
      requires manager.Valid() && EventOk(e)
      modifies manager
      ensures manager.Valid() && manager.View() == ApplyBatch(old(manager.View()), e)
    {
      var index := IndexOrders(e.orders);
      hide Manager.Valid, ApplyLegs, ApplyUpdates;
      ApplyFills(e, index);
      ApplyReleases(e, index);
    }

    method ApplyFills(e: BatchEvent, index: map<nat, Order>)
      requires manager.Valid() && EventOk(e) && index == ByIndex(e.orders)
      modifies manager
      ensures manager.Valid() && manager.View() == ApplyLegs(old(manager.View()), e.market, Legs(e))
    {
      ghost var g := manager.View();
      assert ApplyLegs(g, e.market, LegsOf(index, e.fills[..0])) == g;
      hide Manager.Valid, FillApplied, ApplyLegs, LegsOf;
      var i := 0;
      while i < |e.fills|
        invariant i <= |e.fills| && manager.Valid()
        invariant manager.View() == ApplyLegs(g, e.market, LegsOf(index, e.fills[..i]))
      {
        NextFill(g, e.market, index, e.fills, i);
        ApplyFill(e.fills[i], index, e.market);
        i := i + 1;
      }
      assert e.fills[..i] == e.fills;
    }

    method ApplyFill(f: MatchFill, index: map<nat, Order>, market: nat)
      requires manager.Valid() && f.price <= 100
      modifies manager
      ensures manager.Valid() && manager.View() == FillApplied(old(manager.View()), market, index, f)
    {
      hide Manager.Valid, ApplyLeg;
      if f.makerIndex in index && f.takerIndex in index {
        manager.ApplyMatchPending(Leg(index[f.makerIndex], f.amount, f.price), Leg(index[f.takerIndex], f.amount, f.price), market);
      }
    }

    method ApplyReleases(e: BatchEvent, index: map<nat, Order>)
      requires manager.Valid()
      modifies manager
      ensures manager.Valid() && manager.View() == ApplyUpdates(old(manager.View()), e.market, index, e.updates)
    {
      hide Manager.Valid, ReleaseOrder;
      ghost var g := manager.View();
      var i := 0;
      while i < |e.updates|
        invariant i <= |e.updates| && manager.Valid()
        invariant manager.View() == ApplyUpdates(g, e.market, index, e.updates[..i])
      {
        var u := e.updates[i];
        assert e.updates[..i + 1][..i] == e.updates[..i];
        if Releases(u) && u.orderIndex in index {
          manager.ReleaseOneOrder(index[u.orderIndex], e.market, u.remainingQty, u.refund);
        }
        i := i + 1;
      }
      assert e.updates[..i] == e.updates;
    }

    /** News that waited for a batch, acted on once the batch is in. */
    method ApplyPendingLifecycle(id: string, news: Option<News>)
      requires Valid() && id != "" && id in inflight.View().entries
      modifies manager, inflight
      ensures manager.Valid()
      ensures var (s, g) := (old(inflight.View()), old(manager.View()));
        && (Transitions(s, id) ==> s.entries[id].raw.Some? && EventOk(s.entries[id].raw.value))
        && match news
           case None => manager.View() == g && inflight.View() == s
           case Some(WasSubmitted(signature)) => manager.View() == g && inflight.View() == ToSubmitted(s, id, signature)
           case Some(WasSettled(v)) =>
             && manager.View() == (if Transitions(s, id) then Settle(g, s.entries[id].raw.value, v) else g)
             && inflight.View() == ToDone(s, id, v)
    {
      hide Settle, Manager.Valid, EventOk, ToDone, Keep, ToSubmitted;
      assert EntryOk(id, inflight.View().entries[id]);
      match news
      case None =>
      case Some(WasSubmitted(signature)) =>
        var ok, conflict := inflight.AdvanceToSubmitted(id, signature);
      case Some(WasSettled(v)) =>
        ApplyTerminal(id, v);
    }

    method HandleMatchBatch(b: BatchEvent, at: nat)
      requires Valid() && EventOk(b)
      modifies this, manager, inflight
      ensures Valid() && View() == Handle(old(View()), at, MatchExecuted(b))
    {
      ghost var m := View();
      HandleKeepsStore(m, at, MatchExecuted(b));
      if b.id == "" {
        return;
      }
      var registered := inflight.RegisterEntry(b.id, Entry(b.market, PendingApplied, at, "", Some(b)));
      if !registered {
        Ack(at);
        return;
      }
      MatchLedger(m, at, b);
      hide Manager.Valid, Settle, ApplyBatch, PerformAll, Effects;
      ApplyBatchEvent(b);
      var news := inflight.TakePendingTerminal(b.id);
      TakenKeepsStore(m.store, at, b);
      ApplyPendingLifecycle(b.id, news);
      Ack(at);
    }

    method HandleSettlementSubmitted(id: string, signature: string, at: nat)
      requires Valid()
      modifies this, inflight
      ensures Valid() && View() == Handle(old(View()), at, SettlementSubmitted(id, signature))
    {
      ghost var m := View();
      HandleKeepsStore(m, at, SettlementSubmitted(id, signature));
      if id == "" {
        return;
      }
      if id !in inflight.entries {
        inflight.AddPendingTerminal(id, WasSubmitted(signature));
      } else {
        var ok, conflict := inflight.AdvanceToSubmitted(id, signature);
      }
      Ack(at);
    }

    /** A verdict: the entry moves to its end and its batch is settled, or the verdict is kept for later. */
    method ApplyTerminal(id: string, v: Verdict)
      requires Valid() && id != ""
      modifies manager, inflight
      ensures manager.Valid()
      ensures var (s, g) := (old(inflight.View()), old(manager.View()));
        && (Transitions(s, id) ==> s.entries[id].raw.Some? && EventOk(s.entries[id].raw.value))
        && manager.View() == (if Transitions(s, id) then Settle(g, s.entries[id].raw.value, v) else g)
        && inflight.View() == (if id in s.entries then ToDone(s, id, v) else Keep(s, id, WasSettled(v)))
    {
      ghost var s := inflight.View();
      EndStore(s, 0, id, v);
      assert id in s.entries ==> EntryOk(id, s.entries[id]);
      hide Settle, Manager.Valid, EventOk, StoreOk, ToDone, Keep;
      var known := id in inflight.entries;
      var r := inflight.AdvanceToTerminal(id, v);
      if r.transitioned {
        manager.ApplySettlementByBatch(r.raw.value, v);
      } else if !r.conflict && !known {
        inflight.AddPendingTerminal(id, WasSettled(v));
      }
    }

    method HandleSettlementEnded(id: string, v: Verdict, at: nat)
      requires Valid()
      modifies this, manager, inflight
      ensures Valid() && View() == Handle(old(View()), at, SettlementEnded(id, v))
    {
      ghost var m := View();
      HandleKeepsStore(m, at, SettlementEnded(id, v));
      if id == "" {
        return;
      }
      EndHandled(m, at, id, v);
      EndStore(m.store, at, id, v);
      hide Handle, NextStore, Settle, Manager.Valid, EventOk, StoreOk, ToDone, Keep;
      ApplyTerminal(id, v);
      Ack(at);
    }

    method HandleOrderReleased(o: Order, market: nat, qty: nat, refund: nat, at: nat)
      requires Valid()
      modifies this, manager
      ensures Valid() && View() == Handle(old(View()), at, OrderReleased(o, market, qty, refund))
    {
      ghost var m := View();
      if o.id != 0 && o.wallet != "" {
        manager.ReleaseOneOrder(o.(spend := refund), market, qty, refund);
        OneEffect(m.ledger, Releasing(o.(spend := refund), market, qty, refund));
      }
      Ack(at);
    }

    method HandleDepositConfirmed(signature: string, wallet: string, amount: nat, at: nat)
      requires Valid()
      modifies this, manager
      ensures Valid() && View() == Handle(old(View()), at, DepositConfirmed(signature, wallet, amount))
    {
      ghost var m := View();
      if signature == "" {
        return;
      }
      if signature !in deposits {
        manager.ApplyDepositConfirmed(wallet, amount);
        OneEffect(m.ledger, Crediting(wallet, amount));
        deposits := deposits + {signature};
      }
      Ack(at);
    }

    method HandleWithdrawConfirmed(signature: string, wallet: string, amount: nat, at: nat)
      requires Valid()
      modifies this, manager
      ensures Valid() && View() == Handle(old(View()), at, WithdrawConfirmed(signature, wallet, amount))
    {
      ghost var m := View();
      if signature == "" {
        return;
      }
      if signature !in withdrawals {
        manager.ApplyWithdrawConfirmed(wallet, amount);
        OneEffect(m.ledger, Debiting(wallet, amount));
        withdrawals := withdrawals + {signature};
      }
      Ack(at);
    }
  }

  lemma EndStore(s: Store, at: nat, id: string, v: Verdict)
    requires id != ""
    ensures NextStore(s, at, SettlementEnded(id, v)) == if id in s.entries then ToDone(s, id, v) else Keep(s, id, WasSettled(v))
    ensures id !in s.entries ==> ToDone(s, id, v) == s
  {
  }

  lemma TakenKeepsStore(s: Store, at: nat, b: BatchEvent)
    requires StoreOk(s) && EventOk(b) && IsNew(s, b)
    ensures StoreOk(Forget(Register(s, b.id, Entry(b.market, PendingApplied, at, "", Some(b))), b.id))
  {
    var r := Register(s, b.id, Entry(b.market, PendingApplied, at, "", Some(b)));
    forall id | id in r.entries
      ensures EntryOk(id, r.entries[id])
    {
      if id != b.id { assert EntryOk(id, s.entries[id]); }
    }
  }

  lemma OneEffect(g: Ledger, f: Effect)
    requires EffectOk(f)
    ensures PerformAll(g, [f]) == Perform(g, f)
  {
    PerformShort(g, [f]);
  }

  /** Both sides of a fill, or nothing if the batch lacks one of its orders. */
  function FillApplied(g: Ledger, market: nat, index: map<nat, Order>, f: MatchFill): Ledger
    requires f.price <= 100
  {
    if f.makerIndex in index && f.takerIndex in index then
      ApplyLeg(ApplyLeg(g, market, Leg(index[f.makerIndex], f.amount, f.price)), market, Leg(index[f.takerIndex], f.amount, f.price))
    else g
  }

  lemma NextFill(g: Ledger, market: nat, index: map<nat, Order>, fills: seq<MatchFill>, i: nat)
    requires i < |fills| && forall j :: 0 <= j < |fills| ==> fills[j].price <= 100
    ensures ApplyLegs(g, market, LegsOf(index, fills[..i + 1]))
         == FillApplied(ApplyLegs(g, market, LegsOf(index, fills[..i])), market, index, fills[i])
  {
    var (legs, f) := (LegsOf(index, fills[..i]), fills[i]);
    assert fills[..i + 1][..i] == fills[..i];
    if f.makerIndex in index && f.takerIndex in index {
      var (a, b) := (Leg(index[f.makerIndex], f.amount, f.price), Leg(index[f.takerIndex], f.amount, f.price));
      hide ApplyLeg;
      assert (legs + [a, b])[..|legs| + 1] == legs + [a] && (legs + [a])[..|legs|] == legs;
    } else {
      assert legs + [] == legs;
    }
  }
}
