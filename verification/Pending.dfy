/** Pending amounts are exactly what the batches still in flight owe: no more, no less, in every reachable state. */
module Pending {
  import opened Types
  import opened Matching
  import opened Batch
  import opened Accounts
  import opened Deltas
  import opened Ledgers
  import opened Inflight
  import opened FundsService

  /** No wallet both buys and sells in the batch. */
  ghost predicate OneSidedBatch(b: BatchEvent) {
    EventOk(b) && forall w :: OneSided(Mine(Legs(b), w))
  }

  /** The netted delta a batch holds for one wallet. */
  function DeltaOf(b: BatchEvent, w: string): Delta
    requires EventOk(b)
  {
    MineIsSubset(Legs(b), w);
    SumLegs(Mine(Legs(b), w))
  }

  predicate AllOk(live: seq<BatchEvent>) {
    forall i :: 0 <= i < |live| ==> EventOk(live[i])
  }

  function ProceedsOf(b: BatchEvent, w: string): nat
    requires EventOk(b)
  {
    Gain(DeltaOf(b, w).cash)
  }

  /** Sale proceeds of one wallet over the batches in flight. */
  function CashInFlight(live: seq<BatchEvent>, w: string): nat
    requires AllOk(live)
  {
    if live == [] then 0 else CashInFlight(live[..|live| - 1], w) + ProceedsOf(live[|live| - 1], w)
  }

  function SharesOf(b: BatchEvent, k: Key, o: Outcome): nat
    requires EventOk(b)
  {
    if b.market != k.market then 0
    else Gain(if o == Yes then DeltaOf(b, k.wallet).yes else DeltaOf(b, k.wallet).no)
  }

  /** Shares of one outcome bought by one wallet in one market over the batches in flight. */
  function SharesInFlight(live: seq<BatchEvent>, k: Key, o: Outcome): nat
    requires AllOk(live)
  {
    if live == [] then 0 else SharesInFlight(live[..|live| - 1], k, o) + SharesOf(live[|live| - 1], k, o)
  }

  ghost predicate PendingAt(g: Ledger, live: seq<BatchEvent>, k: Key)
    requires AllOk(live)
  {
    && CashOf(g, k.wallet).pending == CashInFlight(live, k.wallet)
    && PositionOf(g, k).yes.pending == SharesInFlight(live, k, Yes)
    && PositionOf(g, k).no.pending == SharesInFlight(live, k, No)
  }

  ghost predicate PendingInv(g: Ledger, live: seq<BatchEvent>) {
    AllOk(live) && forall k :: PendingAt(g, live, k)
  }

  // ----- Taking one batch out -----

  function RemoveAt(live: seq<BatchEvent>, i: nat): seq<BatchEvent>
    requires i < |live|
  {
    live[..i] + live[i + 1..]
  }

  lemma RemoveBeforeLast(live: seq<BatchEvent>, i: nat)
    requires i < |live| - 1
    ensures var (n, rest) := (|live| - 1, RemoveAt(live, i));
      rest[..|rest| - 1] == RemoveAt(live[..n], i) && rest[|rest| - 1] == live[n]
  {
  }

  lemma RemoveLast(live: seq<BatchEvent>)
    requires live != []
    ensures RemoveAt(live, |live| - 1) == live[..|live| - 1]
  {
  }

  lemma RemoveKeepsOk(live: seq<BatchEvent>, i: nat)
    requires AllOk(live) && i < |live|
    ensures AllOk(RemoveAt(live, i))
  {
  }

  lemma CashSplits(live: seq<BatchEvent>, w: string)
    requires AllOk(live) && live != []
    ensures var n := |live| - 1;
      AllOk(live[..n]) && CashInFlight(live, w) == CashInFlight(live[..n], w) + ProceedsOf(live[n], w)
  {
  }

  lemma {:induction false} CashWithout(live: seq<BatchEvent>, i: nat, w: string)
    requires AllOk(live) && i < |live|
    ensures AllOk(RemoveAt(live, i))
    ensures CashInFlight(RemoveAt(live, i), w) + ProceedsOf(live[i], w) == CashInFlight(live, w)
  {
    hide CashInFlight, ProceedsOf;
    RemoveKeepsOk(live, i);
    CashSplits(live, w);
    if i == |live| - 1 {
      RemoveLast(live);
    } else {
      RemoveBeforeLast(live, i);
      CashSplits(RemoveAt(live, i), w);
      hide RemoveAt;
      CashWithout(live[..|live| - 1], i, w);
    }
  }

  lemma SharesSplit(live: seq<BatchEvent>, k: Key, o: Outcome)
    requires AllOk(live) && live != []
    ensures var n := |live| - 1;
      AllOk(live[..n]) && SharesInFlight(live, k, o) == SharesInFlight(live[..n], k, o) + SharesOf(live[n], k, o)
  {
  }

  lemma {:induction false} SharesWithout(live: seq<BatchEvent>, i: nat, k: Key, o: Outcome)
    requires AllOk(live) && i < |live|
    ensures AllOk(RemoveAt(live, i))
    ensures SharesInFlight(RemoveAt(live, i), k, o) + SharesOf(live[i], k, o) == SharesInFlight(live, k, o)
  {
    hide SharesInFlight, SharesOf;
    RemoveKeepsOk(live, i);
    SharesSplit(live, k, o);
    if i == |live| - 1 {
      RemoveLast(live);
    } else {
      RemoveBeforeLast(live, i);
      SharesSplit(RemoveAt(live, i), k, o);
      hide RemoveAt;
      SharesWithout(live[..|live| - 1], i, k, o);
    }
  }

  // ----- Applying -----

  /** A one-sided batch adds to what is pending exactly what its netted delta will take away. */
  lemma ApplyAdds(g: Ledger, b: BatchEvent, k: Key)
    requires OneSidedBatch(b)
    ensures var h := ApplyBatch(g, b);
      && CashOf(h, k.wallet).pending == CashOf(g, k.wallet).pending + ProceedsOf(b, k.wallet)
      && PositionOf(h, k).yes.pending == PositionOf(g, k).yes.pending + SharesOf(b, k, Yes)
      && PositionOf(h, k).no.pending == PositionOf(g, k).no.pending + SharesOf(b, k, No)
  {
    var (legs, w) := (Legs(b), k.wallet);
    var (here, mine) := (Key(w, b.market), Mine(legs, w));
    ApplyLegsIsMine(g, b.market, legs, w);
    assert OneSided(mine);
    OneSidedIsExact(mine);
    FillsMakePending(At(g, here), mine);
    var filled := ApplyLegs(g, b.market, legs);
    UpdatesKeepPending(filled, b.market, ByIndex(b.orders), b.updates, here);
    UpdatesKeepPending(filled, b.market, ByIndex(b.orders), b.updates, k);
    if k.market != b.market { ApplyLegsStaysInMarket(g, b.market, legs, k); }
  }

  lemma AppliedKeepsInv(g: Ledger, live: seq<BatchEvent>, b: BatchEvent)
    requires PendingInv(g, live) && OneSidedBatch(b)
    ensures PendingInv(ApplyBatch(g, b), live + [b])
  {
    assert (live + [b])[..|live|] == live;
    forall k: Key
      ensures PendingAt(ApplyBatch(g, b), live + [b], k)
    {
      assert PendingAt(g, live, k);
      ApplyAdds(g, b, k);
    }
  }

  // ----- Settling -----

  /** The caps on settling never cut anything: what is pending covers every batch still in flight. */
  lemma NeverCut(g: Ledger, live: seq<BatchEvent>, i: nat, w: string)
    requires PendingInv(g, live) && i < |live|
    ensures Covers(At(g, Key(w, live[i].market)), DeltaOf(live[i], w))
  {
    var k := Key(w, live[i].market);
    assert PendingAt(g, live, k);
    CashWithout(live, i, w);
    SharesWithout(live, i, k, Yes);
    SharesWithout(live, i, k, No);
  }

  lemma SettleOneTakes(a: Account, mine: seq<Leg>, v: Verdict)
    requires LegsOk(mine) && OneSided(mine) && Covers(a, SumLegs(mine))
    ensures var (r, d) := (SettleOne(a, SumLegs(mine), v), SumLegs(mine));
      && r.cash.pending == a.cash.pending - Gain(d.cash)
      && r.position.yes.pending == a.position.yes.pending - Gain(d.yes)
      && r.position.no.pending == a.position.no.pending - Gain(d.no)
  {
    OneSidedIsExact(mine);
    if v == Confirmed { ConfirmMoves(a, mine); } else { FailMoves(a, mine); }
  }

  lemma SettleTakes(g: Ledger, b: BatchEvent, v: Verdict, k: Key)
    requires OneSidedBatch(b) && Covers(At(g, Key(k.wallet, b.market)), DeltaOf(b, k.wallet))
    ensures var h := Settle(g, b, v);
      && CashOf(h, k.wallet).pending == CashOf(g, k.wallet).pending - ProceedsOf(b, k.wallet)
      && PositionOf(h, k).yes.pending == PositionOf(g, k).yes.pending - SharesOf(b, k, Yes)
      && PositionOf(h, k).no.pending == PositionOf(g, k).no.pending - SharesOf(b, k, No)
  {
    var here := Key(k.wallet, b.market);
    SettleTakesHere(g, b, v, k.wallet);
    if k.market == b.market {
      assert k == here;
    } else {
      SettleStaysInMarket(g, b, v, k);
    }
    hide OneSidedBatch, Settle, Covers, DeltaOf, ProceedsOf;
  }

  lemma SettleTakesHere(g: Ledger, b: BatchEvent, v: Verdict, w: string)
    requires OneSidedBatch(b) && Covers(At(g, Key(w, b.market)), DeltaOf(b, w))
    ensures var (was, now) := (At(g, Key(w, b.market)), At(Settle(g, b, v), Key(w, b.market)));
      && now.cash.pending == was.cash.pending - ProceedsOf(b, w)
      && now.position.yes.pending == was.position.yes.pending - Gain(DeltaOf(b, w).yes)
      && now.position.no.pending == was.position.no.pending - Gain(DeltaOf(b, w).no)
  {
    var mine := Mine(Legs(b), w);
    assert OneSided(mine);
    SettleIsMine(g, b, v, w);
    SettleOneTakes(At(g, Key(w, b.market)), mine, v);
    hide OneSidedBatch, Settle, SettleOne, Covers, OneSided, Legs, Mine, SumLegs, At;
  }

  lemma SettledAt(g: Ledger, live: seq<BatchEvent>, i: nat, v: Verdict, k: Key)
    requires PendingInv(g, live) && i < |live| && OneSidedBatch(live[i])
    ensures AllOk(RemoveAt(live, i)) && PendingAt(Settle(g, live[i], v), RemoveAt(live, i), k)
  {
    assert PendingAt(g, live, k);
    RemoveKeepsOk(live, i);
    hide RemoveAt, Settle, SharesOf, ProceedsOf, PendingInv, OneSidedBatch, Covers;
    NeverCut(g, live, i, k.wallet);
    SettleTakes(g, live[i], v, k);
    CashWithout(live, i, k.wallet);
    SharesWithout(live, i, k, Yes);
    SharesWithout(live, i, k, No);
  }

  lemma SettledKeepsInv(g: Ledger, live: seq<BatchEvent>, i: nat, v: Verdict)
    requires PendingInv(g, live) && i < |live| && OneSidedBatch(live[i])
    ensures PendingInv(Settle(g, live[i], v), RemoveAt(live, i))
  {
    var (h, rest) := (Settle(g, live[i], v), RemoveAt(live, i));
    RemoveKeepsOk(live, i);
    forall k: Key
      ensures PendingAt(h, rest, k)
    {
      SettledAt(g, live, i, v, k);
    }
  }

  /** Reservations, releases, deposits and withdrawals leave everything pending as it is. */
  lemma OthersKeepInv(g: Ledger, live: seq<BatchEvent>, f: Effect)
    requires PendingInv(g, live) && EffectOk(f) && !f.Applying? && !f.Settling?
    ensures PendingInv(Perform(g, f), live)
  {
    var h := Perform(g, f);
    forall k: Key
      ensures PendingAt(h, live, k)
    {
      assert PendingAt(g, live, k);
      if f.Releasing? {
        assert PendingAt(g, live, Key(f.order.wallet, f.market));
        ReleasePreserves(At(g, Key(f.order.wallet, f.market)), f.order, f.qty, f.refund);
      }
      if f.Reserving? {
        assert PendingAt(g, live, Key(f.order.wallet, f.market));
        ReserveMoves(At(g, Key(f.order.wallet, f.market)), f.order);
      }
    }
  }

  // ----- The batches in flight -----

  predicate HasId(live: seq<BatchEvent>, id: string) {
    exists i :: 0 <= i < |live| && live[i].id == id
  }

  predicate DistinctIds(live: seq<BatchEvent>) {
    forall i, j :: 0 <= i < j < |live| ==> live[i].id != live[j].id
  }

  predicate InFlight(s: Store, b: BatchEvent) {
    b.id in s.entries && !s.entries[b.id].phase.Done? && s.entries[b.id].raw == Some(b)
  }

  /** `live` lists exactly the entries that are not done, each once, each as its raw batch. */
  ghost predicate Lists(s: Store, live: seq<BatchEvent>) {
    && DistinctIds(live)
    && (forall i :: 0 <= i < |live| ==> InFlight(s, live[i]))
    && (forall id :: id in s.entries && !s.entries[id].phase.Done? ==> HasId(live, id))
  }

  ghost predicate AllOneSided(live: seq<BatchEvent>) {
    forall i :: 0 <= i < |live| ==> OneSidedBatch(live[i])
  }

  ghost predicate Fair(e: Event) {
    Legal(e) && (e.MatchExecuted? ==> OneSidedBatch(e.batch))
  }

  ghost predicate Sound(m: Memory, live: seq<BatchEvent>) {
    StoreOk(m.store) && Lists(m.store, live) && AllOneSided(live) && PendingInv(m.ledger, live)
  }

  lemma ListsAppended(s: Store, r: Store, b: BatchEvent, live: seq<BatchEvent>)
    requires Lists(s, live) && b.id !in s.entries && InFlight(r, b)
    requires forall id :: id in r.entries <==> id in s.entries || id == b.id
    requires forall id :: id in s.entries ==> r.entries[id] == s.entries[id]
    ensures Lists(r, live + [b])
  {
    var more := live + [b];
    forall i | 0 <= i < |more|
      ensures InFlight(r, more[i])
    {
      if i < |live| { assert InFlight(s, live[i]); }
    }
    forall id | id in r.entries && !r.entries[id].phase.Done?
      ensures HasId(more, id)
    {
      if id == b.id {
        assert more[|live|].id == id;
      } else {
        assert HasId(live, id);
        var i :| 0 <= i < |live| && live[i].id == id;
        assert more[i].id == id;
      }
    }
    forall i | 0 <= i < |live|
      ensures live[i].id != b.id
    {
      assert InFlight(s, live[i]);
    }
  }

  lemma ListsUnchanged(s: Store, r: Store, id: string, live: seq<BatchEvent>)
    requires Lists(s, live) && id !in s.entries && id in r.entries && r.entries[id].phase.Done?
    requires forall x :: x in r.entries <==> x in s.entries || x == id
    requires forall x :: x in s.entries ==> r.entries[x] == s.entries[x]
    ensures Lists(r, live)
  {
    forall i | 0 <= i < |live|
      ensures InFlight(r, live[i])
    {
      assert InFlight(s, live[i]);
    }
  }

  lemma ListsRemoved(s: Store, live: seq<BatchEvent>, i: nat, v: Verdict)
    requires Lists(s, live) && i < |live|
    ensures Lists(ToDone(s, live[i].id, v), RemoveAt(live, i))
  {
    var (id, r, rest) := (live[i].id, ToDone(s, live[i].id, v), RemoveAt(live, i));
    assert InFlight(s, live[i]);
    forall j | 0 <= j < |rest|
      ensures InFlight(r, rest[j])
    {
      var k := if j < i then j else j + 1;
      assert rest[j] == live[k] && InFlight(s, live[k]);
      assert live[k].id != id;
    }
    forall x | x in r.entries && !r.entries[x].phase.Done?
      ensures HasId(rest, x)
    {
      assert HasId(live, x);
      var k :| 0 <= k < |live| && live[k].id == x;
      assert rest[if k < i then k else k - 1].id == x;
    }
  }

  lemma RemoveKeepsOneSided(live: seq<BatchEvent>, i: nat)
    requires AllOneSided(live) && i < |live|
    ensures AllOneSided(RemoveAt(live, i))
  {
    var rest := RemoveAt(live, i);
    forall j | 0 <= j < |rest|
      ensures OneSidedBatch(rest[j])
    {
      assert rest[j] == live[if j < i then j else j + 1];
    }
  }

  lemma AppendRemoves(live: seq<BatchEvent>, b: BatchEvent)
    ensures RemoveAt(live + [b], |live|) == live
  {
  }

  /** What a new batch does to the ledger, by the news that waited for it. */
  lemma MatchKeepsLedger(m: Memory, at: nat, b: BatchEvent, live: seq<BatchEvent>)
    requires StoreOk(m.store) && PendingInv(m.ledger, live) && OneSidedBatch(b) && IsNew(m.store, b)
    ensures PendingInv(Handle(m, at, MatchExecuted(b)).ledger,
                       if b.id in m.store.waiting && m.store.waiting[b.id].WasSettled? then live else live + [b])
  {
    assert EventOk(b);
    MatchLedger(m, at, b);
    hide PendingInv, StoreOk, OneSidedBatch, Handle, RemoveAt;
    AppliedKeepsInv(m.ledger, live, b);
    if b.id in m.store.waiting && m.store.waiting[b.id].WasSettled? {
      SettledKeepsInv(ApplyBatch(m.ledger, b), live + [b], |live|, m.store.waiting[b.id].verdict);
      AppendRemoves(live, b);
    }
  }

  lemma MatchKeepsSound(m: Memory, at: nat, b: BatchEvent, live: seq<BatchEvent>)
    requires Sound(m, live) && OneSidedBatch(b) && IsNew(m.store, b)
    ensures Sound(Handle(m, at, MatchExecuted(b)),
                  if b.id in m.store.waiting && m.store.waiting[b.id].WasSettled? then live else live + [b])
  {
    var h := Handle(m, at, MatchExecuted(b));
    HandleKeepsStore(m, at, MatchExecuted(b));
    MatchKeepsLedger(m, at, b, live);
    hide PendingInv, Lists, StoreOk, OneSidedBatch, PerformAll, Effects;
    if b.id in m.store.waiting && m.store.waiting[b.id].WasSettled? {
      ListsUnchanged(m.store, h.store, b.id, live);
    } else {
      ListsAppended(m.store, h.store, b, live);
    }
  }

  lemma EndKeepsSound(m: Memory, at: nat, v: Verdict, live: seq<BatchEvent>, i: nat)
    requires Sound(m, live) && i < |live| && live[i].id != ""
    ensures Sound(Handle(m, at, SettlementEnded(live[i].id, v)), RemoveAt(live, i))
  {
    HandleKeepsStore(m, at, SettlementEnded(live[i].id, v));
    assert InFlight(m.store, live[i]);
    ListsRemoved(m.store, live, i, v);
    RemoveKeepsOneSided(live, i);
    EndLedger(m, at, live[i].id, v);
    hide PendingInv, Lists, StoreOk, OneSidedBatch, RemoveAt, PerformAll, Effects;
    SettledKeepsInv(m.ledger, live, i, v);
  }

  /** Messages that change no entry and settle or apply nothing. */
  predicate Quiet(m: Memory, e: Event) {
    && (e.MatchExecuted? ==> !IsNew(m.store, e.batch))
    && (e.SettlementEnded? ==> e.id == "" || !Transitions(m.store, e.id))
  }

  lemma QuietKeepsLists(s: Store, at: nat, e: Event, live: seq<BatchEvent>)
    requires Lists(s, live)
    requires e.MatchExecuted? ==> !IsNew(s, e.batch)
    requires e.SettlementEnded? ==> e.id == "" || !Transitions(s, e.id)
    ensures Lists(NextStore(s, at, e), live)
  {
    var r := NextStore(s, at, e);
    assert forall id :: id in r.entries <==> id in s.entries;
    forall i | 0 <= i < |live|
      ensures InFlight(r, live[i])
    {
      assert InFlight(s, live[i]);
    }
  }

  lemma QuietKeepsSound(m: Memory, at: nat, e: Event, live: seq<BatchEvent>)
    requires Sound(m, live) && Fair(e) && Quiet(m, e)
    ensures Sound(Handle(m, at, e), live)
  {
    HandleKeepsStore(m, at, e);
    QuietKeepsLists(m.store, at, e, live);
    var fs := Effects(m, e);
    PerformShort(m.ledger, fs);
    if fs != [] { OthersKeepInv(m.ledger, live, fs[0]); }
  }

  lemma DropKeepsSound(m: Memory, saved: nat, live: seq<BatchEvent>)
    requires Sound(m, live)
    ensures Sound(m.(store := Evict(m.store, saved)), live)
  {
    EvictKeepsStore(m.store, saved);
    forall i | 0 <= i < |live|
      ensures InFlight(Evict(m.store, saved), live[i])
    {
      assert InFlight(m.store, live[i]);
    }
  }

  lemma HandleKeepsSound(m: Memory, at: nat, e: Event, live: seq<BatchEvent>) returns (after: seq<BatchEvent>)
    requires Sound(m, live) && Fair(e)
    ensures Sound(Handle(m, at, e), after)
  {
    if e.MatchExecuted? && IsNew(m.store, e.batch) {
      MatchKeepsSound(m, at, e.batch, live);
      after := if e.batch.id in m.store.waiting && m.store.waiting[e.batch.id].WasSettled? then live else live + [e.batch];
    } else if e.SettlementEnded? && e.id != "" && Transitions(m.store, e.id) {
      assert HasId(live, e.id);
      var i :| 0 <= i < |live| && live[i].id == e.id;
      EndKeepsSound(m, at, e.verdict, live, i);
      after := RemoveAt(live, i);
    } else {
      QuietKeepsSound(m, at, e, live);
      after := live;
    }
  }

  ghost predicate FairSteps(hs: seq<Step>) {
    forall i :: 0 <= i < |hs| && hs[i].Take? ==> Fair(hs[i].event)
  }

  /**
   * For every history of one-sided batches there is a list of exactly the batches still in flight such that every
   * wallet's pending cash is its sale proceeds over that list, and its pending shares are the shares it bought.
   */
  lemma {:induction false} PendingIsInFlight(g: Ledger, hs: seq<Step>) returns (live: seq<BatchEvent>)
    requires LegalSteps(hs) && FairSteps(hs) && PendingInv(g, [])
    ensures Lists(Run(g, hs).store, live) && PendingInv(Run(g, hs).ledger, live)
    ensures Sound(Run(g, hs), live)
  {
    if hs == [] {
      live := [];
    } else {
      var front, last := hs[..|hs| - 1], hs[|hs| - 1];
      var before := PendingIsInFlight(g, front);
      if last.Take? {
        live := HandleKeepsSound(Run(g, front), |hs|, last.event, before);
      } else {
        live := before;
        DropKeepsSound(Run(g, front), last.saved, before);
      }
    }
  }

  /** In every reachable state, settling any batch still in flight finds all it needs: no cap cuts anything. */
  lemma ReachableNeverCut(g: Ledger, hs: seq<Step>, id: string, w: string)
    requires LegalSteps(hs) && FairSteps(hs) && PendingInv(g, [])
    requires Transitions(Run(g, hs).store, id)
    ensures Run(g, hs).store.entries[id].raw.Some?
    ensures var b := Run(g, hs).store.entries[id].raw.value;
      EventOk(b) && Covers(At(Run(g, hs).ledger, Key(w, b.market)), DeltaOf(b, w))
  {
    var live := PendingIsInFlight(g, hs);
    assert HasId(live, id);
    var i :| 0 <= i < |live| && live[i].id == id;
    assert InFlight(Run(g, hs).store, live[i]);
    NeverCut(Run(g, hs).ledger, live, i, w);
  }

  /** Nothing is ever negative while pending. */
  lemma PendingNonNegative(g: Ledger, hs: seq<Step>, k: Key)
    requires LegalSteps(hs) && FairSteps(hs) && PendingInv(g, [])
    ensures var a := At(Run(g, hs).ledger, k);
      a.cash.pending >= 0 && a.position.yes.pending >= 0 && a.position.no.pending >= 0
  {
    var live := PendingIsInFlight(g, hs);
    assert PendingAt(Run(g, hs).ledger, live, k);
  }

  lemma {:induction false} OriginalStays(hs: seq<Step>, i: nat, id: string)
    requires i < |hs| && Original(hs[..i], id) == None && hs[i].Take? && hs[i].event.MatchExecuted? && hs[i].event.batch.id == id
    ensures Original(hs, id) == Some(hs[i].event.batch)
    decreases |hs|
  {
    if i < |hs| - 1 {
      assert hs[..|hs| - 1][..i] == hs[..i];
      OriginalStays(hs[..|hs| - 1], i, id);
    }
  }

  /**
   * A batch that is applied at step `i` and fails after any further history, with other batches applied, confirmed
   * and failed in between, gives each wallet back everything it took out of its locks.
   */
  lemma FailedBatchGivesBack(g: Ledger, hs: seq<Step>, i: nat, b: BatchEvent, w: string)
    requires LegalSteps(hs) && FairSteps(hs) && PendingInv(g, []) && b.id != ""
    requires i < |hs| && hs[i] == Take(MatchExecuted(b)) && b.id !in Run(g, hs[..i]).store.entries
    requires Transitions(Run(g, hs).store, b.id) && EventOk(b)
    requires LegsOk(Mine(Legs(b), w)) && Protected(Mine(Legs(b), w))
    requires NoClamp(At(Run(g, hs[..i]).ledger, Key(w, b.market)), Mine(Legs(b), w))
    ensures var (k, before, later) := (Key(w, b.market), Run(g, hs[..i]).ledger, Run(g, hs).ledger);
      GivesBack(At(before, k), At(ApplyLegs(before, b.market, Legs(b)), k), At(later, k), At(Settle(later, b, Failed), k), Mine(Legs(b), w))
  {
    ExactlyOnce(g, hs[..i], b.id);
    ExactlyOnce(g, hs, b.id);
    OriginalStays(hs, i, b.id);
    ReachableNeverCut(g, hs, b.id, w);
    ApplyLegsIsMine(Run(g, hs[..i]).ledger, b.market, Legs(b), w);
    SettleIsMine(Run(g, hs).ledger, b, Failed, w);
    assert Fair(hs[i].event);
    assert OneSided(Mine(Legs(b), w));
    ApplyThenFail(At(Run(g, hs[..i]).ledger, Key(w, b.market)), At(Run(g, hs).ledger, Key(w, b.market)), Mine(Legs(b), w));
  }
}
