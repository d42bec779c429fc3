/** Write-back to the database, crash, restore and replay: a crash is invisible once the log has been replayed. */
module Recovery {
  import opened Types
  import opened Batch
  import opened Accounts
  import opened Deltas
  import opened Ledgers
  import opened Inflight
  import opened FundsService
  import opened FundsManager

  // ----- Ledgers that agree on all that is written back -----

  /** The same cash, and the same position if the market has a number. */
  predicate SameAccount(a: Account, b: Account, market: nat) {
    a.cash == b.cash && (market != 0 ==> a.position == b.position)
  }

  /** A wallet without a name is flagged and never queued, and a position in market 0 is queued and never written. */
  ghost predicate SameBooks(g: Ledger, h: Ledger) {
    forall k: Key :: k.wallet != "" ==> SameAccount(At(g, k), At(h, k), k.market)
  }

  lemma AtSame(g: Ledger, h: Ledger, k: Key)
    requires SameBooks(g, h) && k.wallet != ""
    ensures SameAccount(At(g, k), At(h, k), k.market)
  {
  }

  lemma PutSame(g: Ledger, h: Ledger, k: Key, a: Account, b: Account)
    requires SameBooks(g, h) && (k.wallet != "" ==> SameAccount(a, b, k.market))
    ensures SameBooks(Put(g, k, a), Put(h, k, b))
  {
    forall j: Key | j.wallet != ""
      ensures SameAccount(At(Put(g, k, a), j), At(Put(h, k, b), j), j.market)
    {
      assert SameAccount(At(g, j), At(h, j), j.market);
      if j.wallet == k.wallet && j != k { assert PositionOf(Put(g, k, a), j) == PositionOf(g, j); }
    }
  }

  /** What is put where nothing is written makes no difference. */
  lemma PutUnwritten(g: Ledger, k: Key, a: Account)
    requires k.wallet != "" ==> k.market == 0 && a.cash == CashOf(g, k.wallet)
    ensures SameBooks(Put(g, k, a), g)
  {
    forall j: Key | j.wallet != ""
      ensures SameAccount(At(Put(g, k, a), j), At(g, j), j.market)
    {
      if j == k { assert j.market == 0; }
    }
  }

  lemma SameBooksTrans(f: Ledger, g: Ledger, h: Ledger)
    requires SameBooks(f, g) && SameBooks(g, h)
    ensures SameBooks(f, h)
  {
    forall k: Key | k.wallet != ""
      ensures SameAccount(At(f, k), At(h, k), k.market)
    {
      assert SameAccount(At(f, k), At(g, k), k.market) && SameAccount(At(g, k), At(h, k), k.market);
    }
  }

  lemma SameBooksSym(g: Ledger, h: Ledger)
    requires SameBooks(g, h)
    ensures SameBooks(h, g)
  {
    forall k: Key | k.wallet != ""
      ensures SameAccount(At(h, k), At(g, k), k.market)
    {
      assert SameAccount(At(g, k), At(h, k), k.market);
    }
  }

  // No operation makes cash depend on a position.

  lemma FillSame(a: Account, b: Account, l: Leg, market: nat)
    requires LegOk(l) && SameAccount(a, b, market)
    ensures SameAccount(Fill(a, l), Fill(b, l), market)
  {
  }

  lemma ReleaseSame(a: Account, b: Account, o: Types.Order, qty: nat, refund: nat, market: nat)
    requires SameAccount(a, b, market)
    ensures SameAccount(Release(a, o, qty, refund), Release(b, o, qty, refund), market)
  {
  }

  lemma SettleOneSame(a: Account, b: Account, d: Delta, v: Verdict, market: nat)
    requires SameAccount(a, b, market)
    ensures SameAccount(SettleOne(a, d, v), SettleOne(b, d, v), market)
  {
  }

  lemma {:induction false} LegsSame(g: Ledger, h: Ledger, market: nat, legs: seq<Leg>)
    requires SameBooks(g, h) && LegsOk(legs)
    ensures SameBooks(ApplyLegs(g, market, legs), ApplyLegs(h, market, legs))
  {
    if legs != [] {
      var (l, front) := (legs[|legs| - 1], legs[..|legs| - 1]);
      var (x, y, k) := (ApplyLegs(g, market, front), ApplyLegs(h, market, front), Key(l.order.wallet, market));
      LegsSame(g, h, market, front);
      hide SameBooks, SameAccount, Fill, Put, At;
      if k.wallet != "" {
        AtSame(x, y, k);
        FillSame(At(x, k), At(y, k), l, market);
      }
      PutSame(x, y, k, Fill(At(x, k), l), Fill(At(y, k), l));
    }
  }

  lemma ReleaseOrderSame(g: Ledger, h: Ledger, o: Types.Order, market: nat, qty: nat, refund: nat)
    requires SameBooks(g, h)
    ensures SameBooks(ReleaseOrder(g, o, market, qty, refund), ReleaseOrder(h, o, market, qty, refund))
  {
    var k := Key(o.wallet, market);
    hide SameBooks, SameAccount, Release, Put, At;
    if k.wallet != "" {
      AtSame(g, h, k);
      ReleaseSame(At(g, k), At(h, k), o, qty, refund, market);
    }
    PutSame(g, h, k, Release(At(g, k), o, qty, refund), Release(At(h, k), o, qty, refund));
  }

  lemma {:induction false} UpdatesSame(g: Ledger, h: Ledger, market: nat, index: map<nat, Types.Order>, updates: seq<OrderUpdate>)
    requires SameBooks(g, h)
    ensures SameBooks(ApplyUpdates(g, market, index, updates), ApplyUpdates(h, market, index, updates))
  {
    if updates != [] {
      var (u, front) := (updates[|updates| - 1], updates[..|updates| - 1]);
      UpdatesSame(g, h, market, index, front);
      hide SameBooks, ReleaseOrder;
      if Releases(u) && u.orderIndex in index {
        ReleaseOrderSame(ApplyUpdates(g, market, index, front), ApplyUpdates(h, market, index, front),
                         index[u.orderIndex], market, u.remainingQty, u.refund);
      }
    }
  }

  lemma SettleAllSame(g: Ledger, h: Ledger, market: nat, deltas: map<string, Delta>, v: Verdict)
    requires SameBooks(g, h)
    ensures SameBooks(SettleAll(g, market, deltas, v), SettleAll(h, market, deltas, v))
  {
    var (x, y) := (SettleAll(g, market, deltas, v), SettleAll(h, market, deltas, v));
    hide SettleAll, SettleOne;
    forall k: Key | k.wallet != ""
      ensures SameAccount(At(x, k), At(y, k), k.market)
    {
      AtSame(g, h, k);
      SettleAllAt(g, market, deltas, v, k);
      SettleAllAt(h, market, deltas, v, k);
      if k.wallet in deltas {
        var here := Key(k.wallet, market);
        AtSame(g, h, here);
        SettleAllAt(g, market, deltas, v, here);
        SettleAllAt(h, market, deltas, v, here);
        SettleOneSame(At(g, here), At(h, here), deltas[k.wallet], v, market);
      }
    }
  }

  lemma ReserveSame(g: Ledger, h: Ledger, o: Types.Order, market: nat)
    requires SameBooks(g, h)
    ensures SameBooks(Perform(g, Reserving(o, market)), Perform(h, Reserving(o, market)))
  {
    var k := Key(o.wallet, market);
    var (a, b) := (Reserve(At(g, k), o), Reserve(At(h, k), o));
    if k.wallet != "" { AtSame(g, h, k); }
    if k.wallet != "" && (k.market != 0 || o.action == Buy) {
      assert a.Ok? <==> b.Ok?;
      if a.Ok? { PutSame(g, h, k, a.value, b.value); }
    } else {
      assert a.Ok? ==> k.wallet == "" || a.value.cash == CashOf(g, k.wallet);
      assert b.Ok? ==> k.wallet == "" || b.value.cash == CashOf(h, k.wallet);
      hide SameBooks, Put, Reserve, CashOf, At;
      if a.Ok? {
        PutUnwritten(g, k, a.value);
        SameBooksTrans(Put(g, k, a.value), g, h);
      }
      if b.Ok? {
        PutUnwritten(h, k, b.value);
        SameBooksSym(Put(h, k, b.value), h);
        SameBooksTrans(Perform(g, Reserving(o, market)), h, Put(h, k, b.value));
      }
    }
  }

  lemma PutCashSame(g: Ledger, h: Ledger, w: string, x: Wallet, y: Wallet)
    requires SameBooks(g, h) && (w != "" ==> x == y)
    ensures SameBooks(PutCash(g, w, x), PutCash(h, w, y))
  {
    forall k: Key | k.wallet != ""
      ensures SameAccount(At(PutCash(g, w, x), k), At(PutCash(h, w, y), k), k.market)
    {
      assert SameAccount(At(g, k), At(h, k), k.market);
    }
  }

  lemma CashSame(g: Ledger, h: Ledger, w: string)
    requires SameBooks(g, h) && w != ""
    ensures CashOf(g, w) == CashOf(h, w)
  {
    assert SameAccount(At(g, Key(w, 0)), At(h, Key(w, 0)), 0);
  }

  /** What an effect does to what is written back depends on nothing else. */
  lemma PerformSame(g: Ledger, h: Ledger, f: Effect)
    requires SameBooks(g, h) && EffectOk(f)
    ensures SameBooks(Perform(g, f), Perform(h, f))
  {
    hide SameBooks, SettleAll, ReleaseOrder, PutCash;
    match f
    case Applying(b) =>
      LegsSame(g, h, b.market, Legs(b));
      UpdatesSame(ApplyLegs(g, b.market, Legs(b)), ApplyLegs(h, b.market, Legs(b)), b.market, ByIndex(b.orders), b.updates);
    case Settling(b, v) => SettleAllSame(g, h, b.market, DeltaMap(Legs(b)), v);
    case Reserving(o, market) => ReserveSame(g, h, o, market);
    case Releasing(o, market, qty, refund) => ReleaseOrderSame(g, h, o, market, qty, refund);
    case Crediting(w, amount) =>
      if w != "" { CashSame(g, h, w); }
      PutCashSame(g, h, w, Deposit(CashOf(g, w), amount), Deposit(CashOf(h, w), amount));
    case Debiting(w, amount) =>
      if w != "" { CashSame(g, h, w); }
      PutCashSame(g, h, w, Withdraw(CashOf(g, w), amount), Withdraw(CashOf(h, w), amount));
  }

  lemma {:induction false} PerformAllSame(g: Ledger, h: Ledger, fs: seq<Effect>)
    requires SameBooks(g, h) && EffectsOk(fs)
    ensures SameBooks(PerformAll(g, fs), PerformAll(h, fs))
  {
    if fs != [] {
      PerformAllSame(g, h, fs[..|fs| - 1]);
      PerformSame(PerformAll(g, fs[..|fs| - 1]), PerformAll(h, fs[..|fs| - 1]), fs[|fs| - 1]);
    }
  }

  // ----- Everything that changes is flagged -----

  /** From `g` to `h` nothing is lost, and what is new or different is flagged. */
  ghost predicate Flags(g: Ledger, h: Ledger) {
    && g.dirtyCash <= h.dirtyCash && g.dirtyPositions <= h.dirtyPositions
    && (forall w :: w in g.cash ==> w in h.cash) && (forall k :: k in g.positions ==> k in h.positions)
    && (forall w :: w in h.cash ==> w in h.dirtyCash || (w in g.cash && g.cash[w] == h.cash[w]))
    && (forall k :: k in h.positions ==> k in h.dirtyPositions || (k in g.positions && g.positions[k] == h.positions[k]))
    && (forall w :: w in h.dirtyCash ==> w in g.dirtyCash || w in h.cash)
    && (forall k :: k in h.dirtyPositions ==> k in g.dirtyPositions || k in h.positions)
  }

  lemma FlagsTrans(f: Ledger, g: Ledger, h: Ledger)
    requires Flags(f, g) && Flags(g, h)
    ensures Flags(f, h)
  {
  }

  lemma PutFlags(g: Ledger, k: Key, a: Account)
    ensures Flags(g, Put(g, k, a))
  {
  }

  lemma {:induction false} LegsFlag(g: Ledger, market: nat, legs: seq<Leg>)
    requires LegsOk(legs)
    ensures Flags(g, ApplyLegs(g, market, legs))
  {
    if legs != [] {
      var before := ApplyLegs(g, market, legs[..|legs| - 1]);
      var (l, k) := (legs[|legs| - 1], Key(legs[|legs| - 1].order.wallet, market));
      LegsFlag(g, market, legs[..|legs| - 1]);
      PutFlags(before, k, Fill(At(before, k), l));
      FlagsTrans(g, before, ApplyLeg(before, market, l));
    }
  }

  lemma {:induction false} UpdatesFlag(g: Ledger, market: nat, index: map<nat, Types.Order>, updates: seq<OrderUpdate>)
    ensures Flags(g, ApplyUpdates(g, market, index, updates))
  {
    if updates != [] {
      var (before, u) := (ApplyUpdates(g, market, index, updates[..|updates| - 1]), updates[|updates| - 1]);
      UpdatesFlag(g, market, index, updates[..|updates| - 1]);
      if Releases(u) && u.orderIndex in index {
        var o := index[u.orderIndex];
        PutFlags(before, Key(o.wallet, market), Release(At(before, Key(o.wallet, market)), o, u.remainingQty, u.refund));
        FlagsTrans(g, before, ApplyUpdate(before, market, index, u));
      }
    }
  }

  lemma SettleAllFlags(g: Ledger, market: nat, deltas: map<string, Delta>, v: Verdict)
    ensures Flags(g, SettleAll(g, market, deltas, v))
  {
    hide SettleOne, At;
  }

  lemma PerformFlags(g: Ledger, f: Effect)
    requires EffectOk(f)
    ensures Flags(g, Perform(g, f))
  {
    match f
    case Applying(b) =>
      LegsFlag(g, b.market, Legs(b));
      UpdatesFlag(ApplyLegs(g, b.market, Legs(b)), b.market, ByIndex(b.orders), b.updates);
      FlagsTrans(g, ApplyLegs(g, b.market, Legs(b)), ApplyBatch(g, b));
    case Settling(b, v) => SettleAllFlags(g, b.market, DeltaMap(Legs(b)), v);
    case Reserving(o, market) =>
    case Releasing(o, market, qty, refund) =>
      PutFlags(g, Key(o.wallet, market), Release(At(g, Key(o.wallet, market)), o, qty, refund));
    case Crediting(w, amount) =>
    case Debiting(w, amount) =>
  }

  lemma {:induction false} PerformAllFlags(g: Ledger, fs: seq<Effect>)
    requires EffectsOk(fs)
    ensures Flags(g, PerformAll(g, fs))
  {
    if fs != [] {
      PerformAllFlags(g, fs[..|fs| - 1]);
      PerformFlags(PerformAll(g, fs[..|fs| - 1]), fs[|fs| - 1]);
      FlagsTrans(g, PerformAll(g, fs[..|fs| - 1]), PerformAll(g, fs));
    }
  }

  // ----- Nothing pending is ever negative -----

  ghost predicate NonNegative(g: Ledger) {
    && (forall w :: w in g.cash ==> g.cash[w].pending >= 0)
    && (forall k :: k in g.positions ==> g.positions[k].yes.pending >= 0 && g.positions[k].no.pending >= 0)
  }

  predicate PendingOk(a: Account) {
    a.cash.pending >= 0 && a.position.yes.pending >= 0 && a.position.no.pending >= 0
  }

  lemma AtNonNegative(g: Ledger, k: Key)
    requires NonNegative(g)
    ensures PendingOk(At(g, k))
  {
  }

  lemma PutNonNegative(g: Ledger, k: Key, a: Account)
    requires NonNegative(g) && PendingOk(a)
    ensures NonNegative(Put(g, k, a))
  {
  }

  lemma {:induction false} LegsNonNegative(g: Ledger, market: nat, legs: seq<Leg>)
    requires NonNegative(g) && LegsOk(legs)
    ensures NonNegative(ApplyLegs(g, market, legs))
  {
    if legs != [] {
      var before := ApplyLegs(g, market, legs[..|legs| - 1]);
      var (l, k) := (legs[|legs| - 1], Key(legs[|legs| - 1].order.wallet, market));
      LegsNonNegative(g, market, legs[..|legs| - 1]);
      AtNonNegative(before, k);
      PutNonNegative(before, k, Fill(At(before, k), l));
    }
  }

  lemma {:induction false} UpdatesNonNegative(g: Ledger, market: nat, index: map<nat, Types.Order>, updates: seq<OrderUpdate>)
    requires NonNegative(g)
    ensures NonNegative(ApplyUpdates(g, market, index, updates))
  {
    if updates != [] {
      var (before, u) := (ApplyUpdates(g, market, index, updates[..|updates| - 1]), updates[|updates| - 1]);
      UpdatesNonNegative(g, market, index, updates[..|updates| - 1]);
      if Releases(u) && u.orderIndex in index {
        var o := index[u.orderIndex];
        AtNonNegative(before, Key(o.wallet, market));
        PutNonNegative(before, Key(o.wallet, market), Release(At(before, Key(o.wallet, market)), o, u.remainingQty, u.refund));
      }
    }
  }

  lemma SettleOneNonNegative(a: Account, d: Delta, v: Verdict)
    requires PendingOk(a)
    ensures PendingOk(SettleOne(a, d, v))
  {
  }

  lemma SettledAtNonNegative(g: Ledger, market: nat, deltas: map<string, Delta>, v: Verdict, k: Key)
    requires NonNegative(g)
    ensures var a := At(SettleAll(g, market, deltas, v), k);
      && a.position.yes.pending >= 0 && a.position.no.pending >= 0
      && (k.market == market ==> a.cash.pending >= 0)
  {
    SettleAllAt(g, market, deltas, v, k);
    AtNonNegative(g, k);
    hide SettleAll;
    if k.wallet in deltas {
      SettleOneNonNegative(At(g, k), deltas[k.wallet], v);
    }
  }

  lemma SettleNonNegative(g: Ledger, market: nat, deltas: map<string, Delta>, v: Verdict)
    requires NonNegative(g)
    ensures NonNegative(SettleAll(g, market, deltas, v))
  {
    hide SettleAll;
    var h := SettleAll(g, market, deltas, v);
    forall k | k in h.positions
      ensures h.positions[k].yes.pending >= 0 && h.positions[k].no.pending >= 0
    {
      SettledAtNonNegative(g, market, deltas, v, k);
    }
    forall w | w in h.cash
      ensures h.cash[w].pending >= 0
    {
      SettledAtNonNegative(g, market, deltas, v, Key(w, market));
    }
  }

  lemma PerformNonNegative(g: Ledger, f: Effect)
    requires NonNegative(g) && EffectOk(f)
    ensures NonNegative(Perform(g, f))
  {
    match f
    case Applying(b) =>
      LegsNonNegative(g, b.market, Legs(b));
      UpdatesNonNegative(ApplyLegs(g, b.market, Legs(b)), b.market, ByIndex(b.orders), b.updates);
    case Settling(b, v) => SettleNonNegative(g, b.market, DeltaMap(Legs(b)), v);
    case Reserving(o, market) => AtNonNegative(g, Key(o.wallet, market));
    case Releasing(o, market, qty, refund) => AtNonNegative(g, Key(o.wallet, market));
    case Crediting(w, amount) => AtNonNegative(g, Key(w, 0));
    case Debiting(w, amount) => AtNonNegative(g, Key(w, 0));
  }

  lemma {:induction false} PerformAllNonNegative(g: Ledger, fs: seq<Effect>)
    requires NonNegative(g) && EffectsOk(fs)
    ensures NonNegative(PerformAll(g, fs))
  {
    if fs != [] {
      PerformAllNonNegative(g, fs[..|fs| - 1]);
      PerformNonNegative(PerformAll(g, fs[..|fs| - 1]), fs[|fs| - 1]);
    }
  }

  // ----- The same standing -----

  /** Raw batches of finished entries do not matter: they may have been dropped on one side. */
  predicate SameEntry(a: Entry, b: Entry) {
    && a.market == b.market && a.phase == b.phase && a.lastSeq == b.lastSeq && a.signature == b.signature
    && (!a.phase.Done? ==> a.raw == b.raw)
  }

  predicate SameStore(s: Store, t: Store) {
    && s.entries.Keys == t.entries.Keys
    && (forall id :: id in s.entries && id in t.entries ==> SameEntry(s.entries[id], t.entries[id]))
    && s.waiting == t.waiting
  }

  ghost predicate SameMemory(m: Memory, n: Memory) {
    && SameBooks(m.ledger, n.ledger) && SameStore(m.store, n.store)
    && m.submits == n.submits && m.deposits == n.deposits && m.withdrawals == n.withdrawals
  }

  lemma SameStoreTrans(r: Store, s: Store, t: Store)
    requires SameStore(r, s) && SameStore(s, t)
    ensures SameStore(r, t)
  {
  }

  lemma EffectsSame(m: Memory, n: Memory, e: Event)
    requires SameMemory(m, n) && StoreOk(m.store) && StoreOk(n.store) && Legal(e)
    ensures Effects(m, e) == Effects(n, e)
  {
    if e.SettlementEnded? && Transitions(m.store, e.id) {
      assert SameEntry(m.store.entries[e.id], n.store.entries[e.id]);
    }
  }

  lemma RegisterSame(s: Store, t: Store, id: string, entry: Entry)
    requires SameStore(s, t)
    ensures SameStore(Register(s, id, entry), Register(t, id, entry))
  {
  }

  lemma ToSubmittedSame(s: Store, t: Store, id: string, signature: string)
    requires SameStore(s, t)
    ensures SameStore(ToSubmitted(s, id, signature), ToSubmitted(t, id, signature))
  {
    if id in s.entries { assert SameEntry(s.entries[id], t.entries[id]); }
  }

  lemma ToDoneSame(s: Store, t: Store, id: string, v: Verdict)
    requires SameStore(s, t)
    ensures SameStore(ToDone(s, id, v), ToDone(t, id, v))
  {
    if id in s.entries { assert SameEntry(s.entries[id], t.entries[id]); }
  }

  lemma KeepSame(s: Store, t: Store, id: string, n: News)
    requires SameStore(s, t)
    ensures SameStore(Keep(s, id, n), Keep(t, id, n))
    ensures SameStore(Forget(s, id), Forget(t, id))
  {
  }

  lemma MatchSame(s: Store, t: Store, at: nat, b: BatchEvent)
    requires SameStore(s, t)
    ensures SameStore(NextStore(s, at, MatchExecuted(b)), NextStore(t, at, MatchExecuted(b)))
  {
    var entry := Entry(b.market, PendingApplied, at, "", Some(b));
    RegisterSame(s, t, b.id, entry);
    var (x, y) := (Register(s, b.id, entry), Register(t, b.id, entry));
    KeepSame(x, y, b.id, WasSubmitted(""));
    assert s.waiting == t.waiting && (b.id in s.entries <==> b.id in t.entries);
    hide SameStore, Register, Forget, ToSubmitted, ToDone;
    if b.id in s.waiting {
      match s.waiting[b.id]
      case WasSubmitted(signature) => ToSubmittedSame(Forget(x, b.id), Forget(y, b.id), b.id, signature);
      case WasSettled(v) => ToDoneSame(Forget(x, b.id), Forget(y, b.id), b.id, v);
    }
  }

  lemma NextStoreSame(s: Store, t: Store, at: nat, e: Event)
    requires SameStore(s, t)
    ensures SameStore(NextStore(s, at, e), NextStore(t, at, e))
  {
    match e
    case MatchExecuted(b) => MatchSame(s, t, at, b);
    case SettlementSubmitted(id, signature) =>
      ToSubmittedSame(s, t, id, signature);
      KeepSame(s, t, id, WasSubmitted(signature));
      assert id in s.entries <==> id in t.entries;
      hide SameStore;
    case SettlementEnded(id, v) =>
      ToDoneSame(s, t, id, v);
      KeepSame(s, t, id, WasSettled(v));
      assert id in s.entries <==> id in t.entries;
      hide SameStore;
    case _ =>
  }

  /** The service cannot tell states of the same standing apart. */
  lemma HandleSame(m: Memory, n: Memory, at: nat, e: Event)
    requires SameMemory(m, n) && StoreOk(m.store) && StoreOk(n.store) && Legal(e)
    ensures SameMemory(Handle(m, at, e), Handle(n, at, e))
  {
    EffectsSame(m, n, e);
    NextStoreSame(m.store, n.store, at, e);
    PerformAllSame(m.ledger, n.ledger, Effects(m, e));
    hide Effects, NextStore, PerformAll, SameStore, StoreOk;
  }

  lemma EvictSame(s: Store, saved: nat)
    ensures SameStore(Evict(s, saved), s)
  {
  }

  // ----- The run without a crash -----

  predicate LegalLog(log: seq<Event>) {
    forall i :: 0 <= i < |log| ==> Legal(log[i])
  }

  /** The whole log handled in order, with no crash and nothing dropped. */
  function Reference(g: Ledger, log: seq<Event>): (m: Memory)
    requires LegalLog(log)
    ensures StoreOk(m.store)
  {
    if log == [] then Fresh(g)
    else
      HandleKeepsStore(Reference(g, log[..|log| - 1]), |log|, log[|log| - 1]);
      Handle(Reference(g, log[..|log| - 1]), |log|, log[|log| - 1])
  }

  // ----- Memory, database, and a flush on its way -----

  datatype Rows = Rows(cash: map<string, Wallet>, positions: map<Key, Position>)

  datatype Checkpoint = Checkpoint(lastSeq: nat, store: Store, submits: set<string>, deposits: set<string>, withdrawals: set<string>)

  datatype Disk = Disk(rows: Rows, checkpoint: Checkpoint)

  datatype Flush = Flush(wallets: map<string, Wallet>, positions: map<Key, Position>, checkpoint: Checkpoint)

  /** `handled` is how many messages of the log are in memory; after a crash it goes back to the checkpoint. */
  datatype System = System(log: seq<Event>, handled: nat, memory: Memory, disk: Disk, flush: Option<Flush>)

  function CheckpointOf(m: Memory, at: nat): Checkpoint {
    Checkpoint(at, m.store, m.submits, m.deposits, m.withdrawals)
  }

  /** A row does not hold a negative pending amount. */
  function CashRow(w: Wallet): Wallet {
    if w.pending < 0 then w.(pending := 0) else w
  }

  function Captured(m: Memory, at: nat): Flush {
    Flush(map w | w in m.ledger.cash && w in m.ledger.dirtyCash && w != "" :: m.ledger.cash[w],
          map k | k in m.ledger.positions && k in m.ledger.dirtyPositions :: m.ledger.positions[k],
          CheckpointOf(m, at))
  }

  function CashRows(wallets: map<string, Wallet>): map<string, Wallet> {
    map w | w in wallets :: CashRow(wallets[w])
  }

  /** A position in market 0 has no row. */
  function PositionRows(positions: map<Key, Position>): map<Key, Position> {
    map k | k in positions && k.market != 0 :: positions[k]
  }

  /** Rows are overwritten one by one; the checkpoint goes with them in one transaction. */
  function Written(d: Disk, f: Flush): Disk {
    Disk(Rows(d.rows.cash + CashRows(f.wallets), d.rows.positions + PositionRows(f.positions)), f.checkpoint)
  }

  /** Rows become the ledger, everything flagged; the checkpoint becomes the rest. */
  function Restored(d: Disk): Memory {
    Memory(Ledger(d.rows.cash, d.rows.positions, d.rows.cash.Keys, d.rows.positions.Keys),
           d.checkpoint.store, d.checkpoint.submits, d.checkpoint.deposits, d.checkpoint.withdrawals)
  }

  datatype Turn =
    | Publish(event: Event)
    | Consume
    | Capture
    | Commit
    | CommitWithoutCache
    | FailToCommit
    | Crash

  ghost predicate CanTurn(s: System, t: Turn)
    requires LegalLog(s.log) && StoreOk(s.memory.store)
  {
    match t
    case Publish(e) => Legal(e)
    case Consume => s.handled < |s.log|
    case Capture => s.flush.None?
    case Commit => s.flush.Some?
    case CommitWithoutCache => s.flush.Some?
    case FailToCommit => s.flush.Some?
    case Crash => true
  }

  function AfterCapture(s: System): System {
    s.(flush := Some(Captured(s.memory, s.handled)), memory := s.memory.(ledger := Collected(s.memory.ledger)))
  }

  function AfterCommit(s: System, f: Flush): System {
    s.(disk := Written(s.disk, f), flush := None, memory := s.memory.(store := Evict(s.memory.store, f.checkpoint.lastSeq)))
  }

  /** Everything a flush had taken is flagged again. */
  function Reflagged(s: System, f: Flush): System {
    s.(flush := None, memory := s.memory.(ledger := Flagged(s.memory.ledger, f.wallets.Keys, f.positions.Keys)))
  }

  function Turned(s: System, t: Turn): System
    requires LegalLog(s.log) && StoreOk(s.memory.store)
    requires t.Publish? ==> Legal(t.event)
    requires t.Consume? ==> s.handled < |s.log|
    requires t.Commit? || t.CommitWithoutCache? || t.FailToCommit? ==> s.flush.Some?
  {
    match t
    case Publish(e) => s.(log := s.log + [e])
    case Consume => s.(memory := Handle(s.memory, s.handled + 1, s.log[s.handled]), handled := s.handled + 1)
    case Capture => AfterCapture(s)
    case Commit => AfterCommit(s, s.flush.value)
    case CommitWithoutCache => Reflagged(AfterCommit(s, s.flush.value), s.flush.value)
    case FailToCommit => Reflagged(s, s.flush.value)
    case Crash => s.(memory := Restored(s.disk), handled := s.disk.checkpoint.lastSeq, flush := None)
  }

  // ----- Write-back -----

  /** What is not flagged is either in the flush on its way, as it is in memory, or already in its row. */
  ghost predicate CashWritten(g: Ledger, rows: map<string, Wallet>, flying: map<string, Wallet>) {
    && g.dirtyCash <= g.cash.Keys && rows.Keys <= g.cash.Keys && flying.Keys <= g.cash.Keys
    && "" !in rows && "" !in flying
    && forall w :: w in g.cash && w != "" && w !in g.dirtyCash ==>
         if w in flying then flying[w] == g.cash[w] else w in rows && rows[w] == g.cash[w]
  }

  ghost predicate PositionsWritten(g: Ledger, rows: map<Key, Position>, flying: map<Key, Position>) {
    && g.dirtyPositions <= g.positions.Keys && rows.Keys <= g.positions.Keys && flying.Keys <= g.positions.Keys
    && forall k :: k in g.positions && k.market != 0 && k !in g.dirtyPositions ==>
         if k in flying then flying[k] == g.positions[k] else k in rows && rows[k] == g.positions[k]
  }

  ghost predicate WriteBack(s: System) {
    && CashWritten(s.memory.ledger, s.disk.rows.cash, if s.flush.Some? then s.flush.value.wallets else map[])
    && PositionsWritten(s.memory.ledger, s.disk.rows.positions, if s.flush.Some? then s.flush.value.positions else map[])
  }

  /** The disk is what the run without a crash had in memory at the checkpoint. */
  ghost predicate DiskOk(g: Ledger, log: seq<Event>, d: Disk, handled: nat)
    requires LegalLog(log)
  {
    && d.checkpoint.lastSeq <= handled && d.checkpoint.lastSeq <= |log| && StoreOk(d.checkpoint.store)
    && NonNegative(Restored(d).ledger) && "" !in d.rows.cash
    && SameMemory(Restored(d), Reference(g, log[..d.checkpoint.lastSeq]))
  }

  ghost predicate SystemOk(g: Ledger, s: System) {
    && LegalLog(s.log) && StoreOk(s.memory.store) && s.handled <= |s.log|
    && NonNegative(s.memory.ledger) && WriteBack(s)
    && SameMemory(s.memory, Reference(g, s.log[..s.handled]))
    && DiskOk(g, s.log, s.disk, s.handled)
    && (s.flush.Some? ==> DiskOk(g, s.log, Written(s.disk, s.flush.value), s.handled))
  }

  lemma SameBooksSame(m: Memory, h: Ledger, r: Memory)
    requires SameMemory(m, r) && SameBooks(h, m.ledger)
    ensures SameMemory(m.(ledger := h), r)
  {
    SameBooksTrans(h, m.ledger, r.ledger);
  }

  lemma CaptureWritesCash(g: Ledger, rows: map<string, Wallet>, f: map<string, Wallet>)
    requires CashWritten(g, rows, map[]) && NonNegative(g)
    requires f == map w | w in g.cash && w in g.dirtyCash && w != "" :: g.cash[w]
    ensures var written := rows + CashRows(f);
      "" !in written && forall w :: w != "" ==> (w in written <==> w in g.cash) && (w in written ==> written[w] == g.cash[w])
    ensures CashWritten(Collected(g), rows, f)
  {
  }

  lemma CaptureWritesPositions(g: Ledger, rows: map<Key, Position>, f: map<Key, Position>)
    requires PositionsWritten(g, rows, map[])
    requires f == map k | k in g.positions && k in g.dirtyPositions :: g.positions[k]
    ensures var written := rows + PositionRows(f);
      forall k: Key :: k.market != 0 ==> (k in written <==> k in g.positions) && (k in written ==> written[k] == g.positions[k])
    ensures PositionsWritten(Collected(g), rows, f)
  {
  }

  lemma RowsSame(rows: Rows, g: Ledger)
    requires forall w :: w != "" ==> (w in rows.cash <==> w in g.cash) && (w in rows.cash ==> rows.cash[w] == g.cash[w])
    requires forall k: Key :: k.market != 0 ==>
      (k in rows.positions <==> k in g.positions) && (k in rows.positions ==> rows.positions[k] == g.positions[k])
    ensures SameBooks(Ledger(rows.cash, rows.positions, rows.cash.Keys, rows.positions.Keys), g)
  {
  }

  lemma WrittenNonNegative(d: Disk, g: Ledger, f: Flush)
    requires NonNegative(Restored(d).ledger) && NonNegative(g)
    requires forall k :: k in f.positions ==> k in g.positions && f.positions[k] == g.positions[k]
    ensures NonNegative(Restored(Written(d, f)).ledger)
  {
  }

  lemma CaptureIsMemory(s: System)
    requires WriteBack(s) && NonNegative(s.memory.ledger) && s.flush.None?
    ensures var d := Written(s.disk, Captured(s.memory, s.handled));
      && SameBooks(Restored(d).ledger, s.memory.ledger)
      && "" !in d.rows.cash && d.checkpoint == CheckpointOf(s.memory, s.handled)
    ensures WriteBack(AfterCapture(s))
  {
    var (m, f) := (s.memory, Captured(s.memory, s.handled));
    CaptureWritesCash(m.ledger, s.disk.rows.cash, f.wallets);
    CaptureWritesPositions(m.ledger, s.disk.rows.positions, f.positions);
    hide CashWritten, PositionsWritten, CashRows, PositionRows, SameBooks;
    RowsSame(Written(s.disk, f).rows, m.ledger);
  }

  lemma CollectedSame(g: Ledger)
    requires NonNegative(g)
    ensures SameBooks(Collected(g), g) && NonNegative(Collected(g))
  {
  }

  lemma CaptureKeeps(g: Ledger, s: System)
    requires SystemOk(g, s) && s.flush.None?
    ensures SystemOk(g, AfterCapture(s))
  {
    var (m, f) := (s.memory, Captured(s.memory, s.handled));
    var d := Written(s.disk, f);
    CaptureIsMemory(s);
    CollectedSame(m.ledger);
    WrittenNonNegative(s.disk, m.ledger, f);
    assert Restored(d) == m.(ledger := Restored(d).ledger);
    hide WriteBack, StoreOk, SameMemory, NonNegative, Reference, LegalLog, Captured, Written, SameBooks;
    SameBooksSame(m, Collected(m.ledger), Reference(g, s.log[..s.handled]));
    SameBooksSame(m, Restored(d).ledger, Reference(g, s.log[..s.handled]));
  }

  lemma CommitCash(g: Ledger, rows: map<string, Wallet>, flying: map<string, Wallet>)
    requires CashWritten(g, rows, flying) && NonNegative(g)
    ensures CashWritten(g, rows + CashRows(flying), map[])
  {
  }

  lemma CommitPositions(g: Ledger, rows: map<Key, Position>, flying: map<Key, Position>)
    requires PositionsWritten(g, rows, flying)
    ensures PositionsWritten(g, rows + PositionRows(flying), map[])
  {
  }

  lemma CommitKeeps(g: Ledger, s: System)
    requires SystemOk(g, s) && s.flush.Some?
    ensures SystemOk(g, AfterCommit(s, s.flush.value))
  {
    var f := s.flush.value;
    CommitCash(s.memory.ledger, s.disk.rows.cash, f.wallets);
    CommitPositions(s.memory.ledger, s.disk.rows.positions, f.positions);
    EvictKeepsStore(s.memory.store, f.checkpoint.lastSeq);
    EvictSame(s.memory.store, f.checkpoint.lastSeq);
    SameStoreTrans(Evict(s.memory.store, f.checkpoint.lastSeq), s.memory.store, Reference(g, s.log[..s.handled]).store);
    hide CashWritten, PositionsWritten, CashRows, PositionRows, StoreOk, Evict, SameStore, SameBooks;
  }

  lemma FlaggedIsSame(g: Ledger, wallets: set<string>, positions: set<Key>)
    requires wallets <= g.cash.Keys && positions <= g.positions.Keys
    ensures var h := Flagged(g, wallets, positions); h.cash == g.cash && h.positions == g.positions
  {
    var h := Flagged(g, wallets, positions);
    assert h.cash == g.cash;
    assert h.positions == g.positions;
  }

  ghost predicate SameMaps(g: Ledger, h: Ledger) {
    g.cash == h.cash && g.positions == h.positions
  }

  lemma SameMapsSame(g: Ledger, h: Ledger)
    requires SameMaps(g, h)
    ensures SameBooks(g, h) && (NonNegative(g) <==> NonNegative(h))
  {
  }

  lemma FlagKeepsWritten(g: Ledger, rows: Rows, f: Flush, flying: bool)
    requires f.wallets.Keys <= g.cash.Keys && f.positions.Keys <= g.positions.Keys
    requires CashWritten(g, rows.cash, if flying then f.wallets else map[])
    requires PositionsWritten(g, rows.positions, if flying then f.positions else map[])
    ensures var h := Flagged(g, f.wallets.Keys, f.positions.Keys);
      SameMaps(h, g) && CashWritten(h, rows.cash, map[]) && PositionsWritten(h, rows.positions, map[])
  {
    FlaggedIsSame(g, f.wallets.Keys, f.positions.Keys);
  }

  /** Flags may be put back as long as the rows and what is unflagged in memory agree. */
  lemma ReflaggedKeeps(g: Ledger, s: System, f: Flush)
    requires SystemOk(g, s) && SameMaps(Reflagged(s, f).memory.ledger, s.memory.ledger)
    requires WriteBack(Reflagged(s, f))
    ensures SystemOk(g, Reflagged(s, f))
  {
    SameMapsSame(Reflagged(s, f).memory.ledger, s.memory.ledger);
    hide WriteBack, StoreOk, SameMemory, SameBooks, SameMaps, NonNegative, DiskOk, Reference, LegalLog, Flagged;
    SameBooksSame(s.memory, Reflagged(s, f).memory.ledger, Reference(g, s.log[..s.handled]));
  }

  lemma ReflaggedWritten(s: System, f: Flush)
    requires WriteBack(s)
    requires s.flush == Some(f)
          || (s.flush.None? && f.wallets.Keys <= s.memory.ledger.cash.Keys && f.positions.Keys <= s.memory.ledger.positions.Keys)
    ensures SameMaps(Reflagged(s, f).memory.ledger, s.memory.ledger) && WriteBack(Reflagged(s, f))
  {
    FlagKeepsWritten(s.memory.ledger, s.disk.rows, f, s.flush.Some?);
  }

  /** A failed flush loses no update: what it had taken is flagged again. */
  lemma FailKeeps(g: Ledger, s: System)
    requires SystemOk(g, s) && s.flush.Some?
    ensures SystemOk(g, Reflagged(s, s.flush.value))
  {
    assert WriteBack(s);
    hide SystemOk, WriteBack, Reflagged;
    ReflaggedWritten(s, s.flush.value);
    ReflaggedKeeps(g, s, s.flush.value);
  }

  lemma FlyingIsKnown(s: System)
    requires WriteBack(s) && s.flush.Some?
    ensures s.flush.value.wallets.Keys <= s.memory.ledger.cash.Keys && s.flush.value.positions.Keys <= s.memory.ledger.positions.Keys
  {
  }

  lemma CommitWithoutCacheKeeps(g: Ledger, s: System)
    requires SystemOk(g, s) && s.flush.Some?
    ensures SystemOk(g, Reflagged(AfterCommit(s, s.flush.value), s.flush.value))
  {
    var (c, f) := (AfterCommit(s, s.flush.value), s.flush.value);
    CommitKeeps(g, s);
    assert WriteBack(c) && WriteBack(s);
    FlyingIsKnown(s);
    hide SystemOk, WriteBack, Reflagged, Written, Evict;
    ReflaggedWritten(c, f);
    ReflaggedKeeps(g, c, f);
  }

  lemma CrashKeeps(g: Ledger, s: System)
    requires SystemOk(g, s)
    ensures SystemOk(g, Turned(s, Crash))
  {
    hide SameStore, NonNegative, Reference, StoreOk, LegalLog;
  }

  lemma HandleKeepsWritten(g: Ledger, h: Ledger, rows: Rows, wallets: map<string, Wallet>, positions: map<Key, Position>)
    requires CashWritten(g, rows.cash, wallets) && PositionsWritten(g, rows.positions, positions) && Flags(g, h)
    ensures CashWritten(h, rows.cash, wallets) && PositionsWritten(h, rows.positions, positions)
  {
  }

  lemma ReferenceStep(g: Ledger, log: seq<Event>, n: nat)
    requires LegalLog(log) && n < |log|
    ensures Reference(g, log[..n + 1]) == Handle(Reference(g, log[..n]), n + 1, log[n])
  {
    assert log[..n + 1][..n] == log[..n];
  }

  lemma ConsumedMemory(g: Ledger, s: System)
    requires SystemOk(g, s) && CanTurn(s, Consume)
    ensures var m := Turned(s, Consume).memory;
      StoreOk(m.store) && NonNegative(m.ledger) && SameMemory(m, Reference(g, s.log[..s.handled + 1]))
  {
    var (e, m) := (s.log[s.handled], s.memory);
    HandleKeepsStore(m, s.handled + 1, e);
    ReferenceStep(g, s.log, s.handled);
    HandleSame(m, Reference(g, s.log[..s.handled]), s.handled + 1, e);
    PerformAllNonNegative(m.ledger, Effects(m, e));
    hide StoreOk, SameMemory, NonNegative, Reference, PerformAll, Effects, NextStore, WriteBack, DiskOk;
  }

  lemma ConsumedWriteBack(g: Ledger, s: System)
    requires SystemOk(g, s) && CanTurn(s, Consume)
    ensures WriteBack(Turned(s, Consume))
  {
    var (e, m) := (s.log[s.handled], s.memory);
    PerformAllFlags(m.ledger, Effects(m, e));
    hide CashWritten, PositionsWritten, StoreOk, SameMemory, Flags, NonNegative, Reference, PerformAll, Effects, NextStore, DiskOk;
    HandleKeepsWritten(m.ledger, Handle(m, s.handled + 1, e).ledger, s.disk.rows,
                       if s.flush.Some? then s.flush.value.wallets else map[], if s.flush.Some? then s.flush.value.positions else map[]);
  }

  lemma ConsumeKeeps(g: Ledger, s: System)
    requires SystemOk(g, s) && CanTurn(s, Consume)
    ensures SystemOk(g, Turned(s, Consume))
  {
    ConsumedMemory(g, s);
    ConsumedWriteBack(g, s);
    hide StoreOk, SameMemory, NonNegative, Reference, Handle, WriteBack, Written, Restored;
  }

  lemma PublishKeeps(g: Ledger, s: System, e: Event)
    requires SystemOk(g, s) && Legal(e)
    ensures SystemOk(g, Turned(s, Publish(e)))
  {
    var log := s.log + [e];
    assert log[..s.handled] == s.log[..s.handled];
    assert log[..s.disk.checkpoint.lastSeq] == s.log[..s.disk.checkpoint.lastSeq];
    if s.flush.Some? {
      assert log[..s.flush.value.checkpoint.lastSeq] == s.log[..s.flush.value.checkpoint.lastSeq];
    }
    hide CashWritten, PositionsWritten, StoreOk, SameMemory, NonNegative, Reference, Restored;
  }

  lemma TurnKeeps(g: Ledger, s: System, t: Turn)
    requires SystemOk(g, s) && CanTurn(s, t)
    ensures SystemOk(g, Turned(s, t))
  {
    match t
    case Publish(e) => PublishKeeps(g, s, e);
    case Consume => ConsumeKeeps(g, s);
    case Capture => CaptureKeeps(g, s);
    case Commit => CommitKeeps(g, s);
    case CommitWithoutCache => CommitWithoutCacheKeeps(g, s);
    case FailToCommit => FailKeeps(g, s);
    case Crash => CrashKeeps(g, s);
  }

  // ----- Runs -----

  /** The first start: the rows hold the ledger the service begins from, and nothing has been handled. */
  ghost predicate Start(g: Ledger, s: System) {
    && s == System([], 0, Restored(s.disk), s.disk, None)
    && s.disk.checkpoint == Checkpoint(0, NO_STORE, {}, {}, {})
    && SameBooks(Restored(s.disk).ledger, g) && NonNegative(Restored(s.disk).ledger) && "" !in s.disk.rows.cash
  }

  ghost predicate CanRun(s: System, ts: seq<Turn>)
    decreases |ts|
  {
    ts == [] || (LegalLog(s.log) && StoreOk(s.memory.store) && CanTurn(s, ts[0]) && CanRun(Turned(s, ts[0]), ts[1..]))
  }

  ghost function RunOf(s: System, ts: seq<Turn>): System
    requires CanRun(s, ts)
    decreases |ts|
  {
    if ts == [] then s else RunOf(Turned(s, ts[0]), ts[1..])
  }

  lemma {:induction false} RunKeeps(g: Ledger, s: System, ts: seq<Turn>)
    requires SystemOk(g, s) && CanRun(s, ts)
    ensures SystemOk(g, RunOf(s, ts))
    decreases |ts|
  {
    if ts != [] {
      TurnKeeps(g, s, ts[0]);
      RunKeeps(g, Turned(s, ts[0]), ts[1..]);
    }
  }

  lemma StartOk(g: Ledger, s: System)
    requires Start(g, s)
    ensures SystemOk(g, s)
  {
    assert s.log[..0] == [];
  }

  /**
   * Crash recovery: in every run, through any number of flushes, failed flushes and crashes at any point, the cash
   * of every wallet with a name, its position in every market with a number and where every batch stands are those
   * of the run without a crash over the messages handled so far. In particular, once a crashed service has replayed
   * the log it is where it would have been.
   */
  lemma CrashIsInvisible(g: Ledger, s: System, ts: seq<Turn>)
    requires Start(g, s) && CanRun(s, ts)
    ensures var r := RunOf(s, ts);
      && LegalLog(r.log) && r.handled <= |r.log|
      && SameMemory(r.memory, Reference(g, r.log[..r.handled]))
      && r.disk.checkpoint.lastSeq <= r.handled
  {
    StartOk(g, s);
    RunKeeps(g, s, ts);
  }

  /** One message handled, written back, and then a crash. */
  function HandledAndLost(e: Event): seq<Turn> {
    [Publish(e), Consume, Capture, Commit, Crash]
  }

  lemma AfterLoss(s: System, e: Event)
    requires s.log == [] && s.handled == 0 && StoreOk(s.memory.store) && s.flush.None? && Legal(e)
    ensures CanRun(s, HandledAndLost(e))
    ensures var (r, m) := (RunOf(s, HandledAndLost(e)), Handle(s.memory, 1, e));
      r.log == [e] && r.handled == 1 && r.memory == Restored(Written(s.disk, Captured(m, 1)))
  {
    HandleKeepsStore(s.memory, 1, e);
    EvictKeepsStore(Handle(s.memory, 1, e).store, 1);
    var ts := HandledAndLost(e);
    var s1 := Turned(s, ts[0]);
    assert s1.log == [e];
    var s2 := Turned(s1, ts[1]);
    var s3 := Turned(s2, ts[2]);
    var s4 := Turned(s3, ts[3]);
    var s5 := Turned(s4, ts[4]);
    assert StoreOk(s2.memory.store) && StoreOk(s3.memory.store) && StoreOk(s4.memory.store);
    hide Handle, Restored, Written, Captured, StoreOk, Evict;
    OneMoreTurn(s5, [], s5);
    OneMoreTurn(s4, ts[4..], s5);
    OneMoreTurn(s3, ts[3..], s5);
    OneMoreTurn(s2, ts[2..], s5);
    OneMoreTurn(s1, ts[1..], s5);
    OneMoreTurn(s, ts, s5);
  }

  lemma OneMoreTurn(s: System, ts: seq<Turn>, r: System)
    requires if ts == [] then s == r
             else LegalLog(s.log) && StoreOk(s.memory.store) && CanTurn(s, ts[0])
                  && CanRun(Turned(s, ts[0]), ts[1..]) && RunOf(Turned(s, ts[0]), ts[1..]) == r
    ensures CanRun(s, ts) && RunOf(s, ts) == r
  {
  }

  /** The name is needed: a deposit without a wallet's name is gone after a crash, though its message counts as handled. */
  lemma UnnamedIsLost(g: Ledger, s: System, amount: nat)
    requires Start(g, s) && "" !in g.cash && amount > 0
    ensures var e := DepositConfirmed("deposit", "", amount);
      && CanRun(s, HandledAndLost(e))
      && var r := RunOf(s, HandledAndLost(e));
      && r.handled == |r.log| && LegalLog(r.log)
      && CashOf(Reference(g, r.log).ledger, "").available == amount
      && CashOf(r.memory.ledger, "").available == 0
  {
    var e := DepositConfirmed("deposit", "", amount);
    AfterLoss(s, e);
    var r := RunOf(s, HandledAndLost(e));
    ReferenceStep(g, r.log, 0);
    assert r.log[..1] == r.log && r.log[..0] == [];
    PerformShort(g, Effects(Fresh(g), e));
  }

  /** Two runs over the same log that have both caught up with it agree, whatever crashed in either. */
  lemma CaughtUpRunsAgree(g: Ledger, s: System, ts: seq<Turn>, us: seq<Turn>)
    requires Start(g, s) && CanRun(s, ts) && CanRun(s, us)
    requires var (a, b) := (RunOf(s, ts), RunOf(s, us)); a.log == b.log && a.handled == |a.log| && b.handled == |b.log|
    ensures var (a, b) := (RunOf(s, ts).memory, RunOf(s, us).memory);
      && (forall w :: w != "" ==> CashOf(a.ledger, w) == CashOf(b.ledger, w))
      && (forall k: Key :: k.wallet != "" && k.market != 0 ==> PositionOf(a.ledger, k) == PositionOf(b.ledger, k))
      && a.store.entries.Keys == b.store.entries.Keys
      && forall id :: id in a.store.entries ==> a.store.entries[id].phase == b.store.entries[id].phase
  {
    CrashIsInvisible(g, s, ts);
    CrashIsInvisible(g, s, us);
    var (a, b, r) := (RunOf(s, ts).memory, RunOf(s, us).memory, Reference(g, RunOf(s, ts).log[..RunOf(s, ts).handled]));
    assert SameMemory(a, r) && SameMemory(b, r);
    SameBooksSym(b.ledger, r.ledger);
    SameBooksTrans(a.ledger, r.ledger, b.ledger);
    forall w | w != ""
      ensures CashOf(a.ledger, w) == CashOf(b.ledger, w)
    {
      CashSame(a.ledger, b.ledger, w);
    }
    forall k: Key | k.wallet != "" && k.market != 0
      ensures PositionOf(a.ledger, k) == PositionOf(b.ledger, k)
    {
      AtSame(a.ledger, b.ledger, k);
    }
    forall id | id in a.store.entries
      ensures id in b.store.entries && a.store.entries[id].phase == b.store.entries[id].phase
    {
      assert SameEntry(a.store.entries[id], r.store.entries[id]) && SameEntry(b.store.entries[id], r.store.entries[id]);
    }
  }

  /**
   * Write-back: at any time, a wallet with a name or a position in a market with a number that is not flagged is, as
   * it is in memory, in the flush on its way or else in its row.
   */
  lemma RowsLagOnlyWhereFlagged(g: Ledger, s: System, ts: seq<Turn>)
    requires Start(g, s) && CanRun(s, ts)
    ensures var r := RunOf(s, ts);
      forall w :: w in r.memory.ledger.cash && w != "" && w !in r.memory.ledger.dirtyCash ==>
        if r.flush.Some? && w in r.flush.value.wallets then r.flush.value.wallets[w] == r.memory.ledger.cash[w]
        else w in r.disk.rows.cash && r.disk.rows.cash[w] == r.memory.ledger.cash[w]
    ensures var r := RunOf(s, ts);
      forall k :: k in r.memory.ledger.positions && k.market != 0 && k !in r.memory.ledger.dirtyPositions ==>
        if r.flush.Some? && k in r.flush.value.positions then r.flush.value.positions[k] == r.memory.ledger.positions[k]
        else k in r.disk.rows.positions && r.disk.rows.positions[k] == r.memory.ledger.positions[k]
  {
    StartOk(g, s);
    RunKeeps(g, s, ts);
  }
}
