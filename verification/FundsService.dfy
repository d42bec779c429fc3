/** The funds service as a state machine: each message is one step on the ledger and on the in-flight window. */
module FundsService {
  import opened Types
  import opened Accounts
  import opened Deltas
  import opened Ledgers
  import opened Inflight

  datatype Event =
    | OrderReserved(key: string, order: Order, market: nat)
    | ReserveRejected(key: string)
    | MatchExecuted(batch: BatchEvent)
    | OrderReleased(order: Order, market: nat, qty: nat, refund: nat)
    | SettlementSubmitted(id: string, signature: string)
    | SettlementEnded(id: string, verdict: Verdict)
    | DepositConfirmed(signature: string, wallet: string, amount: nat)
    | WithdrawConfirmed(signature: string, wallet: string, amount: nat)

  predicate Legal(e: Event) {
    e.MatchExecuted? ==> EventOk(e.batch)
  }

  /** One change of the ledger. */
  datatype Effect =
    | Reserving(order: Order, market: nat)
    | Releasing(order: Order, market: nat, qty: nat, refund: nat)
    | Applying(batch: BatchEvent)
    | Settling(batch: BatchEvent, verdict: Verdict)
    | Crediting(wallet: string, amount: nat)
    | Debiting(wallet: string, amount: nat)

  predicate EffectOk(f: Effect) {
    f.Applying? || f.Settling? ==> EventOk(f.batch)
  }

  predicate EffectsOk(fs: seq<Effect>) {
    forall i :: 0 <= i < |fs| ==> EffectOk(fs[i])
  }

  function Perform(g: Ledger, f: Effect): Ledger
    requires EffectOk(f)
  {
    match f
    case Reserving(o, market) =>
      var k := Key(o.wallet, market);
      var r := Reserve(At(g, k), o);
      if r.Ok? then Put(g, k, r.value) else g
    case Releasing(o, market, qty, refund) => ReleaseOrder(g, o, market, qty, refund)
    case Applying(batch) => ApplyBatch(g, batch)
    case Settling(batch, verdict) => Settle(g, batch, verdict)
    case Crediting(w, amount) => if amount == 0 then g else PutCash(g, w, Deposit(CashOf(g, w), amount))
    case Debiting(w, amount) => if amount == 0 then g else PutCash(g, w, Withdraw(CashOf(g, w), amount))
  }

  function PerformAll(g: Ledger, fs: seq<Effect>): Ledger
    requires EffectsOk(fs)
  {
    if fs == [] then g else Perform(PerformAll(g, fs[..|fs| - 1]), fs[|fs| - 1])
  }

  lemma PerformShort(g: Ledger, fs: seq<Effect>)
    requires EffectsOk(fs) && |fs| <= 2
    ensures |fs| == 0 ==> PerformAll(g, fs) == g
    ensures |fs| == 1 ==> PerformAll(g, fs) == Perform(g, fs[0])
    ensures |fs| == 2 ==> PerformAll(g, fs) == Perform(Perform(g, fs[0]), fs[1])
  {
    if |fs| == 1 { assert fs[..0] == []; }
    if |fs| == 2 { assert fs[..1] == [fs[0]] && fs[..1][..0] == []; }
  }

  datatype Memory = Memory(ledger: Ledger, store: Store, submits: set<string>, deposits: set<string>, withdrawals: set<string>)

  function Fresh(g: Ledger): Memory {
    Memory(g, NO_STORE, {}, {}, {})
  }

  /** A batch that is not done can still be settled from what it was. */
  predicate EntryOk(id: string, entry: Entry) {
    && (!entry.phase.Done? ==> entry.raw.Some?)
    && (entry.raw.Some? ==> entry.raw.value.id == id && entry.raw.value.market == entry.market && EventOk(entry.raw.value))
  }

  predicate StoreOk(s: Store) {
    && (forall id :: id in s.entries ==> EntryOk(id, s.entries[id]))
    && (forall id :: id in s.waiting ==> id !in s.entries)
  }

  /** Whether a batch is to be applied: it has an id, and it has not been seen. */
  predicate IsNew(s: Store, b: BatchEvent) {
    b.id != "" && b.id !in s.entries
  }

  /** The ledger changes a message calls for, in order. */
  function Effects(m: Memory, e: Event): (fs: seq<Effect>)
    requires StoreOk(m.store) && Legal(e)
    ensures EffectsOk(fs)
  {
    match e
    case OrderReserved(key, o, market) => if key != "" && key in m.submits then [] else [Reserving(o, market)]
    case ReserveRejected(_) => []
    case MatchExecuted(b) =>
      if !IsNew(m.store, b) then []
      else if b.id in m.store.waiting && m.store.waiting[b.id].WasSettled? then
        [Applying(b), Settling(b, m.store.waiting[b.id].verdict)]
      else [Applying(b)]
    case OrderReleased(o, market, qty, refund) =>
      if o.id == 0 || o.wallet == "" then [] else [Releasing(o.(spend := refund), market, qty, refund)]
    case SettlementSubmitted(_, _) => []
    case SettlementEnded(id, v) =>
      if id != "" && Transitions(m.store, id) then [Settling(m.store.entries[id].raw.value, v)] else []
    case DepositConfirmed(s, w, amount) => if s == "" || s in m.deposits then [] else [Crediting(w, amount)]
    case WithdrawConfirmed(s, w, amount) => if s == "" || s in m.withdrawals then [] else [Debiting(w, amount)]
  }

  function NextStore(s: Store, at: nat, e: Event): Store {
    match e
    case MatchExecuted(b) =>
      if !IsNew(s, b) then s
      else
        var r := Register(s, b.id, Entry(b.market, PendingApplied, at, "", Some(b)));
        if b.id !in s.waiting then r
        else if s.waiting[b.id].WasSubmitted? then ToSubmitted(Forget(r, b.id), b.id, s.waiting[b.id].signature)
        else ToDone(Forget(r, b.id), b.id, s.waiting[b.id].verdict)
    case SettlementSubmitted(id, signature) =>
      if id == "" then s else if id !in s.entries then Keep(s, id, WasSubmitted(signature)) else ToSubmitted(s, id, signature)
    case SettlementEnded(id, v) =>
      if id == "" then s else if id !in s.entries then Keep(s, id, WasSettled(v)) else ToDone(s, id, v)
    case _ => s
  }

  function Mark(keys: set<string>, key: string): set<string> {
    if key == "" then keys else keys + {key}
  }

  /** One message, `at` its place in the stream. */
  function Handle(m: Memory, at: nat, e: Event): Memory
    requires StoreOk(m.store) && Legal(e)
  {
    Memory(
      PerformAll(m.ledger, Effects(m, e)),
      NextStore(m.store, at, e),
      if e.OrderReserved? || e.ReserveRejected? then Mark(m.submits, e.key) else m.submits,
      if e.DepositConfirmed? then Mark(m.deposits, e.signature) else m.deposits,
      if e.WithdrawConfirmed? then Mark(m.withdrawals, e.signature) else m.withdrawals)
  }

  lemma HandleKeepsStore(m: Memory, at: nat, e: Event)
    requires StoreOk(m.store) && Legal(e)
    ensures StoreOk(Handle(m, at, e).store)
  {
    var s, r := m.store, NextStore(m.store, at, e);
    forall id | id in r.entries
      ensures EntryOk(id, r.entries[id])
    {
      if id in s.entries { assert EntryOk(id, s.entries[id]); }
    }
  }

  lemma MatchLedger(m: Memory, at: nat, b: BatchEvent)
    requires StoreOk(m.store) && EventOk(b) && IsNew(m.store, b)
    ensures Handle(m, at, MatchExecuted(b)).ledger
         == if b.id in m.store.waiting && m.store.waiting[b.id].WasSettled? then
              Settle(ApplyBatch(m.ledger, b), b, m.store.waiting[b.id].verdict)
            else ApplyBatch(m.ledger, b)
  {
    hide NextStore, PerformAll, ApplyBatch, Settle, StoreOk;
    PerformShort(m.ledger, Effects(m, MatchExecuted(b)));
  }

  lemma EndEffects(m: Memory, id: string, v: Verdict)
    requires StoreOk(m.store) && id != ""
    ensures Transitions(m.store, id) ==> m.store.entries[id].raw.Some? && EventOk(m.store.entries[id].raw.value)
    ensures Effects(m, SettlementEnded(id, v)) == if Transitions(m.store, id) then [Settling(m.store.entries[id].raw.value, v)] else []
  {
    if Transitions(m.store, id) {
      assert EntryOk(id, m.store.entries[id]);
    }
  }

  lemma PerformOne(g: Ledger, b: BatchEvent, v: Verdict)
    requires EventOk(b)
    ensures PerformAll(g, [Settling(b, v)]) == Settle(g, b, v)
  {
    hide Settle, EventOk;
    PerformShort(g, [Settling(b, v)]);
  }

  lemma EndLedger(m: Memory, at: nat, id: string, v: Verdict)
    requires StoreOk(m.store) && id != "" && Transitions(m.store, id)
    ensures m.store.entries[id].raw.Some? && EventOk(m.store.entries[id].raw.value)
    ensures Handle(m, at, SettlementEnded(id, v)).ledger == Settle(m.ledger, m.store.entries[id].raw.value, v)
  {
    EndEffects(m, id, v);
    PerformOne(m.ledger, m.store.entries[id].raw.value, v);
    hide NextStore, PerformAll, Settle, StoreOk, Effects, EventOk;
  }

  /** A verdict in full. */
  lemma EndHandled(m: Memory, at: nat, id: string, v: Verdict)
    requires StoreOk(m.store) && id != ""
    ensures Transitions(m.store, id) ==> m.store.entries[id].raw.Some? && EventOk(m.store.entries[id].raw.value)
    ensures Handle(m, at, SettlementEnded(id, v))
         == m.(ledger := if Transitions(m.store, id) then Settle(m.ledger, m.store.entries[id].raw.value, v) else m.ledger,
               store := NextStore(m.store, at, SettlementEnded(id, v)))
  {
    EndEffects(m, id, v);
    if Transitions(m.store, id) {
      PerformOne(m.ledger, m.store.entries[id].raw.value, v);
    } else {
      PerformShort(m.ledger, []);
    }
    hide NextStore, PerformAll, Settle, StoreOk, Effects, EventOk;
  }

  lemma EvictKeepsStore(s: Store, saved: nat)
    requires StoreOk(s)
    ensures StoreOk(Evict(s, saved))
  {
    forall id | id in s.entries
      ensures EntryOk(id, Evicted(s.entries[id], saved))
    {
      assert EntryOk(id, s.entries[id]);
    }
  }

  // ----- Histories -----

  /** What happens to the service: a message, or the raw batches up to a saved position being dropped. */
  datatype Step = Take(event: Event) | Drop(saved: nat)

  predicate LegalSteps(hs: seq<Step>) {
    forall i :: 0 <= i < |hs| ==> hs[i].Take? ==> Legal(hs[i].event)
  }

  function Run(g: Ledger, hs: seq<Step>): (m: Memory)
    requires LegalSteps(hs)
    ensures StoreOk(m.store)
  {
    if hs == [] then Fresh(g)
    else
      var m, last := Run(g, hs[..|hs| - 1]), hs[|hs| - 1];
      match last
      case Take(e) =>
        HandleKeepsStore(m, |hs|, e);
        Handle(m, |hs|, e)
      case Drop(saved) =>
        EvictKeepsStore(m.store, saved);
        m.(store := Evict(m.store, saved))
  }

  /** Every ledger change the history caused, in order. */
  function Journal(g: Ledger, hs: seq<Step>): (fs: seq<Effect>)
    requires LegalSteps(hs)
    ensures EffectsOk(fs)
  {
    if hs == [] then []
    else
      var m, last := Run(g, hs[..|hs| - 1]), hs[|hs| - 1];
      Journal(g, hs[..|hs| - 1]) + (if last.Take? then Effects(m, last.event) else [])
  }

  lemma {:induction false} PerformAllConcat(g: Ledger, a: seq<Effect>, b: seq<Effect>)
    requires EffectsOk(a) && EffectsOk(b)
    ensures EffectsOk(a + b)
    ensures PerformAll(g, a + b) == PerformAll(PerformAll(g, a), b)
  {
    if b == [] {
      assert a + b == a;
    } else {
      assert (a + b)[..|a + b| - 1] == a + b[..|b| - 1];
      PerformAllConcat(g, a, b[..|b| - 1]);
    }
  }

  lemma {:induction false} LedgerIsJournal(g: Ledger, hs: seq<Step>)
    requires LegalSteps(hs)
    ensures Run(g, hs).ledger == PerformAll(g, Journal(g, hs))
  {
    if hs != [] {
      var front, last := hs[..|hs| - 1], hs[|hs| - 1];
      LedgerIsJournal(g, front);
      if last.Take? {
        PerformAllConcat(g, Journal(g, front), Effects(Run(g, front), last.event));
      } else {
        assert Journal(g, front) + [] == Journal(g, front);
      }
    }
  }

  // ----- Exactly once -----

  predicate Concerns(f: Effect, id: string) {
    (f.Applying? || f.Settling?) && f.batch.id == id
  }

  /** The changes that concern one batch, in order. */
  function About(fs: seq<Effect>, id: string): seq<Effect> {
    if fs == [] then []
    else About(fs[..|fs| - 1], id) + (if Concerns(fs[|fs| - 1], id) then [fs[|fs| - 1]] else [])
  }

  lemma {:induction false} AboutConcat(a: seq<Effect>, b: seq<Effect>, id: string)
    ensures About(a + b, id) == About(a, id) + About(b, id)
  {
    if b == [] {
      assert a + b == a;
    } else {
      assert (a + b)[..|a + b| - 1] == a + b[..|b| - 1];
      AboutConcat(a, b[..|b| - 1], id);
    }
  }

  lemma {:induction false} AboutAll(fs: seq<Effect>, id: string)
    requires forall i :: 0 <= i < |fs| ==> Concerns(fs[i], id)
    ensures About(fs, id) == fs
  {
    if fs != [] { AboutAll(fs[..|fs| - 1], id); }
  }

  lemma {:induction false} AboutNone(fs: seq<Effect>, id: string)
    requires forall i :: 0 <= i < |fs| ==> !Concerns(fs[i], id)
    ensures About(fs, id) == []
  {
    if fs != [] { AboutNone(fs[..|fs| - 1], id); }
  }

  /** The batch that a history first brings under an id. */
  function Original(hs: seq<Step>, id: string): Option<BatchEvent> {
    if hs == [] then None
    else
      var before, last := Original(hs[..|hs| - 1], id), hs[|hs| - 1];
      if before.Some? then before
      else if last.Take? && last.event.MatchExecuted? && last.event.batch.id == id then Some(last.event.batch)
      else None
  }

  /** What a batch has done to the ledger, by where it stands. */
  function Owed(s: Store, id: string, b: Option<BatchEvent>): seq<Effect> {
    if id !in s.entries || b.None? then []
    else if s.entries[id].phase.Done? then [Applying(b.value), Settling(b.value, s.entries[id].phase.verdict)]
    else [Applying(b.value)]
  }

  predicate Remembers(s: Store, id: string, b: Option<BatchEvent>) {
    && (id in s.entries <==> b.Some?)
    && (id in s.entries && s.entries[id].raw.Some? ==> b == s.entries[id].raw)
  }

  /**
   * However messages arrive, are repeated or overtake one another: a batch is applied once when it is first seen
   * and settled once when it is done, and the ledger shows nothing else of it.
   */
  lemma {:induction false} ExactlyOnce(g: Ledger, hs: seq<Step>, id: string)
    requires LegalSteps(hs) && id != ""
    ensures Remembers(Run(g, hs).store, id, Original(hs, id))
    ensures About(Journal(g, hs), id) == Owed(Run(g, hs).store, id, Original(hs, id))
  {
    if hs != [] {
      var front, last := hs[..|hs| - 1], hs[|hs| - 1];
      var m := Run(g, front);
      ExactlyOnce(g, front, id);
      if last.Take? {
        AboutConcat(Journal(g, front), Effects(m, last.event), id);
        StepOwes(m, |hs|, last.event, id, Original(front, id), Original(hs, id));
      } else {
        assert Journal(g, front) + [] == Journal(g, front);
        assert id in m.store.entries ==> Evict(m.store, last.saved).entries[id].phase == m.store.entries[id].phase;
      }
    }
  }

  /** A message that may change what is known of a batch. */
  predicate Mentions(e: Event, id: string) {
    match e
    case MatchExecuted(b) => b.id == id
    case SettlementSubmitted(i, _) => i == id
    case SettlementEnded(i, _) => i == id
    case _ => false
  }

  /** The ledger changes of a message that mentions a batch all concern it; those of any other message do not. */
  lemma EffectsAbout(m: Memory, e: Event, id: string)
    requires StoreOk(m.store) && Legal(e)
    ensures About(Effects(m, e), id) == if Mentions(e, id) then Effects(m, e) else []
  {
    if e.SettlementEnded? && Transitions(m.store, e.id) {
      assert EntryOk(e.id, m.store.entries[e.id]);
    }
    if Mentions(e, id) { AboutAll(Effects(m, e), id); } else { AboutNone(Effects(m, e), id); }
  }

  lemma OthersStay(s: Store, at: nat, e: Event, id: string)
    requires !Mentions(e, id)
    ensures var r := NextStore(s, at, e);
      && (id in r.entries <==> id in s.entries) && (id in s.entries ==> r.entries[id] == s.entries[id])
      && (id in r.waiting <==> id in s.waiting) && (id in s.waiting ==> r.waiting[id] == s.waiting[id])
  {
  }

  ghost predicate Settles(m: Memory, at: nat, e: Event, id: string, before: Option<BatchEvent>, after: Option<BatchEvent>)
    requires StoreOk(m.store) && Legal(e)
  {
    && Remembers(NextStore(m.store, at, e), id, after)
    && Owed(m.store, id, before) + About(Effects(m, e), id) == Owed(NextStore(m.store, at, e), id, after)
  }

  /** A new batch gets an entry, in the phase that the news waiting for it says. */
  lemma NewEntry(s: Store, at: nat, b: BatchEvent)
    requires IsNew(s, b)
    ensures var r := NextStore(s, at, MatchExecuted(b));
      && b.id in r.entries && r.entries[b.id].raw == Some(b)
      && r.entries[b.id].phase == if b.id !in s.waiting then PendingApplied
                                  else if s.waiting[b.id].WasSubmitted? then Submitted
                                  else Phase.Done(s.waiting[b.id].verdict)
  {
  }

  lemma MatchOwes(m: Memory, at: nat, b: BatchEvent, before: Option<BatchEvent>)
    requires StoreOk(m.store) && EventOk(b) && b.id != "" && Remembers(m.store, b.id, before)
    ensures Settles(m, at, MatchExecuted(b), b.id, before, if before.Some? then before else Some(b))
  {
    var fs := Effects(m, MatchExecuted(b));
    EffectsAbout(m, MatchExecuted(b), b.id);
    var owed := Owed(m.store, b.id, before);
    assert owed + [] == owed;
    if before.None? {
      assert [] + fs == fs;
      NewEntry(m.store, at, b);
      hide NextStore, StoreOk, About;
    }
  }

  lemma EndOwes(m: Memory, at: nat, id: string, v: Verdict, before: Option<BatchEvent>)
    requires StoreOk(m.store) && id != "" && Remembers(m.store, id, before)
    ensures Settles(m, at, SettlementEnded(id, v), id, before, before)
  {
    EffectsAbout(m, SettlementEnded(id, v), id);
    var owed := Owed(m.store, id, before);
    assert owed + [] == owed;
    if Transitions(m.store, id) {
      assert EntryOk(id, m.store.entries[id]);
      assert owed + [Settling(before.value, v)] == [Applying(before.value), Settling(before.value, v)];
    }
  }

  lemma StepOwes(m: Memory, at: nat, e: Event, id: string, before: Option<BatchEvent>, after: Option<BatchEvent>)
    requires StoreOk(m.store) && Legal(e) && id != "" && Remembers(m.store, id, before)
    requires after == if before.Some? then before
                      else if e.MatchExecuted? && e.batch.id == id then Some(e.batch) else None
    ensures Settles(m, at, e, id, before, after)
  {
    if Mentions(e, id) && e.MatchExecuted? {
      MatchOwes(m, at, e.batch, before);
    } else if Mentions(e, id) && e.SettlementEnded? {
      EndOwes(m, at, id, e.verdict, before);
    } else {
      QuietOwes(m, at, e, id, before);
    }
  }

  lemma QuietOwes(m: Memory, at: nat, e: Event, id: string, before: Option<BatchEvent>)
    requires StoreOk(m.store) && Legal(e) && id != "" && Remembers(m.store, id, before)
    requires !Mentions(e, id) || e.SettlementSubmitted?
    ensures Settles(m, at, e, id, before, before)
  {
    EffectsAbout(m, e, id);
    var owed := Owed(m.store, id, before);
    assert owed + [] == owed;
    if !Mentions(e, id) { OthersStay(m.store, at, e, id); }
  }

  // ----- A key is reserved at most once -----

  /** Messages that answer a submit under its key. */
  predicate Answers(e: Event, key: string) {
    (e.OrderReserved? || e.ReserveRejected?) && e.key == key
  }

  lemma {:induction false} MarksStay(g: Ledger, hs: seq<Step>, i: nat)
    requires LegalSteps(hs) && i <= |hs|
    ensures Run(g, hs[..i]).submits <= Run(g, hs).submits
    decreases |hs| - i
  {
    if i < |hs| {
      assert hs[..i + 1][..i] == hs[..i];
      MarksStay(g, hs, i + 1);
    } else {
      assert hs[..i] == hs;
    }
  }

  /**
   * Over every history, a key is reserved at most once: whatever answered it first, no later message under the same
   * key changes the ledger, whatever order it brings.
   */
  lemma ReservedAtMostOnce(g: Ledger, hs: seq<Step>, i: nat, j: nat, key: string)
    requires LegalSteps(hs) && key != "" && i < j < |hs|
    requires hs[i].Take? && Answers(hs[i].event, key) && hs[j].Take? && Answers(hs[j].event, key)
    ensures Effects(Run(g, hs[..j]), hs[j].event) == []
    ensures Run(g, hs[..j + 1]).ledger == Run(g, hs[..j]).ledger
  {
    assert hs[..i + 1][..i] == hs[..i] && hs[..j][..i + 1] == hs[..i + 1] && hs[..j + 1][..j] == hs[..j];
    assert key in Run(g, hs[..i + 1]).submits;
    MarksStay(g, hs[..j], i + 1);
    PerformShort(Run(g, hs[..j]).ledger, []);
  }
}
