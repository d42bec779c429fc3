/** The life of a batch between matching and its end on chain, whatever order its messages arrive in. */
module Inflight {
  import opened Types
  import opened Ledgers

  datatype Phase = PendingApplied | Submitted | Done(verdict: Verdict)

  /** One batch on its way. `raw` is what the batch was; it may be dropped once the batch is done and saved. */
  datatype Entry = Entry(market: nat, phase: Phase, lastSeq: nat, signature: string, raw: Option<BatchEvent>)

  /** News of a batch that has not been seen yet. */
  datatype News = WasSubmitted(signature: string) | WasSettled(verdict: Verdict)

  datatype Store = Store(entries: map<string, Entry>, waiting: map<string, News>)

  const NO_STORE := Store(map[], map[])

  function Priority(n: News): nat {
    match n
    case WasSettled(Confirmed) => 3
    case WasSettled(Failed) => 2
    case WasSubmitted(_) => 1
  }

  function Register(s: Store, id: string, entry: Entry): Store {
    if id in s.entries then s else s.(entries := s.entries[id := entry])
  }

  function ToSubmitted(s: Store, id: string, signature: string): Store {
    if id in s.entries && s.entries[id].phase == PendingApplied then
      s.(entries := s.entries[id := s.entries[id].(phase := Submitted, signature := signature)])
    else s
  }

  /** A batch moves to its end once; a second verdict, the same or the other, changes nothing. */
  predicate Transitions(s: Store, id: string) {
    id in s.entries && !s.entries[id].phase.Done?
  }

  function ToDone(s: Store, id: string, v: Verdict): Store {
    if Transitions(s, id) then s.(entries := s.entries[id := s.entries[id].(phase := Done(v))]) else s
  }

  /** News kept for later; better news replaces what is kept, equal or worse news does not. */
  function Keep(s: Store, id: string, n: News): Store {
    if id in s.waiting && Priority(s.waiting[id]) >= Priority(n) then s
    else s.(waiting := s.waiting[id := n])
  }

  function Forget(s: Store, id: string): Store {
    s.(waiting := s.waiting - {id})
  }

  function Evicted(e: Entry, saved: nat): Entry {
    if e.phase.Done? && e.lastSeq <= saved then e.(raw := None) else e
  }

  function Evict(s: Store, saved: nat): Store {
    s.(entries := map id | id in s.entries :: Evicted(s.entries[id], saved))
  }

  datatype Advance = Advance(raw: Option<BatchEvent>, transitioned: bool, conflict: bool)

  class InflightStore {
    var entries: map<string, Entry>
    var pendingTerminal: map<string, News>

    constructor ()
      ensures View() == NO_STORE
    {
      entries, pendingTerminal := map[], map[];
    }

    function View(): Store
      reads this
    {
      Store(entries, pendingTerminal)
    }

    method RegisterEntry(id: string, entry: Entry) returns (registered: bool)
      modifies this
      ensures View() == Register(old(View()), id, entry)
      ensures registered <==> id !in old(View()).entries
    {
      if id in entries {
        return false;
      }
      entries := entries[id := entry];
      return true;
    }

    method AdvanceToSubmitted(id: string, signature: string) returns (ok: bool, conflict: bool)
      modifies this
      ensures View() == ToSubmitted(old(View()), id, signature)
      ensures ok <==> id in old(View()).entries && !old(View()).entries[id].phase.Done?
      ensures conflict <==> id in old(View()).entries && old(View()).entries[id].phase.Done?
    {
      if id !in entries {
        return false, false;
      }
      var entry := entries[id];
      if entry.phase.Done? {
        return false, true;
      }
      if entry.phase == Submitted {
        return true, false;
      }
      entries := entries[id := entry.(phase := Submitted, signature := signature)];
      return true, false;
    }

    method AdvanceToTerminal(id: string, v: Verdict) returns (r: Advance)
      modifies this
      ensures View() == ToDone(old(View()), id, v)
      ensures r.transitioned <==> Transitions(old(View()), id)
      ensures r.conflict <==> id in old(View()).entries && old(View()).entries[id].phase.Done? && old(View()).entries[id].phase.verdict != v
      ensures r.transitioned ==> r.raw == old(View()).entries[id].raw
    {
      if id !in entries {
        return Advance(None, false, false);
      }
      var entry := entries[id];
      if entry.phase == Done(v) {
        return Advance(entry.raw, false, false);
      }
      if entry.phase.Done? {
        return Advance(None, false, true);
      }
      entries := entries[id := entry.(phase := Done(v))];
      return Advance(entry.raw, true, false);
    }

    method AddPendingTerminal(id: string, n: News)
      modifies this
      ensures View() == Keep(old(View()), id, n)
    {
      if id in pendingTerminal {
        if Priority(pendingTerminal[id]) >= Priority(n) {
          return;
        }
      }
      pendingTerminal := pendingTerminal[id := n];
    }

    method TakePendingTerminal(id: string) returns (n: Option<News>)
      modifies this
      ensures View() == Forget(old(View()), id)
      ensures n == if id in old(View()).waiting then Some(old(View()).waiting[id]) else None
    {
      if id !in pendingTerminal {
        assert pendingTerminal - {id} == pendingTerminal;
        return None;
      }
      n := Some(pendingTerminal[id]);
      pendingTerminal := pendingTerminal - {id};
    }

    method EvictTerminal(snapshotSeq: nat)
      modifies this
      ensures View() == Evict(old(View()), snapshotSeq)
    {
      var left := entries.Keys;
      ghost var all := entries;
      while left != {}
        invariant left <= all.Keys && entries.Keys == all.Keys && pendingTerminal == old(pendingTerminal)
        invariant forall id :: id in all ==>
          entries[id] == if id in left then all[id] else Evicted(all[id], snapshotSeq)
        decreases |left|
      {
        var id :| id in left;
        var entry := entries[id];
        if entry.phase.Done? && entry.lastSeq <= snapshotSeq {
          entries := entries[id := entry.(raw := None)];
        }
        left := left - {id};
      }
    }
  }
}
