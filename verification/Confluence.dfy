/** Where a batch ends up, as a function of which messages about it have arrived and in what order. */
module Confluence {
  import opened Types
  import opened Ledgers
  import opened Inflight
  import opened FundsService

  predicate IsMatch(s: Step, id: string) {
    s.Take? && s.event.MatchExecuted? && s.event.batch.id == id
  }

  predicate SawMatch(hs: seq<Step>, id: string) {
    exists i :: 0 <= i < |hs| && IsMatch(hs[i], id)
  }

  predicate IsEnd(s: Step, id: string, v: Verdict) {
    s.Take? && s.event.SettlementEnded? && s.event.id == id && s.event.verdict == v
  }

  predicate SawEnd(hs: seq<Step>, id: string, v: Verdict) {
    exists i :: 0 <= i < |hs| && IsEnd(hs[i], id, v)
  }

  predicate IsSubmitted(s: Step, id: string) {
    s.Take? && s.event.SettlementSubmitted? && s.event.id == id
  }

  predicate SawSubmitted(hs: seq<Step>, id: string) {
    exists i :: 0 <= i < |hs| && IsSubmitted(hs[i], id)
  }

  /** One more step adds only itself to what has been seen. */
  lemma SawLast(hs: seq<Step>, id: string)
    requires hs != []
    ensures var (front, last) := (hs[..|hs| - 1], hs[|hs| - 1]);
      && (SawMatch(hs, id) <==> SawMatch(front, id) || IsMatch(last, id))
      && (SawSubmitted(hs, id) <==> SawSubmitted(front, id) || IsSubmitted(last, id))
      && (SawEnd(hs, id, Confirmed) <==> SawEnd(front, id, Confirmed) || IsEnd(last, id, Confirmed))
      && (SawEnd(hs, id, Failed) <==> SawEnd(front, id, Failed) || IsEnd(last, id, Failed))
  {
    var (front, last) := (hs[..|hs| - 1], hs[|hs| - 1]);
    assert hs == front + [last];
    assert IsMatch(last, id) ==> IsMatch(hs[|hs| - 1], id);
    assert IsSubmitted(last, id) ==> IsSubmitted(hs[|hs| - 1], id);
    forall v | v == Confirmed || v == Failed
      ensures SawEnd(hs, id, v) <==> SawEnd(front, id, v) || IsEnd(last, id, v)
    {
      assert IsEnd(last, id, v) ==> IsEnd(hs[|hs| - 1], id, v);
      if SawEnd(front, id, v) {
        var i :| 0 <= i < |front| && IsEnd(front[i], id, v);
        assert IsEnd(hs[i], id, v);
      }
    }
    if SawMatch(front, id) {
      var i :| 0 <= i < |front| && IsMatch(front[i], id);
      assert IsMatch(hs[i], id);
    }
    if SawSubmitted(front, id) {
      var i :| 0 <= i < |front| && IsSubmitted(front[i], id);
      assert IsSubmitted(hs[i], id);
    }
  }

  /** The best news of an unseen batch: confirmed over failed over submitted. */
  predicate WaitsFor(s: Store, id: string, hs: seq<Step>) {
    && id !in s.entries
    && (id in s.waiting <==> SawEnd(hs, id, Confirmed) || SawEnd(hs, id, Failed) || SawSubmitted(hs, id))
    && (id in s.waiting ==>
          match s.waiting[id]
          case WasSettled(Confirmed) => SawEnd(hs, id, Confirmed)
          case WasSettled(Failed) => SawEnd(hs, id, Failed) && !SawEnd(hs, id, Confirmed)
          case WasSubmitted(_) => !SawEnd(hs, id, Failed) && !SawEnd(hs, id, Confirmed))
  }

  lemma {:induction false} WaitingIs(g: Ledger, hs: seq<Step>, id: string)
    requires LegalSteps(hs) && id != "" && !SawMatch(hs, id)
    ensures WaitsFor(Run(g, hs).store, id, hs)
  {
    if hs != [] {
      var front := hs[..|hs| - 1];
      SawLast(hs, id);
      WaitingIs(g, front, id);
      WaitStep(Run(g, front).store, front, hs, id);
    }
  }

  function StoreStep(s: Store, at: nat, step: Step): Store {
    match step
    case Take(e) => NextStore(s, at, e)
    case Drop(saved) => Evict(s, saved)
  }

  lemma WaitStep(s: Store, front: seq<Step>, hs: seq<Step>, id: string)
    requires hs != [] && front == hs[..|hs| - 1] && WaitsFor(s, id, front) && !SawMatch(hs, id) && id != ""
    ensures WaitsFor(StoreStep(s, |hs|, hs[|hs| - 1]), id, hs)
  {
    SawLast(hs, id);
    var last := hs[|hs| - 1];
    if last.Take? && !Mentions(last.event, id) {
      OthersStay(s, |hs|, last.event, id);
    }
  }

  /**
   * The verdict that decides. If any verdict came before the batch itself, confirmed beats failed; otherwise the
   * first verdict after the batch decides.
   */
  function Decides(hs: seq<Step>, id: string, t: nat): Option<Verdict>
    requires t < |hs|
    decreases |hs|
  {
    if |hs| == t + 1 then
      if SawEnd(hs, id, Confirmed) then Some(Confirmed) else if SawEnd(hs, id, Failed) then Some(Failed) else None
    else
      var before, last := Decides(hs[..|hs| - 1], id, t), hs[|hs| - 1];
      if before.Some? then before
      else if IsEnd(last, id, Confirmed) then Some(Confirmed)
      else if IsEnd(last, id, Failed) then Some(Failed)
      else None
  }

  /** The batch itself is first seen at step `t`. */
  predicate FirstSeen(hs: seq<Step>, id: string, t: nat) {
    t < |hs| && IsMatch(hs[t], id) && !SawMatch(hs[..t], id)
  }

  predicate Stands(s: Store, hs: seq<Step>, id: string, t: nat)
    requires t < |hs|
  {
    id in s.entries && s.entries[id].phase ==
      match Decides(hs, id, t)
      case Some(v) => Done(v)
      case None => if SawSubmitted(hs, id) then Submitted else PendingApplied
  }

  lemma RunStore(g: Ledger, hs: seq<Step>)
    requires LegalSteps(hs) && hs != []
    ensures Run(g, hs).store == StoreStep(Run(g, hs[..|hs| - 1]).store, |hs|, hs[|hs| - 1])
  {
  }

  lemma FirstStands(s: Store, hs: seq<Step>, id: string)
    requires hs != [] && id != "" && WaitsFor(s, id, hs[..|hs| - 1]) && IsMatch(hs[|hs| - 1], id)
    ensures Stands(StoreStep(s, |hs|, hs[|hs| - 1]), hs, id, |hs| - 1)
  {
    SawLast(hs, id);
  }

  /** Where a batch stands, for every history: any order, any repetition, both verdicts. */
  lemma {:induction false} PhaseIs(g: Ledger, hs: seq<Step>, id: string, t: nat)
    requires LegalSteps(hs) && id != "" && FirstSeen(hs, id, t)
    ensures Stands(Run(g, hs).store, hs, id, t)
    decreases |hs|
  {
    hide Stands, StoreStep, WaitsFor, Run;
    var front := hs[..|hs| - 1];
    RunStore(g, hs);
    if |hs| == t + 1 {
      assert front == hs[..t];
      WaitingIs(g, front, id);
      FirstStands(Run(g, front).store, hs, id);
    } else {
      assert front[..t] == hs[..t];
      PhaseIs(g, front, id, t);
      StandStep(Run(g, front).store, hs, id, t);
    }
  }

  lemma StandStep(s: Store, hs: seq<Step>, id: string, t: nat)
    requires t < |hs| - 1 && id != "" && Stands(s, hs[..|hs| - 1], id, t)
    ensures Stands(StoreStep(s, |hs|, hs[|hs| - 1]), hs, id, t)
  {
    SawLast(hs, id);
    var last := hs[|hs| - 1];
    if last.Take? && !Mentions(last.event, id) {
      OthersStay(s, |hs|, last.event, id);
    }
  }

  // ----- One kind of verdict -----

  function Other(v: Verdict): Verdict {
    if v == Confirmed then Failed else Confirmed
  }

  lemma {:induction false} DecidesOneKind(hs: seq<Step>, id: string, t: nat, v: Verdict)
    requires t < |hs| && !SawEnd(hs, id, Other(v))
    ensures Decides(hs, id, t) == if SawEnd(hs, id, v) then Some(v) else None
    decreases |hs|
  {
    SawLast(hs, id);
    if |hs| > t + 1 { DecidesOneKind(hs[..|hs| - 1], id, t, v); }
  }

  /** When a batch only ever gets one kind of verdict, its phase depends on which messages came, not on their order. */
  lemma PhaseOfOneKind(g: Ledger, hs: seq<Step>, id: string, v: Verdict)
    requires LegalSteps(hs) && id != "" && !SawEnd(hs, id, Other(v))
    ensures var s := Run(g, hs).store;
      && (id in s.entries <==> SawMatch(hs, id))
      && (id in s.entries ==>
            s.entries[id].phase
            == (if SawEnd(hs, id, v) then Done(v) else if SawSubmitted(hs, id) then Submitted else PendingApplied))
  {
    if SawMatch(hs, id) {
      var t := FirstMatch(hs, id);
      PhaseIs(g, hs, id, t);
      DecidesOneKind(hs, id, t, v);
    } else {
      WaitingIs(g, hs, id);
    }
  }

  function FirstMatch(hs: seq<Step>, id: string): (t: nat)
    requires SawMatch(hs, id)
    ensures FirstSeen(hs, id, t)
    decreases |hs|
  {
    SawLast(hs, id);
    if SawMatch(hs[..|hs| - 1], id) then
      var t := FirstMatch(hs[..|hs| - 1], id);
      assert hs[..|hs| - 1][..t] == hs[..t];
      t
    else |hs| - 1
  }

  predicate SameNews(a: seq<Step>, b: seq<Step>, id: string) {
    && Original(a, id) == Original(b, id)
    && (SawMatch(a, id) <==> SawMatch(b, id)) && (SawSubmitted(a, id) <==> SawSubmitted(b, id))
    && (SawEnd(a, id, Confirmed) <==> SawEnd(b, id, Confirmed)) && (SawEnd(a, id, Failed) <==> SawEnd(b, id, Failed))
  }

  /**
   * Confluence: two histories that bring the same news of a batch, with one kind of verdict, leave it in the same
   * phase and have changed the ledger on its account in exactly the same way, whatever else they contain.
   */
  lemma Confluent(g: Ledger, a: seq<Step>, b: seq<Step>, id: string, v: Verdict)
    requires LegalSteps(a) && LegalSteps(b) && id != "" && SameNews(a, b, id) && !SawEnd(a, id, Other(v))
    ensures id in Run(g, a).store.entries <==> id in Run(g, b).store.entries
    ensures id in Run(g, a).store.entries ==> Run(g, a).store.entries[id].phase == Run(g, b).store.entries[id].phase
    ensures About(Journal(g, a), id) == About(Journal(g, b), id)
  {
    PhaseOfOneKind(g, a, id, v);
    PhaseOfOneKind(g, b, id, v);
    ExactlyOnce(g, a, id);
    ExactlyOnce(g, b, id);
  }

  predicate OnlyAbout(hs: seq<Step>, id: string) {
    forall i :: 0 <= i < |hs| && hs[i].Take? ==> Mentions(hs[i].event, id)
  }

  lemma {:induction false} JournalOnlyAbout(g: Ledger, hs: seq<Step>, id: string)
    requires LegalSteps(hs) && OnlyAbout(hs, id)
    ensures About(Journal(g, hs), id) == Journal(g, hs)
  {
    if hs != [] {
      var front, last := hs[..|hs| - 1], hs[|hs| - 1];
      JournalOnlyAbout(g, front, id);
      if last.Take? {
        EffectsAbout(Run(g, front), last.event, id);
        AboutConcat(Journal(g, front), Effects(Run(g, front), last.event), id);
      } else {
        assert Journal(g, front) + [] == Journal(g, front);
      }
    }
  }

  /** Histories of one batch alone therefore end in the same ledger. */
  lemma SameLedger(g: Ledger, a: seq<Step>, b: seq<Step>, id: string, v: Verdict)
    requires LegalSteps(a) && LegalSteps(b) && id != "" && SameNews(a, b, id) && !SawEnd(a, id, Other(v))
    requires OnlyAbout(a, id) && OnlyAbout(b, id)
    ensures Run(g, a).ledger == Run(g, b).ledger
  {
    Confluent(g, a, b, id, v);
    JournalOnlyAbout(g, a, id);
    JournalOnlyAbout(g, b, id);
    LedgerIsJournal(g, a);
    LedgerIsJournal(g, b);
  }

  /** With both kinds of verdict order does matter: whatever else is to come, the first verdict after the batch stays. */
  lemma BothKindsDisagree(g: Ledger, b: BatchEvent, rest: seq<Step>, v: Verdict)
    requires EventOk(b) && b.id != "" && LegalSteps(rest)
    ensures var hs := [Take(MatchExecuted(b)), Take(SettlementEnded(b.id, v))] + rest;
      LegalSteps(hs) && b.id in Run(g, hs).store.entries && Run(g, hs).store.entries[b.id].phase == Done(v)
  {
    var hs := [Take(MatchExecuted(b)), Take(SettlementEnded(b.id, v))] + rest;
    PhaseIs(g, hs, b.id, 0);
    FirstVerdictStays(hs, b.id, v);
  }

  lemma {:induction false} FirstVerdictStays(hs: seq<Step>, id: string, v: Verdict)
    requires |hs| >= 2 && IsMatch(hs[0], id) && IsEnd(hs[1], id, v)
    ensures Decides(hs, id, 0) == Some(v)
    decreases |hs|
  {
    if |hs| == 2 {
      assert hs[..1] == [hs[0]];
      assert Decides(hs[..1], id, 0) == None;
    } else {
      FirstVerdictStays(hs[..|hs| - 1], id, v);
    }
  }
}
