/** The projector: collects what has changed, writes it with a checkpoint in one transaction, or gives it back. */
module Projector {
  import opened Types
  import opened Accounts
  import opened Ledgers
  import opened Inflight
  import opened FundsService
  import opened FundsManager
  import opened FundsProcess
  import opened Recovery

  class Database {
    var cash: map<string, Wallet>
    var positions: map<Key, Position>
    var checkpoint: Checkpoint

    function View(): Disk
      reads this
    {
      Disk(Rows(cash, positions), checkpoint)
    }

    method UpsertWallets(wallets: map<string, Wallet>)
      modifies `cash
      ensures cash == old(cash) + CashRows(wallets)
    {
      var left := wallets.Keys;
      ghost var before := cash;
      NoRowsYet(before, wallets);
      hide RowsSoFar, CashRow;
      while left != {}
        invariant left <= wallets.Keys && RowsSoFar(before, cash, wallets, wallets.Keys - left)
        decreases |left|
      {
        var w :| w in left;
        OneMoreRow(before, cash, wallets, wallets.Keys - left, w);
        TakeOne(wallets.Keys, left, w);
        cash := cash[w := CashRow(wallets[w])];
        left := left - {w};
      }
      TookAll(wallets.Keys, left);
      AllRows(before, cash, wallets);
    }

    method UpsertPositions(rows: map<Key, Position>)
      modifies `positions
      ensures positions == old(positions) + PositionRows(rows)
    {
      var left := rows.Keys;
      ghost var before := positions;
      NoPlacesYet(before, rows);
      hide PlacesSoFar;
      while left != {}
        invariant left <= rows.Keys && PlacesSoFar(before, positions, rows, rows.Keys - left)
        decreases |left|
      {
        var k :| k in left;
        OneMorePlace(before, positions, rows, rows.Keys - left, k);
        TakeOne(rows.Keys, left, k);
        if k.market != 0 {
          positions := positions[k := rows[k]];
        }
        left := left - {k};
      }
      TookAll(rows.Keys, left);
      AllPlaces(before, positions, rows);
    }

    /** One transaction: all rows of the flush and its checkpoint, or nothing. */
    method FlushPostgres(f: Flush, commits: bool) returns (committed: bool)
      modifies this
      ensures committed == commits
      ensures View() == if commits then Written(old(View()), f) else old(View())
    {
      if !commits {
        return false;
      }
      UpsertWallets(f.wallets);
      UpsertPositions(f.positions);
      checkpoint := f.checkpoint;
      return true;
    }
  }

  ghost predicate RowsSoFar(before: map<string, Wallet>, after: map<string, Wallet>, wallets: map<string, Wallet>, done: set<string>) {
    && (forall w :: w in after <==> w in before || w in done)
    && forall w :: w in after ==>
         if w in done && w in wallets then after[w] == CashRow(wallets[w]) else w in before && after[w] == before[w]
  }

  lemma NoRowsYet(before: map<string, Wallet>, wallets: map<string, Wallet>)
    ensures RowsSoFar(before, before, wallets, wallets.Keys - wallets.Keys)
  {
  }

  lemma OneMoreRow(before: map<string, Wallet>, after: map<string, Wallet>, wallets: map<string, Wallet>, done: set<string>, w: string)
    requires RowsSoFar(before, after, wallets, done) && w in wallets
    ensures RowsSoFar(before, after[w := CashRow(wallets[w])], wallets, done + {w})
  {
  }

  lemma AllRows(before: map<string, Wallet>, after: map<string, Wallet>, wallets: map<string, Wallet>)
    requires RowsSoFar(before, after, wallets, wallets.Keys)
    ensures after == before + CashRows(wallets)
  {
    var r := before + CashRows(wallets);
    forall w
      ensures w in after <==> w in r
      ensures w in after ==> after[w] == r[w]
    {
    }
  }

  ghost predicate PlacesSoFar(before: map<Key, Position>, after: map<Key, Position>, rows: map<Key, Position>, done: set<Key>) {
    && (forall k: Key :: k in after <==> k in before || (k in done && k.market != 0))
    && forall k :: k in after ==>
         if k in done && k in rows && k.market != 0 then after[k] == rows[k] else k in before && after[k] == before[k]
  }

  lemma NoPlacesYet(before: map<Key, Position>, rows: map<Key, Position>)
    ensures PlacesSoFar(before, before, rows, rows.Keys - rows.Keys)
  {
  }

  lemma OneMorePlace(before: map<Key, Position>, after: map<Key, Position>, rows: map<Key, Position>, done: set<Key>, k: Key)
    requires PlacesSoFar(before, after, rows, done) && k in rows
    ensures PlacesSoFar(before, if k.market != 0 then after[k := rows[k]] else after, rows, done + {k})
  {
  }

  lemma AllPlaces(before: map<Key, Position>, after: map<Key, Position>, rows: map<Key, Position>)
    requires PlacesSoFar(before, after, rows, rows.Keys)
    ensures after == before + PositionRows(rows)
  {
    var r := before + PositionRows(rows);
    forall k: Key
      ensures k in after <==> k in r
      ensures k in after ==> after[k] == r[k]
    {
    }
  }

  class ProjectorLoop {
    const service: Service
    const db: Database
    var recoveryDirty: bool

    constructor (s: Service, d: Database)
      ensures service == s && db == d && !recoveryDirty
    {
      service, db, recoveryDirty := s, d, false;
    }

    /** Takes what is flagged, and with it the rest of the state as it is at this event position. */
    method CaptureFlushState() returns (f: Option<Flush>)
      requires service.Valid()
      modifies this, service.manager
      ensures service.Valid() && !recoveryDirty
      ensures service.View() == old(service.View()).(ledger := Collected(old(service.View()).ledger))
      ensures var whole := Captured(old(service.View()), service.evtSeq);
        f == if whole.wallets == map[] && whole.positions == map[] && !old(recoveryDirty) then None else Some(whole)
    {
      ghost var m := service.View();
      KnownFlags(service.manager);
      var wallets, positions := service.manager.CollectAndClearDirty();
      var needRecovery := wallets.Keys != {} || positions.Keys != {} || recoveryDirty;
      recoveryDirty := false;
      assert wallets == Captured(m, 0).wallets;
      assert positions == Captured(m, 0).positions;
      if !needRecovery {
        return None;
      }
      f := Some(Flush(wallets, positions,
                      Checkpoint(service.evtSeq, Store(service.inflight.entries, service.inflight.pendingTerminal),
                                 service.submits, service.deposits, service.withdrawals)));
    }

    /** One flush, whatever the database and the cache make of it. */
    method FlushOnce(commits: bool, cached: bool) returns (ok: bool)
      requires service.Valid()
      modifies this, db, service.manager, service.inflight
      ensures service.manager.Valid()
      ensures var (m, d) := (old(service.View()), old(db.View()));
        var f := Captured(m, service.evtSeq);
        if f.wallets == map[] && f.positions == map[] && !old(recoveryDirty) then
          ok && db.View() == d && service.View() == m.(ledger := Collected(m.ledger))
        else if !commits then
          && !ok && db.View() == d && recoveryDirty
          && service.View() == m.(ledger := Flagged(Collected(m.ledger), f.wallets.Keys, f.positions.Keys))
        else
          && ok && db.View() == Written(d, f)
          && service.View() == m.(store := Evict(m.store, f.checkpoint.lastSeq),
                                  ledger := if cached then Collected(m.ledger) else Flagged(Collected(m.ledger), f.wallets.Keys, f.positions.Keys))
    {
      hide Manager.Valid, Written, Collected, Flagged, Captured;
      var captured := CaptureFlushState();
      if captured.None? {
        return true;
      }
      var f := captured.value;
      var committed := db.FlushPostgres(f, commits);
      if !committed {
        service.manager.RestoreDirty(f.wallets, f.positions);
        recoveryDirty := true;
        return false;
      }
      service.inflight.EvictTerminal(f.checkpoint.lastSeq);
      if !cached {
        service.manager.RestoreDirty(f.wallets, f.positions);
      }
      return true;
    }
  }

  lemma KnownFlags(m: Manager)
    requires m.Valid()
    ensures (map w | w in m.View().dirtyCash && w != "" :: m.View().cash[w])
         == (map w | w in m.View().cash && w in m.View().dirtyCash && w != "" :: m.View().cash[w])
    ensures (map k | k in m.View().dirtyPositions :: m.View().positions[k])
         == (map k | k in m.View().positions && k in m.View().dirtyPositions :: m.View().positions[k])
  {
  }
}
