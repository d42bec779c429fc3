/** Settlement submissions: rows that change status only under guards, and the oldest-first choice among them. */
module Submissions {
  import opened Types

  datatype Status = Queued | Prepared | Submitted | Processed | Confirmed | Failed

  datatype LaneStatus = Active | Paused

  /** `created` orders the rows; no two rows are created at the same moment. */
  datatype Row = Row(market: nat, created: nat, status: Status, lane: LaneStatus, signature: string, retries: nat, version: nat)

  type Rows = map<string, Row>

  /** Waiting rows are those a lane still has to submit. */
  predicate IsWaiting(r: Row) {
    r.status == Queued || r.status == Prepared
  }

  predicate Has(rows: Rows, id: string, status: Status) {
    id in rows && rows[id].status == status
  }

  function Inserted(rows: Rows, id: string, market: nat, created: nat, lane: LaneStatus): Rows {
    if id in rows then rows else rows[id := Row(market, created, Queued, lane, "", 0, 1)]
  }

  predicate CanPrepare(rows: Rows, id: string) {
    Has(rows, id, Queued) && rows[id].lane == Active
  }

  predicate CanSubmit(rows: Rows, id: string) {
    Has(rows, id, Prepared) && rows[id].lane == Active
  }

  predicate CanProcess(rows: Rows, id: string, signature: string) {
    Has(rows, id, Submitted) && rows[id].signature == signature
  }

  predicate CanConfirm(rows: Rows, id: string, signature: string) {
    Has(rows, id, Processed) && rows[id].signature == signature
  }

  predicate CanFail(rows: Rows, id: string, signature: string) {
    (Has(rows, id, Submitted) || Has(rows, id, Processed)) && rows[id].signature == signature
  }

  predicate CanFailEarly(rows: Rows, id: string) {
    id in rows && IsWaiting(rows[id])
  }

  function Bump(r: Row): Row {
    r.(version := r.version + 1)
  }

  function WithStatus(rows: Rows, id: string, status: Status): Rows
    requires id in rows
  {
    rows[id := Bump(rows[id]).(status := status)]
  }

  function PausedRow(r: Row, market: nat): Row {
    if r.market == market && IsWaiting(r) && r.lane == Active then Bump(r).(lane := Paused) else r
  }

  /** The row fails and, in the same transaction, everything still waiting in its market is paused. */
  function FailedAndPaused(rows: Rows, id: string): Rows
    requires id in rows
  {
    var failed := rows[id := Bump(rows[id]).(status := Failed, lane := Paused)];
    map x | x in failed :: PausedRow(failed[x], rows[id].market)
  }

  /** The rows of a market with a status that are still active, and the oldest of them. */
  predicate Candidate(rows: Rows, id: string, market: nat, status: Status) {
    Has(rows, id, status) && rows[id].market == market && rows[id].lane == Active
  }

  predicate IsOldest(rows: Rows, id: string, market: nat, status: Status) {
    && Candidate(rows, id, market, status)
    && forall x :: x in rows && Candidate(rows, x, market, status) ==> rows[id].created <= rows[x].created
  }

  class SubmissionRepo {
    var rows: Rows

    constructor ()
      ensures rows == map[]
    {
      rows := map[];
    }

    method UpsertQueued(id: string, market: nat, created: nat, lane: LaneStatus) returns (inserted: bool)
      modifies this
      ensures rows == Inserted(old(rows), id, market, created, lane)
      ensures inserted <==> id !in old(rows)
    {
      if id in rows {
        return false;
      }
      rows := rows[id := Row(market, created, Queued, lane, "", 0, 1)];
      return true;
    }

    /** The oldest active row of a market with a status, if there is one. */
    method LoadNextByMarket(market: nat, status: Status) returns (next: Option<string>)
      ensures next.None? ==> forall x :: x in rows ==> !Candidate(rows, x, market, status)
      ensures next.Some? ==> IsOldest(rows, next.value, market, status)
    {
      next := None;
      var left := rows.Keys;
      while left != {}
        invariant left <= rows.Keys
        invariant next.None? ==> forall x :: x in rows && x !in left ==> !Candidate(rows, x, market, status)
        invariant next.Some? ==>
          && Candidate(rows, next.value, market, status)
          && forall x :: x in rows && x !in left && Candidate(rows, x, market, status) ==> rows[next.value].created <= rows[x].created
        decreases |left|
      {
        var id :| id in left;
        left := left - {id};
        var r := rows[id];
        if r.market == market && r.status == status && r.lane == Active {
          if next.None? || r.created < rows[next.value].created {
            next := Some(id);
          }
        }
      }
    }

    method ListSubmitted() returns (ids: set<string>)
      ensures forall x :: x in ids <==> Has(rows, x, Submitted)
    {
      ids := set x | x in rows && rows[x].status == Submitted;
    }

    method ListPausedMarketIDs() returns (markets: set<nat>)
      ensures forall m :: m in markets <==> exists x :: x in rows && rows[x].market == m && rows[x].lane == Paused
    {
      markets := set x | x in rows && rows[x].lane == Paused :: rows[x].market;
    }

    /** The markets with an active row of a status: the queued ones to prepare, the prepared ones to schedule. */
    method ListMarketIDs(status: Status) returns (markets: set<nat>)
      ensures forall m :: m in markets <==> exists x :: Candidate(rows, x, m, status)
    {
      markets := set x | x in rows && rows[x].status == status && rows[x].lane == Active :: rows[x].market;
      assert forall m :: m in markets ==> exists x :: x in rows && Candidate(rows, x, m, status);
    }

    method MarkPreparedCAS(id: string) returns (applied: bool)
      modifies this
      ensures applied <==> CanPrepare(old(rows), id)
      ensures rows == if applied then WithStatus(old(rows), id, Prepared) else old(rows)
    {
      if id !in rows || rows[id].status != Queued || rows[id].lane != Active {
        return false;
      }
      rows := rows[id := rows[id].(status := Prepared, version := rows[id].version + 1)];
      return true;
    }

    method MarkSubmittedCAS(id: string, signature: string) returns (applied: bool)
      modifies this
      ensures applied <==> CanSubmit(old(rows), id)
      ensures rows == if applied then old(rows)[id := Bump(old(rows)[id]).(status := Submitted, signature := signature)] else old(rows)
    {
      if id !in rows || rows[id].status != Prepared || rows[id].lane != Active {
        return false;
      }
      rows := rows[id := rows[id].(signature := signature, status := Submitted, version := rows[id].version + 1)];
      return true;
    }

    method MarkProcessedCAS(id: string, signature: string) returns (applied: bool)
      modifies this
      ensures applied <==> CanProcess(old(rows), id, signature)
      ensures rows == if applied then WithStatus(old(rows), id, Processed) else old(rows)
    {
      if id !in rows || rows[id].status != Submitted || rows[id].signature != signature {
        return false;
      }
      rows := rows[id := rows[id].(status := Processed, version := rows[id].version + 1)];
      return true;
    }

    method MarkConfirmedCAS(id: string, signature: string) returns (applied: bool)
      modifies this
      ensures applied <==> CanConfirm(old(rows), id, signature)
      ensures rows == if applied then WithStatus(old(rows), id, Confirmed) else old(rows)
    {
      if id !in rows || rows[id].status != Processed || rows[id].signature != signature {
        return false;
      }
      rows := rows[id := rows[id].(status := Confirmed, version := rows[id].version + 1)];
      return true;
    }

    method ReplaceSignatureCAS(id: string, was: string, signature: string) returns (applied: bool)
      modifies this
      ensures applied <==> CanProcess(old(rows), id, was)
      ensures rows == if applied then old(rows)[id := Bump(old(rows)[id]).(signature := signature, retries := old(rows)[id].retries + 1)]
                      else old(rows)
    {
      if id !in rows || rows[id].status != Submitted || rows[id].signature != was {
        return false;
      }
      var r := rows[id];
      rows := rows[id := r.(signature := signature, retries := r.retries + 1, version := r.version + 1)];
      return true;
    }

    method MarkFailedAndPauseQueued(id: string, signature: string) returns (market: Option<nat>)
      modifies this
      ensures market.Some? <==> CanFail(old(rows), id, signature)
      ensures market.Some? ==> market.value == old(rows)[id].market
      ensures rows == if market.Some? then FailedAndPaused(old(rows), id) else old(rows)
    {
      if id !in rows || (rows[id].status != Submitted && rows[id].status != Processed) || rows[id].signature != signature {
        return None;
      }
      market := Some(rows[id].market);
      FailAndPause(id);
    }

    method MarkFailedBeforeSubmitAndPauseQueued(id: string) returns (market: Option<nat>)
      modifies this
      ensures market.Some? <==> CanFailEarly(old(rows), id)
      ensures market.Some? ==> market.value == old(rows)[id].market
      ensures rows == if market.Some? then FailedAndPaused(old(rows), id) else old(rows)
    {
      if id !in rows || (rows[id].status != Queued && rows[id].status != Prepared) {
        return None;
      }
      market := Some(rows[id].market);
      FailAndPause(id);
    }

    /** Both updates of the failing transaction. */
    method FailAndPause(id: string)
      requires id in rows
      modifies this
      ensures rows == FailedAndPaused(old(rows), id)
    {
      var market := rows[id].market;
      rows := rows[id := rows[id].(status := Failed, lane := Paused, version := rows[id].version + 1)];
      ghost var failed := rows;
      var left := rows.Keys;
      while left != {}
        invariant left <= failed.Keys && PausedSoFar(failed, rows, market, left)
        decreases |left|
      {
        var x :| x in left;
        var r := rows[x];
        if r.market == market && (r.status == Queued || r.status == Prepared) && r.lane == Active {
          rows := rows[x := r.(lane := Paused, version := r.version + 1)];
        }
        left := left - {x};
      }
      AllPaused(failed, rows, market);
    }
  }

  ghost predicate PausedSoFar(failed: Rows, rows: Rows, market: nat, left: set<string>) {
    rows.Keys == failed.Keys && forall x :: x in rows ==> rows[x] == if x in left then failed[x] else PausedRow(failed[x], market)
  }

  lemma AllPaused(failed: Rows, rows: Rows, market: nat)
    requires PausedSoFar(failed, rows, market, {})
    ensures rows == map x | x in failed :: PausedRow(failed[x], market)
  {
  }
}
