/**
 * The settlement lanes: rows survive a crash, lanes and running submitters do not. Every step is one handler, one
 * transaction or one crash with restart.
 */
module Lanes {
  import opened Types
  import opened Submissions

  /** A market's lane: whether it is paused, and the row it is busy with, if any. */
  datatype Lane = Lane(paused: bool, current: string)

  const IDLE := Lane(false, "")

  /** `flying` are the submitters under way; `log` is the history of ids in the order they were submitted. */
  datatype State = State(rows: Rows, lanes: map<nat, Lane>, flying: set<string>, log: seq<string>, clock: nat)

  const START := State(map[], map[], {}, [], 0)

  function LaneOf(s: State, market: nat): Lane {
    if market in s.lanes then s.lanes[market] else IDLE
  }

  function WithLane(s: State, market: nat, lane: Lane): State {
    s.(lanes := s.lanes[market := lane])
  }

  datatype Step =
    | Ingest(id: string, market: nat)
    | Prepare(id: string)
    | RefuseToPrepare(id: string)
    | Schedule(id: string)
    | Abort(id: string)
    | TooLarge(id: string)
    | Submit(id: string, signature: string)
    | Resign(id: string, was: string, signature: string)
    | Process(id: string, signature: string)
    | Confirm(id: string, signature: string)
    | Fail(id: string, signature: string, release: bool)
    | Adopt(id: string)
    | Restart

  /** A lane busy with the row lets go of it, and is paused if asked. */
  function Released(s: State, id: string, paused: bool): State {
    if id !in s.rows then s
    else
      var m := s.rows[id].market;
      if LaneOf(s, m).current == id then WithLane(s, m, Lane(LaneOf(s, m).paused || paused, "")) else s
  }

  function PausedLane(s: State, market: nat): State {
    WithLane(s, market, LaneOf(s, market).(paused := true))
  }

  /** What the restarted service finds in the rows. */
  ghost predicate HasPaused(rows: Rows, market: nat) {
    exists id :: id in rows && rows[id].market == market && rows[id].lane == Paused
  }

  ghost predicate IsSubmitted(rows: Rows, market: nat, id: string) {
    Has(rows, id, Submitted) && rows[id].market == market
  }

  ghost function SubmittedIn(rows: Rows, market: nat): string {
    if exists id :: IsSubmitted(rows, market, id) then
      var id :| IsSubmitted(rows, market, id);
      id
    else ""
  }

  ghost function Recovered(rows: Rows): map<nat, Lane> {
    map m | m in (set id | id in rows :: rows[id].market) :: Lane(HasPaused(rows, m), SubmittedIn(rows, m))
  }

  ghost predicate CanStep(s: State, t: Step) {
    match t
    case Ingest(id, _) => id != ""
    case Prepare(id) => id in s.rows && IsOldest(s.rows, id, s.rows[id].market, Queued)
    case RefuseToPrepare(id) => id in s.rows && IsOldest(s.rows, id, s.rows[id].market, Queued)
    case Schedule(id) =>
      id in s.rows && IsOldest(s.rows, id, s.rows[id].market, Prepared) && LaneOf(s, s.rows[id].market) == IDLE
    case Abort(id) => id in s.flying
    case TooLarge(id) => id in s.flying
    case Submit(id, _) => id in s.flying
    case Adopt(id) => id in s.rows
    case _ => true
  }

  function Failing(s: State, id: string): State
    requires id in s.rows
  {
    PausedLane(s.(rows := FailedAndPaused(s.rows, id)), s.rows[id].market)
  }

  ghost function Next(s: State, t: Step): State
    requires CanStep(s, t)
  {
    match t
    case Ingest(id, market) =>
      s.(rows := Inserted(s.rows, id, market, s.clock, if LaneOf(s, market).paused then Paused else Active), clock := s.clock + 1)
    case Prepare(id) => s.(rows := WithStatus(s.rows, id, Prepared))
    case RefuseToPrepare(id) => Released(Failing(s, id), id, true)
    case Schedule(id) => WithLane(s, s.rows[id].market, Lane(false, id)).(flying := s.flying + {id})
    case Abort(id) => Released(s, id, false).(flying := s.flying - {id})
    case TooLarge(id) =>
      (if CanFailEarly(s.rows, id) then Released(Failing(s, id), id, true) else s).(flying := s.flying - {id})
    case Submit(id, signature) =>
      if CanSubmit(s.rows, id) then
        s.(rows := s.rows[id := Bump(s.rows[id]).(status := Submitted, signature := signature)],
           log := s.log + [id], flying := s.flying - {id})
      else Released(s, id, false).(flying := s.flying - {id})
    case Resign(id, was, signature) =>
      if CanProcess(s.rows, id, was) then
        s.(rows := s.rows[id := Bump(s.rows[id]).(signature := signature, retries := s.rows[id].retries + 1)])
      else s
    case Process(id, signature) =>
      if CanProcess(s.rows, id, signature) then
        var m := s.rows[id].market;
        WithLane(s.(rows := WithStatus(s.rows, id, Processed)), m, LaneOf(s, m).(current := ""))
      else s
    case Confirm(id, signature) => if CanConfirm(s.rows, id, signature) then s.(rows := WithStatus(s.rows, id, Confirmed)) else s
    case Fail(id, signature, release) =>
      if CanFail(s.rows, id, signature) then
        var f := Failing(s, id);
        if release then WithLane(f, s.rows[id].market, Lane(true, "")) else f
      else s
    case Adopt(id) =>
      var m := s.rows[id].market;
      if LaneOf(s, m).current == "" then WithLane(s, m, LaneOf(s, m).(current := id)) else s
    case Restart => s.(lanes := Recovered(s.rows), flying := {})
  }

  // ----- What every step keeps -----

  ghost predicate Waits(rows: Rows, id: string, market: nat) {
    id in rows && rows[id].market == market && IsWaiting(rows[id]) && rows[id].lane == Active
  }

  /** Rows have names and distinct creation times in the past, and prepared ones are older than queued ones. */
  ghost predicate RowsOk(s: State) {
    && (forall x :: x in s.rows ==> x != "" && s.rows[x].created < s.clock)
    && (forall x, y :: x in s.rows && y in s.rows && x != y ==> s.rows[x].created != s.rows[y].created)
    && (forall x, y, m :: Candidate(s.rows, x, m, Prepared) && Candidate(s.rows, y, m, Queued) ==> s.rows[x].created < s.rows[y].created)
  }

  /** A lane is paused exactly when a row of its market says so, and then nothing in the market waits. */
  ghost predicate PauseOk(s: State) {
    && (forall m :: LaneOf(s, m).paused <==> HasPaused(s.rows, m))
    && (forall x, m :: Waits(s.rows, x, m) ==> !LaneOf(s, m).paused)
  }

  /** An open lane is busy with the row its market has submitted and with the submitter it has under way. */
  ghost predicate BusyOk(s: State) {
    && (forall m :: LaneOf(s, m).current == "" || (LaneOf(s, m).current in s.rows && s.rows[LaneOf(s, m).current].market == m))
    && (forall x, m :: IsSubmitted(s.rows, m, x) ==> LaneOf(s, m).paused || LaneOf(s, m).current == x)
    && (forall x, y, m :: IsSubmitted(s.rows, m, x) && IsSubmitted(s.rows, m, y) ==> x == y)
    && (forall x :: x in s.flying ==>
          && x in s.rows && (s.rows[x].status == Prepared || s.rows[x].status == Failed)
          && (LaneOf(s, s.rows[x].market).paused || LaneOf(s, s.rows[x].market).current == x))
  }

  /** What has been submitted is older than whatever waits, and so is what is about to be. */
  ghost predicate OrderOk(s: State) {
    && (forall i :: 0 <= i < |s.log| ==> s.log[i] in s.rows && !IsWaiting(s.rows[s.log[i]]))
    && (forall i, j :: 0 <= i < j < |s.log| && s.rows[s.log[i]].market == s.rows[s.log[j]].market ==>
          s.rows[s.log[i]].created < s.rows[s.log[j]].created)
    && (forall i, x :: 0 <= i < |s.log| && Waits(s.rows, x, s.rows[s.log[i]].market) ==>
          s.rows[s.log[i]].created < s.rows[x].created)
    && (forall x, y :: x in s.flying && CanSubmit(s.rows, x) && Waits(s.rows, y, s.rows[x].market) && x != y ==>
          s.rows[x].created < s.rows[y].created)
  }

  ghost predicate Inv(s: State) {
    RowsOk(s) && PauseOk(s) && BusyOk(s) && OrderOk(s)
  }

  lemma StartInv()
    ensures Inv(START)
  {
  }

  /** What failing one row does to each row. */
  lemma FailedAt(rows: Rows, id: string, x: string)
    requires id in rows
    ensures x in FailedAndPaused(rows, id) <==> x in rows
    ensures x in rows && x != id ==> FailedAndPaused(rows, id)[x] == PausedRow(rows[x], rows[id].market)
    ensures FailedAndPaused(rows, id)[id] == Bump(rows[id]).(status := Failed, lane := Paused)
  {
  }

  lemma IngestKeeps(s: State, id: string, market: nat)
    requires Inv(s) && id != ""
    ensures Inv(Next(s, Ingest(id, market)))
  {
    var n := Next(s, Ingest(id, market));
    if id !in s.rows {
      IngestRows(s, n, id, market);
      IngestPause(s, n, id, market);
      IngestBusy(s, n, id, market);
      IngestOrder(s, n, id, market);
    } else {
      assert n == s.(clock := s.clock + 1);
      ClockOnly(s, n);
    }
  }

  lemma ClockOnly(s: State, n: State)
    requires Inv(s) && n == s.(clock := s.clock + 1)
    ensures Inv(n)
  {
    assert forall m :: LaneOf(n, m) == LaneOf(s, m);
  }

  ghost predicate NewRow(s: State, n: State, id: string, market: nat) {
    && id != "" && id !in s.rows && n.lanes == s.lanes && n.flying == s.flying && n.log == s.log && n.clock == s.clock + 1
    && n.rows == s.rows[id := Row(market, s.clock, Queued, if LaneOf(s, market).paused then Paused else Active, "", 0, 1)]
  }

  lemma IngestRows(s: State, n: State, id: string, market: nat)
    requires NewRow(s, n, id, market) && RowsOk(s)
    ensures RowsOk(n)
  {
    forall x, y, m | Candidate(n.rows, x, m, Prepared) && Candidate(n.rows, y, m, Queued)
      ensures n.rows[x].created < n.rows[y].created
    {
      assert x != id && Candidate(s.rows, x, m, Prepared);
      if y != id { assert Candidate(s.rows, y, m, Queued); }
    }
  }

  lemma IngestPause(s: State, n: State, id: string, market: nat)
    requires NewRow(s, n, id, market) && PauseOk(s)
    ensures PauseOk(n)
  {
    forall m
      ensures LaneOf(n, m).paused <==> HasPaused(n.rows, m)
    {
      assert LaneOf(n, m) == LaneOf(s, m);
      if HasPaused(s.rows, m) {
        var x :| x in s.rows && s.rows[x].market == m && s.rows[x].lane == Paused;
        assert x in n.rows && n.rows[x] == s.rows[x];
      }
      if HasPaused(n.rows, m) {
        var x :| x in n.rows && n.rows[x].market == m && n.rows[x].lane == Paused;
        if x != id { assert x in s.rows && s.rows[x] == n.rows[x]; }
      }
    }
    forall x, m | Waits(n.rows, x, m)
      ensures !LaneOf(n, m).paused
    {
      if x != id { assert Waits(s.rows, x, m); }
    }
  }

  lemma IngestBusy(s: State, n: State, id: string, market: nat)
    requires NewRow(s, n, id, market) && BusyOk(s)
    ensures BusyOk(n)
  {
    forall m
      ensures LaneOf(n, m) == LaneOf(s, m)
    {
    }
    forall x, m | IsSubmitted(n.rows, m, x)
      ensures IsSubmitted(s.rows, m, x)
    {
    }
  }

  lemma IngestOrder(s: State, n: State, id: string, market: nat)
    requires NewRow(s, n, id, market) && RowsOk(s) && OrderOk(s) && BusyOk(s)
    ensures OrderOk(n)
  {
    forall i | 0 <= i < |n.log|
      ensures n.log[i] in n.rows && n.log[i] != id && n.rows[n.log[i]] == s.rows[n.log[i]]
    {
    }
    forall i, x | 0 <= i < |n.log| && Waits(n.rows, x, n.rows[n.log[i]].market)
      ensures n.rows[n.log[i]].created < n.rows[x].created
    {
      if x != id { assert Waits(s.rows, x, s.rows[s.log[i]].market); }
    }
    forall x, y | x in n.flying && CanSubmit(n.rows, x) && Waits(n.rows, y, n.rows[x].market) && x != y
      ensures n.rows[x].created < n.rows[y].created
    {
      assert x in s.rows && CanSubmit(s.rows, x);
      if y != id { assert Waits(s.rows, y, s.rows[x].market); }
    }
  }

  // ----- One row moves on -----

  /** Nothing but one row has changed, and it keeps its market, its creation time and its own pause. */
  ghost predicate OneRow(s: State, n: State, id: string) {
    && id in s.rows && id in n.rows && n.rows == s.rows[id := n.rows[id]]
    && n.rows[id].market == s.rows[id].market && n.rows[id].created == s.rows[id].created && n.rows[id].lane == s.rows[id].lane
    && n.clock == s.clock
  }

  lemma OneRowPauses(s: State, n: State, id: string, m: nat)
    requires OneRow(s, n, id)
    ensures HasPaused(n.rows, m) <==> HasPaused(s.rows, m)
  {
    if HasPaused(s.rows, m) {
      var x :| x in s.rows && s.rows[x].market == m && s.rows[x].lane == Paused;
      assert x in n.rows && n.rows[x].market == m && n.rows[x].lane == Paused;
    }
    if HasPaused(n.rows, m) {
      var x :| x in n.rows && n.rows[x].market == m && n.rows[x].lane == Paused;
      assert x in s.rows && s.rows[x].market == m && s.rows[x].lane == Paused;
    }
  }

  /** A row that no longer waits moves on: it stays out of the way of whatever waits. */
  ghost predicate MovesOn(s: State, n: State, id: string) {
    && OneRow(s, n, id) && (s.rows[id].status == Submitted || s.rows[id].status == Processed) && !IsWaiting(n.rows[id])
    && (n.rows[id].status == Submitted ==> s.rows[id].status == Submitted)
    && n.log == s.log && n.flying == s.flying
  }

  lemma MovesOnWaits(s: State, n: State, id: string, x: string, m: nat)
    requires MovesOn(s, n, id)
    ensures Waits(n.rows, x, m) <==> Waits(s.rows, x, m)
    ensures IsSubmitted(n.rows, m, x) ==> IsSubmitted(s.rows, m, x)
    ensures Candidate(n.rows, x, m, Prepared) <==> Candidate(s.rows, x, m, Prepared)
    ensures Candidate(n.rows, x, m, Queued) <==> Candidate(s.rows, x, m, Queued)
    ensures CanSubmit(n.rows, x) <==> CanSubmit(s.rows, x)
  {
  }

  lemma MovesOnRows(s: State, n: State, id: string)
    requires MovesOn(s, n, id) && RowsOk(s)
    ensures RowsOk(n)
  {
    forall x, y, m | Candidate(n.rows, x, m, Prepared) && Candidate(n.rows, y, m, Queued)
      ensures n.rows[x].created < n.rows[y].created
    {
      MovesOnWaits(s, n, id, x, m);
      MovesOnWaits(s, n, id, y, m);
    }
  }

  lemma MovesOnOrder(s: State, n: State, id: string)
    requires MovesOn(s, n, id) && OrderOk(s)
    ensures OrderOk(n)
  {
    forall i, x | 0 <= i < |n.log| && Waits(n.rows, x, n.rows[n.log[i]].market)
      ensures n.rows[n.log[i]].created < n.rows[x].created
    {
      MovesOnWaits(s, n, id, x, s.rows[s.log[i]].market);
    }
    forall x, y | x in n.flying && CanSubmit(n.rows, x) && Waits(n.rows, y, n.rows[x].market) && x != y
      ensures n.rows[x].created < n.rows[y].created
    {
      MovesOnWaits(s, n, id, x, 0);
      MovesOnWaits(s, n, id, y, s.rows[x].market);
    }
  }

  lemma MovesOnPause(s: State, n: State, id: string)
    requires MovesOn(s, n, id) && PauseOk(s)
    requires forall m :: LaneOf(n, m).paused == LaneOf(s, m).paused
    ensures PauseOk(n)
  {
    forall m
      ensures LaneOf(n, m).paused <==> HasPaused(n.rows, m)
    {
      OneRowPauses(s, n, id, m);
    }
    forall x, m | Waits(n.rows, x, m)
      ensures !LaneOf(n, m).paused
    {
      MovesOnWaits(s, n, id, x, m);
    }
  }

  /** Lanes stay as they are, unless the row leaves the submitted state and its lane lets go of it. */
  lemma MovesOnBusy(s: State, n: State, id: string)
    requires MovesOn(s, n, id) && BusyOk(s)
    requires forall m :: m != s.rows[id].market ==> LaneOf(n, m) == LaneOf(s, m)
    requires var (a, b) := (LaneOf(s, s.rows[id].market), LaneOf(n, s.rows[id].market));
      b == a || (b == a.(current := "") && s.rows[id].status == Submitted && n.rows[id].status != Submitted)
    ensures BusyOk(n)
  {
    var market := s.rows[id].market;
    forall x, m | IsSubmitted(n.rows, m, x)
      ensures LaneOf(n, m).paused || LaneOf(n, m).current == x
    {
      MovesOnWaits(s, n, id, x, m);
      if m == market && LaneOf(n, market) != LaneOf(s, market) {
        assert IsSubmitted(s.rows, market, id) && IsSubmitted(s.rows, market, x);
      }
    }
    forall x, y, m | IsSubmitted(n.rows, m, x) && IsSubmitted(n.rows, m, y)
      ensures x == y
    {
      MovesOnWaits(s, n, id, x, m);
      MovesOnWaits(s, n, id, y, m);
    }
    forall x | x in n.flying
      ensures x in n.rows && (n.rows[x].status == Prepared || n.rows[x].status == Failed)
        && (LaneOf(n, n.rows[x].market).paused || LaneOf(n, n.rows[x].market).current == x)
    {
      if s.rows[x].market == market && LaneOf(n, market) != LaneOf(s, market) {
        assert IsSubmitted(s.rows, market, id);
      }
    }
  }

  lemma ProcessKeeps(s: State, id: string, signature: string)
    requires Inv(s)
    ensures Inv(Next(s, Process(id, signature)))
  {
    if CanProcess(s.rows, id, signature) {
      var n := Next(s, Process(id, signature));
      MovesOnRows(s, n, id);
      MovesOnPause(s, n, id);
      MovesOnBusy(s, n, id);
      MovesOnOrder(s, n, id);
    }
  }

  lemma ConfirmKeeps(s: State, id: string, signature: string)
    requires Inv(s)
    ensures Inv(Next(s, Confirm(id, signature)))
  {
    if CanConfirm(s.rows, id, signature) {
      var n := Next(s, Confirm(id, signature));
      MovesOnRows(s, n, id);
      MovesOnPause(s, n, id);
      MovesOnBusy(s, n, id);
      MovesOnOrder(s, n, id);
    }
  }

  lemma ResignKeeps(s: State, id: string, was: string, signature: string)
    requires Inv(s)
    ensures Inv(Next(s, Resign(id, was, signature)))
  {
    if CanProcess(s.rows, id, was) {
      var n := Next(s, Resign(id, was, signature));
      MovesOnRows(s, n, id);
      MovesOnPause(s, n, id);
      MovesOnBusy(s, n, id);
      MovesOnOrder(s, n, id);
    }
  }

  // ----- Preparing and submitting -----

  lemma PrepareKeeps(s: State, id: string)
    requires Inv(s) && CanStep(s, Prepare(id))
    ensures Inv(Next(s, Prepare(id)))
  {
    var n := Next(s, Prepare(id));
    forall x, m
      ensures Waits(n.rows, x, m) <==> Waits(s.rows, x, m)
      ensures IsSubmitted(n.rows, m, x) <==> IsSubmitted(s.rows, m, x)
      ensures Candidate(n.rows, x, m, Queued) <==> Candidate(s.rows, x, m, Queued) && x != id
      ensures Candidate(n.rows, x, m, Prepared) <==> Candidate(s.rows, x, m, Prepared) || (x == id && m == s.rows[id].market)
    {
    }
    PrepareRows(s, n, id);
    PreparePause(s, n, id);
    PrepareOrder(s, n, id);
    assert BusyOk(n) by {
      assert forall m :: LaneOf(n, m) == LaneOf(s, m);
    }
  }

  lemma PrepareRows(s: State, n: State, id: string)
    requires RowsOk(s) && CanStep(s, Prepare(id)) && n == Next(s, Prepare(id))
    ensures RowsOk(n)
  {
    forall x, y, m | Candidate(n.rows, x, m, Prepared) && Candidate(n.rows, y, m, Queued)
      ensures n.rows[x].created < n.rows[y].created
    {
      assert Candidate(s.rows, y, m, Queued);
      if x != id { assert Candidate(s.rows, x, m, Prepared); }
    }
  }

  lemma PreparePause(s: State, n: State, id: string)
    requires PauseOk(s) && CanStep(s, Prepare(id)) && n == Next(s, Prepare(id))
    ensures PauseOk(n)
  {
    forall m
      ensures LaneOf(n, m).paused <==> HasPaused(n.rows, m)
    {
      OneRowPauses(s, n, id, m);
    }
    forall x, m | Waits(n.rows, x, m)
      ensures !LaneOf(n, m).paused
    {
      assert Waits(s.rows, x, m);
    }
  }

  lemma PrepareOrder(s: State, n: State, id: string)
    requires Inv(s) && CanStep(s, Prepare(id)) && n == Next(s, Prepare(id))
    ensures OrderOk(n)
  {
    forall i, x | 0 <= i < |n.log| && Waits(n.rows, x, n.rows[n.log[i]].market)
      ensures n.rows[n.log[i]].created < n.rows[x].created
    {
      assert Waits(s.rows, x, s.rows[s.log[i]].market);
    }
    forall x, y | x in n.flying && CanSubmit(n.rows, x) && Waits(n.rows, y, n.rows[x].market) && x != y
      ensures n.rows[x].created < n.rows[y].created
    {
      assert x != id && CanSubmit(s.rows, x) && Waits(s.rows, y, s.rows[x].market);
    }
  }

  /** The row a submitter advances is active, so its lane is open and busy with just this row. */
  lemma SubmitterHasLane(s: State, id: string)
    requires Inv(s) && id in s.flying && CanSubmit(s.rows, id)
    ensures LaneOf(s, s.rows[id].market) == Lane(false, id)
    ensures forall x :: !IsSubmitted(s.rows, s.rows[id].market, x)
  {
    assert Waits(s.rows, id, s.rows[id].market);
  }

  lemma SubmitKeeps(s: State, id: string, signature: string)
    requires Inv(s) && CanStep(s, Submit(id, signature)) && CanSubmit(s.rows, id)
    ensures Inv(Next(s, Submit(id, signature)))
  {
    var n := Next(s, Submit(id, signature));
    SubmitterHasLane(s, id);
    SubmitRows(s, n, id, signature);
    SubmitPause(s, n, id, signature);
    SubmitBusy(s, n, id, signature);
    SubmitOrder(s, n, id, signature);
  }

  lemma SubmitRows(s: State, n: State, id: string, signature: string)
    requires RowsOk(s) && CanStep(s, Submit(id, signature)) && CanSubmit(s.rows, id) && n == Next(s, Submit(id, signature))
    ensures RowsOk(n)
  {
    forall x, y, m | Candidate(n.rows, x, m, Prepared) && Candidate(n.rows, y, m, Queued)
      ensures n.rows[x].created < n.rows[y].created
    {
      assert x != id && y != id && Candidate(s.rows, x, m, Prepared) && Candidate(s.rows, y, m, Queued);
    }
  }

  lemma SubmitPause(s: State, n: State, id: string, signature: string)
    requires PauseOk(s) && CanStep(s, Submit(id, signature)) && CanSubmit(s.rows, id) && n == Next(s, Submit(id, signature))
    ensures PauseOk(n)
  {
    forall m
      ensures LaneOf(n, m).paused <==> HasPaused(n.rows, m)
    {
      OneRowPauses(s, n, id, m);
    }
    forall x, m | Waits(n.rows, x, m)
      ensures !LaneOf(n, m).paused
    {
      assert Waits(s.rows, x, m);
    }
  }

  lemma SubmitBusy(s: State, n: State, id: string, signature: string)
    requires BusyOk(s) && CanStep(s, Submit(id, signature)) && CanSubmit(s.rows, id) && n == Next(s, Submit(id, signature))
    requires LaneOf(s, s.rows[id].market) == Lane(false, id) && forall x :: !IsSubmitted(s.rows, s.rows[id].market, x)
    ensures BusyOk(n)
  {
    assert forall m :: LaneOf(n, m) == LaneOf(s, m);
    forall x, m | IsSubmitted(n.rows, m, x)
      ensures (x == id && m == s.rows[id].market) || (IsSubmitted(s.rows, m, x) && m != s.rows[id].market)
    {
      if x != id { assert IsSubmitted(s.rows, m, x); }
    }
  }

  lemma SubmitOrder(s: State, n: State, id: string, signature: string)
    requires Inv(s) && CanStep(s, Submit(id, signature)) && CanSubmit(s.rows, id) && n == Next(s, Submit(id, signature))
    ensures OrderOk(n)
  {
    assert Waits(s.rows, id, s.rows[id].market);
    forall i | 0 <= i < |n.log|
      ensures n.log[i] in n.rows && !IsWaiting(n.rows[n.log[i]])
      ensures i < |s.log| ==> n.log[i] == s.log[i] && n.log[i] in s.rows
      ensures i < |s.log| ==> n.rows[n.log[i]].market == s.rows[s.log[i]].market
      ensures i < |s.log| ==> n.rows[n.log[i]].created == s.rows[s.log[i]].created
    {
    }
    forall i, x | 0 <= i < |n.log| && Waits(n.rows, x, n.rows[n.log[i]].market)
      ensures n.rows[n.log[i]].created < n.rows[x].created
    {
      assert x != id && Waits(s.rows, x, n.rows[n.log[i]].market);
    }
    forall x, y | x in n.flying && CanSubmit(n.rows, x) && Waits(n.rows, y, n.rows[x].market) && x != y
      ensures n.rows[x].created < n.rows[y].created
    {
      assert x != id && y != id && CanSubmit(s.rows, x) && Waits(s.rows, y, s.rows[x].market);
    }
  }

  // ----- Lanes alone -----

  /** Rows and history are as they were. */
  ghost predicate OnlyLanes(s: State, n: State) {
    n.rows == s.rows && n.log == s.log && n.clock == s.clock
  }

  lemma OnlyLanesKeeps(s: State, n: State)
    requires Inv(s) && OnlyLanes(s, n)
    requires forall m :: LaneOf(n, m).paused == LaneOf(s, m).paused
    requires n.flying <= s.flying
    ensures RowsOk(n) && PauseOk(n) && OrderOk(n)
  {
  }

  /** A submitter that gives up lets go of the lane; its row has not been submitted. */
  lemma LetGoKeeps(s: State, id: string)
    requires Inv(s) && id in s.flying
    ensures Inv(Released(s, id, false).(flying := s.flying - {id}))
  {
    var n := Released(s, id, false).(flying := s.flying - {id});
    OnlyLanesKeeps(s, n);
    forall x, m | IsSubmitted(n.rows, m, x)
      ensures LaneOf(n, m).paused || LaneOf(n, m).current == x
    {
      assert IsSubmitted(s.rows, m, x) && x != id;
    }
    assert BusyOk(n);
  }

  lemma ScheduleKeeps(s: State, id: string)
    requires Inv(s) && CanStep(s, Schedule(id))
    ensures Inv(Next(s, Schedule(id)))
  {
    var n := Next(s, Schedule(id));
    assert Waits(s.rows, id, s.rows[id].market);
    ScheduleBusy(s, n, id);
    ScheduleOrder(s, n, id);
    assert RowsOk(n) && PauseOk(n);
  }

  lemma ScheduleBusy(s: State, n: State, id: string)
    requires Inv(s) && CanStep(s, Schedule(id)) && n == Next(s, Schedule(id))
    ensures BusyOk(n)
  {
    var market := s.rows[id].market;
    assert Waits(s.rows, id, market);
    forall x | x in s.flying
      ensures s.rows[x].market != market
    {
    }
    forall x | IsSubmitted(s.rows, market, x)
      ensures false
    {
    }
    forall m
      ensures LaneOf(n, m) == if m == market then Lane(false, id) else LaneOf(s, m)
    {
    }
    hide RowsOk, PauseOk, OrderOk, LaneOf;
  }

  lemma ScheduleOrder(s: State, n: State, id: string)
    requires RowsOk(s) && OrderOk(s) && CanStep(s, Schedule(id)) && n == Next(s, Schedule(id))
    ensures OrderOk(n)
  {
    var market := s.rows[id].market;
    forall x, y | x in n.flying && CanSubmit(n.rows, x) && Waits(n.rows, y, n.rows[x].market) && x != y
      ensures n.rows[x].created < n.rows[y].created
    {
      if x == id {
        if s.rows[y].status == Prepared { assert Candidate(s.rows, y, market, Prepared); }
        else { assert Candidate(s.rows, y, market, Queued) && Candidate(s.rows, id, market, Prepared); }
      } else {
        assert x in s.flying;
      }
    }
  }

  lemma AdoptKeeps(s: State, id: string)
    requires Inv(s) && CanStep(s, Adopt(id))
    ensures Inv(Next(s, Adopt(id)))
  {
    var n := Next(s, Adopt(id));
    OnlyLanesKeeps(s, n);
    assert BusyOk(n);
  }

  // ----- Failing -----

  /** One row has failed, its market is paused in rows and lane, and its lane may have let go. */
  ghost predicate Fails(s: State, n: State, id: string) {
    && id in s.rows && n.rows == FailedAndPaused(s.rows, id) && n.log == s.log && n.clock == s.clock && n.flying <= s.flying
    && LaneOf(n, s.rows[id].market).paused
    && (LaneOf(n, s.rows[id].market).current == LaneOf(s, s.rows[id].market).current || LaneOf(n, s.rows[id].market).current == "")
    && forall m :: m != s.rows[id].market ==> LaneOf(n, m) == LaneOf(s, m)
  }

  lemma FailsRow(s: State, n: State, id: string, x: string, m: nat)
    requires Fails(s, n, id)
    ensures x in n.rows <==> x in s.rows
    ensures x in n.rows ==> n.rows[x].market == s.rows[x].market && n.rows[x].created == s.rows[x].created
    ensures x in n.rows && IsWaiting(n.rows[x]) ==> IsWaiting(s.rows[x])
    ensures Waits(n.rows, x, m) <==> Waits(s.rows, x, m) && m != s.rows[id].market
    ensures IsSubmitted(n.rows, m, x) ==> IsSubmitted(s.rows, m, x)
    ensures Candidate(n.rows, x, m, Prepared) ==> Candidate(s.rows, x, m, Prepared)
    ensures Candidate(n.rows, x, m, Queued) ==> Candidate(s.rows, x, m, Queued)
    ensures CanSubmit(n.rows, x) ==> CanSubmit(s.rows, x)
    ensures x in s.rows && s.rows[x].status == Prepared ==> n.rows[x].status == Prepared || n.rows[x].status == Failed
    ensures x in s.rows && s.rows[x].status == Failed ==> n.rows[x].status == Failed
    ensures x in s.rows && s.rows[x].lane == Paused ==> n.rows[x].lane == Paused
    ensures x in s.rows && m != s.rows[id].market && s.rows[x].market == m ==> n.rows[x] == s.rows[x]
    ensures id in n.rows && n.rows[id].lane == Paused
  {
    FailedAt(s.rows, id, x);
  }

  lemma FailsRows(s: State, n: State, id: string)
    requires Fails(s, n, id) && RowsOk(s)
    ensures RowsOk(n)
  {
    forall x | x in n.rows
      ensures x != "" && n.rows[x].created < n.clock && x in s.rows && n.rows[x].created == s.rows[x].created
    {
      FailsRow(s, n, id, x, 0);
    }
    hide FailedAndPaused;
    forall x, y, m | Candidate(n.rows, x, m, Prepared) && Candidate(n.rows, y, m, Queued)
      ensures n.rows[x].created < n.rows[y].created
    {
      FailsRow(s, n, id, x, m);
      FailsRow(s, n, id, y, m);
    }
  }

  lemma FailsPause(s: State, n: State, id: string)
    requires Fails(s, n, id) && PauseOk(s)
    ensures PauseOk(n)
  {
    hide FailedAndPaused;
    var market := s.rows[id].market;
    FailsRow(s, n, id, id, market);
    assert HasPaused(n.rows, market);
    forall m | m != market
      ensures HasPaused(n.rows, m) <==> HasPaused(s.rows, m)
    {
      if HasPaused(s.rows, m) {
        var x :| x in s.rows && s.rows[x].market == m && s.rows[x].lane == Paused;
        FailsRow(s, n, id, x, m);
      }
      if HasPaused(n.rows, m) {
        var x :| x in n.rows && n.rows[x].market == m && n.rows[x].lane == Paused;
        FailsRow(s, n, id, x, m);
      }
    }
    forall x, m | Waits(n.rows, x, m)
      ensures !LaneOf(n, m).paused
    {
      FailsRow(s, n, id, x, m);
    }
  }

  lemma FailsBusy(s: State, n: State, id: string)
    requires Fails(s, n, id) && BusyOk(s)
    ensures BusyOk(n)
  {
    hide FailedAndPaused;
    forall m
      ensures LaneOf(n, m).current == "" || (LaneOf(n, m).current in n.rows && n.rows[LaneOf(n, m).current].market == m)
    {
      FailsRow(s, n, id, LaneOf(n, m).current, m);
    }
    forall x, m | IsSubmitted(n.rows, m, x)
      ensures IsSubmitted(s.rows, m, x)
    {
      FailsRow(s, n, id, x, m);
    }
    forall x | x in n.flying
      ensures x in n.rows && (n.rows[x].status == Prepared || n.rows[x].status == Failed)
        && (LaneOf(n, n.rows[x].market).paused || LaneOf(n, n.rows[x].market).current == x)
    {
      FailsRow(s, n, id, x, s.rows[x].market);
    }
  }

  lemma FailsOrder(s: State, n: State, id: string)
    requires Fails(s, n, id) && OrderOk(s)
    ensures OrderOk(n)
  {
    hide FailedAndPaused;
    forall i | 0 <= i < |n.log|
      ensures n.log[i] in n.rows && !IsWaiting(n.rows[n.log[i]])
      ensures n.rows[n.log[i]].market == s.rows[n.log[i]].market && n.rows[n.log[i]].created == s.rows[n.log[i]].created
    {
      FailsRow(s, n, id, n.log[i], 0);
    }
    forall i, x | 0 <= i < |n.log| && Waits(n.rows, x, n.rows[n.log[i]].market)
      ensures n.rows[n.log[i]].created < n.rows[x].created
    {
      FailsRow(s, n, id, x, n.rows[n.log[i]].market);
    }
    forall x, y | x in n.flying && CanSubmit(n.rows, x) && Waits(n.rows, y, n.rows[x].market) && x != y
      ensures n.rows[x].created < n.rows[y].created
    {
      FailsRow(s, n, id, x, n.rows[x].market);
      FailsRow(s, n, id, y, n.rows[x].market);
    }
  }

  lemma FailsKeeps(s: State, n: State, id: string)
    requires Inv(s) && Fails(s, n, id)
    ensures Inv(n)
  {
    FailsRows(s, n, id);
    FailsPause(s, n, id);
    FailsBusy(s, n, id);
    FailsOrder(s, n, id);
  }

  lemma FailingFails(s: State, id: string, flying: set<string>)
    requires id in s.rows && flying <= s.flying
    ensures Fails(s, Released(Failing(s, id), id, true).(flying := flying), id)
    ensures Fails(s, Failing(s, id), id)
    ensures Fails(s, WithLane(Failing(s, id), s.rows[id].market, Lane(true, "")), id)
  {
    FailedAt(s.rows, id, id);
    hide FailedAndPaused;
  }

  // ----- Restart -----

  lemma RecoveredLane(s: State, m: nat)
    ensures LaneOf(s.(lanes := Recovered(s.rows), flying := {}), m)
         == Lane(HasPaused(s.rows, m), SubmittedIn(s.rows, m))
  {
    if m !in Recovered(s.rows) {
      assert !HasPaused(s.rows, m);
      forall id
        ensures !IsSubmitted(s.rows, m, id)
      {
      }
    }
  }

  lemma RestartKeeps(s: State)
    requires Inv(s)
    ensures Inv(Next(s, Restart))
  {
    var n := Next(s, Restart);
    forall m
      ensures LaneOf(n, m) == Lane(HasPaused(s.rows, m), SubmittedIn(s.rows, m))
    {
      RecoveredLane(s, m);
    }
    hide Recovered, LaneOf;
    assert RowsOk(n) && OrderOk(n);
    RestartPause(s, n);
    hide HasPaused;
    RestartBusy(s, n);
  }

  lemma RestartPause(s: State, n: State)
    requires PauseOk(s) && n.rows == s.rows && forall m :: LaneOf(n, m) == Lane(HasPaused(s.rows, m), SubmittedIn(s.rows, m))
    ensures PauseOk(n)
  {
    hide SubmittedIn, HasPaused, LaneOf;
    forall x, m | Waits(n.rows, x, m)
      ensures !LaneOf(n, m).paused
    {
      assert !LaneOf(s, m).paused;
    }
  }

  lemma RestartBusy(s: State, n: State)
    requires BusyOk(s) && n.rows == s.rows && n.flying == {}
    requires forall m :: LaneOf(n, m) == Lane(HasPaused(s.rows, m), SubmittedIn(s.rows, m))
    ensures BusyOk(n)
  {
    hide HasPaused, LaneOf;
    forall x, m | IsSubmitted(n.rows, m, x)
      ensures LaneOf(n, m).current == x
    {
    }
  }

  lemma StepKeeps(s: State, t: Step)
    requires Inv(s) && CanStep(s, t)
    ensures Inv(Next(s, t))
  {
    match t
    case Ingest(id, market) => IngestKeeps(s, id, market);
    case Prepare(id) => PrepareKeeps(s, id);
    case RefuseToPrepare(id) =>
      FailingFails(s, id, s.flying);
      FailsKeeps(s, Next(s, t), id);
    case Schedule(id) => ScheduleKeeps(s, id);
    case Abort(id) => LetGoKeeps(s, id);
    case TooLarge(id) =>
      if CanFailEarly(s.rows, id) {
        FailingFails(s, id, s.flying - {id});
        FailsKeeps(s, Next(s, t), id);
      } else {
        GoneKeeps(s, id);
      }
    case Submit(id, signature) => if CanSubmit(s.rows, id) { SubmitKeeps(s, id, signature); } else { LetGoKeeps(s, id); }
    case Resign(id, was, signature) => ResignKeeps(s, id, was, signature);
    case Process(id, signature) => ProcessKeeps(s, id, signature);
    case Confirm(id, signature) => ConfirmKeeps(s, id, signature);
    case Fail(id, signature, release) =>
      if CanFail(s.rows, id, signature) {
        FailingFails(s, id, s.flying);
        FailsKeeps(s, Next(s, t), id);
      }
    case Adopt(id) => AdoptKeeps(s, id);
    case Restart => RestartKeeps(s);
  }

  lemma GoneKeeps(s: State, id: string)
    requires Inv(s)
    ensures Inv(s.(flying := s.flying - {id}))
  {
    var n := s.(flying := s.flying - {id});
    assert forall m :: LaneOf(n, m) == LaneOf(s, m);
    OnlyLanesKeeps(s, n);
  }
}
