/** The settlement service: lanes in memory over guarded rows. Each method is a step of the lane protocol. */
module LaneService {
  import opened Types
  import opened Submissions
  import opened Lanes

  /** The same rows, submitters and history; a lane that is not there is an idle lane. */
  ghost predicate Alike(a: State, b: State) {
    a.rows == b.rows && a.flying == b.flying && a.log == b.log && a.clock == b.clock && forall m :: LaneOf(a, m) == LaneOf(b, m)
  }

  lemma AlikeKeepsInv(a: State, b: State)
    requires Alike(a, b) && Inv(a)
    ensures Inv(b)
  {
    assert RowsOk(b) && PauseOk(b) && OrderOk(b);
    assert BusyOk(b);
  }

  /** So whatever a method does as a step of the protocol keeps the invariant. */
  lemma StepLeavesInv(s: State, t: Step, n: State)
    requires Inv(s) && CanStep(s, t) && Alike(n, Next(s, t))
    ensures Inv(n)
  {
    StepKeeps(s, t);
    AlikeKeepsInv(Next(s, t), n);
  }

  /** A lane names a row of its own market, or none. */
  ghost predicate LanesNamed(s: State) {
    forall m :: LaneOf(s, m).current == "" || (LaneOf(s, m).current in s.rows && s.rows[LaneOf(s, m).current].market == m)
  }

  lemma InvNames(s: State, flying: set<string>)
    requires Inv(s)
    ensures LanesNamed(s.(flying := flying))
  {
    assert forall m :: LaneOf(s.(flying := flying), m) == LaneOf(s, m);
  }

  lemma FailingNames(s: State, id: string)
    requires id in s.rows && LanesNamed(s)
    ensures id in Failing(s, id).rows && Failing(s, id).rows[id].market == s.rows[id].market
    ensures LanesNamed(Failing(s, id))
  {
    forall x | x in s.rows
      ensures x in Failing(s, id).rows && Failing(s, id).rows[x].market == s.rows[x].market
    {
      FailedAt(s.rows, id, x);
    }
    hide FailedAndPaused;
    forall m
      ensures LaneOf(Failing(s, id), m).current == LaneOf(s, m).current
    {
    }
  }

  ghost predicate AtMostOne(rows: Rows) {
    forall m, x, y :: IsSubmitted(rows, m, x) && IsSubmitted(rows, m, y) ==> x == y
  }

  function Took(s: State, id: string): State
    requires id in s.rows
  {
    var m := s.rows[id].market;
    WithLane(s, m, LaneOf(s, m).(current := id))
  }

  /** The submitted rows seen so far have their lanes, no other lane is busy, and pauses are as they were. */
  ghost predicate Taken(was: State, s: State, seen: set<string>) {
    && s.rows == was.rows && (forall m :: LaneOf(s, m).paused == LaneOf(was, m).paused)
    && (forall x :: x in seen ==> x in s.rows && IsSubmitted(s.rows, s.rows[x].market, x) && LaneOf(s, s.rows[x].market).current == x)
    && (forall m :: LaneOf(s, m).current == "" || IsSubmitted(s.rows, m, LaneOf(s, m).current))
  }

  lemma TakesLane(was: State, s: State, seen: set<string>, id: string)
    requires Taken(was, s, seen) && AtMostOne(s.rows) && Has(s.rows, id, Submitted)
    ensures Taken(was, Took(s, id), seen + {id})
  {
    var m := s.rows[id].market;
    assert IsSubmitted(s.rows, m, id);
    forall x | x in seen && s.rows[x].market == m
      ensures x == id
    {
      assert IsSubmitted(s.rows, m, x);
    }
    var n := Took(s, id);
    forall k
      ensures LaneOf(n, k).current == "" || IsSubmitted(n.rows, k, LaneOf(n, k).current)
    {
      assert k != m ==> LaneOf(n, k) == LaneOf(s, k);
    }
  }

  lemma AllTaken(was: State, s: State, seen: set<string>)
    requires Taken(was, s, seen) && AtMostOne(s.rows) && forall x :: Has(s.rows, x, Submitted) ==> x in seen
    ensures forall m :: LaneOf(s, m) == Lane(LaneOf(was, m).paused, SubmittedIn(s.rows, m))
  {
    forall m
      ensures LaneOf(s, m).current == SubmittedIn(s.rows, m)
    {
      if x :| IsSubmitted(s.rows, m, x) { assert x in seen; }
    }
  }

  lemma Rebuilt(s: State, n: State)
    requires n.rows == s.rows && n.log == s.log && n.clock == s.clock && n.flying == {}
    requires forall m :: LaneOf(n, m) == Lane(HasPaused(s.rows, m), SubmittedIn(s.rows, m))
    ensures Alike(n, Next(s, Restart))
  {
    forall m
      ensures LaneOf(n, m) == LaneOf(Next(s, Restart), m)
    {
      RecoveredLane(s, m);
    }
  }

  /** What came of building and signing the transaction of a row. */
  datatype Built = NotBuilt | Oversized | Signed(signature: string)

  /** What a submitter does about its row. */
  function SubmitStep(rows: Rows, id: string, built: Built): (t: Step)
    ensures (t.Abort? || t.TooLarge? || t.Submit?) && t.id == id
  {
    if !Has(rows, id, Prepared) || built.NotBuilt? then Abort(id)
    else if built.Oversized? then TooLarge(id)
    else Submit(id, built.signature)
  }

  class Service {
    const repo: SubmissionRepo
    var lanes: map<nat, Lane>
    var dirty: set<nat>
    var prepareDirty: set<nat>
    var clock: nat
    ghost var flying: set<string>
    ghost var log: seq<string>

    constructor (repo: SubmissionRepo)
      requires repo.rows == map[]
      ensures this.repo == repo && Inv(View()) && View() == START
      ensures dirty == {} && prepareDirty == {}
    {
      this.repo := repo;
      lanes := map[];
      dirty := {};
      prepareDirty := {};
      clock := 0;
      flying := {};
      log := [];
    }

    ghost function View(): State
      reads this, repo
    {
      State(repo.rows, lanes, flying, log, clock)
    }

    method EnsureLane(market: nat) returns (lane: Lane)
      modifies this`lanes
      ensures lane == LaneOf(old(View()), market)
      ensures market in lanes && lanes == old(lanes)[market := lane]
    {
      if market !in lanes {
        lanes := lanes[market := Lane(false, "")];
      }
      lane := lanes[market];
    }

    method PauseLane(market: nat)
      modifies this`lanes
      ensures View() == PausedLane(old(View()), market)
    {
      var lane := EnsureLane(market);
      lanes := lanes[market := lane.(paused := true)];
    }

    method ReleaseLane(market: nat, paused: bool)
      modifies this`lanes
      ensures View() == WithLane(old(View()), market, Lane(paused, ""))
    {
      var lane := EnsureLane(market);
      lanes := lanes[market := Lane(paused, "")];
    }

    /** Finds the lane that is busy with the row, wherever it is, and lets it go. */
    method ReleaseLaneByMatchEvent(id: string, paused: bool)
      requires id in repo.rows && id != "" && LanesNamed(View())
      modifies this`lanes
      ensures Alike(View(), Released(old(View()), id, paused))
    {
      var left := lanes.Keys;
      while left != {}
        invariant left <= lanes.Keys && lanes == old(lanes)
        invariant forall m :: m in lanes && m !in left ==> lanes[m].current != id
        decreases |left|
      {
        var m :| m in left;
        if lanes[m].current == id {
          assert LaneOf(View(), m).current == id;
          lanes := lanes[m := Lane(lanes[m].paused || paused, "")];
          return;
        }
        left := left - {m};
      }
    }

    /** A fetched match batch is queued, paused if its lane is. */
    method HandleFetched(id: string, market: nat)
      requires id != ""
      modifies this`clock, this`prepareDirty, repo
      ensures View() == Next(old(View()), Ingest(id, market)) && (Inv(old(View())) ==> Inv(View()))
      ensures prepareDirty == old(prepareDirty) + (if id !in old(repo.rows) && repo.rows[id].lane == Active then {market} else {})
    {
      ghost var s := View();
      var status := if market in lanes && lanes[market].paused then Paused else Active;
      var inserted := repo.UpsertQueued(id, market, clock, status);
      clock := clock + 1;
      if inserted && status == Active {
        prepareDirty := prepareDirty + {market};
      }
      assert View() == Next(s, Ingest(id, market));
      hide Inv, Next;
      if Inv(s) { StepLeavesInv(s, Ingest(id, market), View()); }
    }

    /** The oldest queued row of a market is prepared, refused because its transaction is too large, or tried again later. */
    method PrepareMarket(market: nat, built: Built) returns (id: Option<string>)
      requires Inv(View())
      modifies this`lanes, this`dirty, this`prepareDirty, repo
      ensures id.None? ==> View() == old(View()) && forall x :: !Candidate(repo.rows, x, market, Queued)
      ensures Inv(View()) && (id.Some? ==> IsOldest(old(repo.rows), id.value, market, Queued))
      ensures id.Some? && built.NotBuilt? ==> View() == old(View())
      ensures id.Some? && built.Oversized? ==> Alike(View(), Next(old(View()), RefuseToPrepare(id.value)))
      ensures id.Some? && built.Signed? ==> View() == Next(old(View()), Prepare(id.value)) && market in dirty && market in prepareDirty
    {
      id := repo.LoadNextByMarket(market, Queued);
      if id.None? {
        return;
      }
      match built
      case NotBuilt =>
        prepareDirty := prepareDirty + {market};
      case Oversized =>
        InvNames(View(), flying);
        FailBeforeSubmit(id.value);
        var again := repo.MarkPreparedCAS(id.value);
        assert !again by { FailedAt(old(repo.rows), id.value, id.value); }
        hide Inv;
        StepLeavesInv(old(View()), RefuseToPrepare(id.value), View());
      case Signed(_) =>
        var applied := repo.MarkPreparedCAS(id.value);
        if applied {
          dirty := dirty + {market};
          prepareDirty := prepareDirty + {market};
        }
        hide Inv;
        StepLeavesInv(old(View()), Prepare(id.value), View());
    }

    /** An idle lane takes up the oldest prepared row of its market. */
    method TryScheduleMarket(market: nat) returns (id: Option<string>)
      modifies this`lanes, this`flying
      ensures id.Some? ==> CanStep(old(View()), Schedule(id.value)) && View() == Next(old(View()), Schedule(id.value))
      ensures id.Some? ==> repo.rows[id.value].market == market
      ensures id.None? ==> Alike(View(), old(View()))
      ensures Inv(old(View())) ==> Inv(View())
      ensures id.None? ==> LaneOf(View(), market) != IDLE || forall x :: !Candidate(repo.rows, x, market, Prepared)
    {
      hide Inv;
      ghost var s := View();
      var lane := EnsureLane(market);
      if Inv(s) { AlikeKeepsInv(s, View()); }
      if lane.paused || lane.current != "" {
        return None;
      }
      id := repo.LoadNextByMarket(market, Prepared);
      if id.None? {
        return;
      }
      lanes := lanes[market := lane.(current := id.value)];
      flying := flying + {id.value};
      if Inv(s) { StepLeavesInv(s, Schedule(id.value), View()); }
    }

    /** A submitter takes its row to the chain, or gives the lane back. */
    method SubmitMatch(id: string, built: Built) returns (submitted: bool)
      requires Inv(View()) && id in flying
      modifies this`lanes, this`dirty, this`flying, this`log, repo
      ensures Inv(View()) && Alike(View(), Next(old(View()), SubmitStep(old(repo.rows), id, built)))
      ensures submitted <==> built.Signed? && CanSubmit(old(repo.rows), id)
    {
      submitted := false;
      InvNames(View(), flying - {id});
      ghost var s, t := View(), SubmitStep(repo.rows, id, built);
      flying := flying - {id};
      hide Inv, LanesNamed, FailedAndPaused;
      if repo.rows[id].status != Prepared || built.NotBuilt? {
        ReleaseLaneByMatchEvent(id, false);
        dirty := dirty + {repo.rows[id].market};
      } else if built.Oversized? {
        FailBeforeSubmit(id);
      } else {
        submitted := repo.MarkSubmittedCAS(id, built.signature);
        if submitted {
          log := log + [id];
        } else {
          ReleaseLaneByMatchEvent(id, false);
          dirty := dirty + {repo.rows[id].market};
        }
      }
      assert Alike(View(), Next(s, t));
      hide Next, Alike;
      StepLeavesInv(s, t, View());
    }

    /** A waiting row fails, its market is paused, and its lane, if busy with it, is let go. */
    method FailBeforeSubmit(id: string)
      requires id in repo.rows && id != "" && LanesNamed(View()) && CanFailEarly(repo.rows, id)
      modifies this`lanes, repo
      ensures Alike(View(), Released(Failing(old(View()), id), id, true))
    {
      var market := repo.MarkFailedBeforeSubmitAndPauseQueued(id);
      FailingNames(old(View()), id);
      PauseLane(market.value);
      ReleaseLaneByMatchEvent(id, true);
    }

    method ProcessSubmission(id: string, signature: string)
      modifies this`lanes, this`dirty, repo
      ensures View() == Next(old(View()), Process(id, signature)) && (Inv(old(View())) ==> Inv(View()))
      ensures dirty == old(dirty) + (if CanProcess(old(repo.rows), id, signature) && !LaneOf(old(View()), repo.rows[id].market).paused
                                     then {repo.rows[id].market} else {})
    {
      var applied := repo.MarkProcessedCAS(id, signature);
      if applied {
        var market := repo.rows[id].market;
        var lane := EnsureLane(market);
        lanes := lanes[market := lane.(current := "")];
        if !lane.paused {
          dirty := dirty + {market};
        }
      }
      assert View() == Next(old(View()), Process(id, signature));
      hide Inv, Next;
      if Inv(old(View())) { StepLeavesInv(old(View()), Process(id, signature), View()); }
    }

    method ConfirmSubmission(id: string, signature: string)
      modifies repo
      ensures View() == Next(old(View()), Confirm(id, signature)) && (Inv(old(View())) ==> Inv(View()))
    {
      var applied := repo.MarkConfirmedCAS(id, signature);
      hide Inv;
      if Inv(old(View())) { StepLeavesInv(old(View()), Confirm(id, signature), View()); }
    }

    method FailSubmission(id: string, signature: string, release: bool)
      modifies this`lanes, repo
      ensures View() == Next(old(View()), Fail(id, signature, release)) && (Inv(old(View())) ==> Inv(View()))
    {
      var market := repo.MarkFailedAndPauseQueued(id, signature);
      if market.Some? {
        if release {
          ReleaseLane(market.value, true);
          assert lanes == Next(old(View()), Fail(id, signature, release)).lanes;
        } else {
          PauseLane(market.value);
        }
      }
      assert View() == Next(old(View()), Fail(id, signature, release));
      hide Inv, Next;
      if Inv(old(View())) { StepLeavesInv(old(View()), Fail(id, signature, release), View()); }
    }

    method ResignSubmission(id: string, was: string, signature: string) returns (replaced: bool)
      modifies repo
      ensures View() == Next(old(View()), Resign(id, was, signature)) && (Inv(old(View())) ==> Inv(View()))
      ensures replaced <==> CanProcess(old(repo.rows), id, was)
    {
      replaced := repo.ReplaceSignatureCAS(id, was, signature);
      hide Inv;
      if Inv(old(View())) { StepLeavesInv(old(View()), Resign(id, was, signature), View()); }
    }

    /** The reconciler gives an idle lane a row it has read as submitted. */
    method AdoptSubmitted(id: string)
      requires id in repo.rows
      modifies this`lanes
      ensures Alike(View(), Next(old(View()), Adopt(id))) && (Inv(old(View())) ==> Inv(View()))
    {
      var lane := EnsureLane(repo.rows[id].market);
      if lane.current == "" {
        TakeLane(id);
      }
      hide Inv;
      if Inv(old(View())) { StepLeavesInv(old(View()), Adopt(id), View()); }
    }

    /** A crash has lost the lanes; they are built again from the rows. */
    method RecoverState()
      requires Inv(View())
      modifies this`lanes, this`dirty, this`prepareDirty, this`flying
      ensures Alike(View(), Next(old(View()), Restart)) && Inv(View())
      ensures forall m :: m in dirty <==> exists x :: Candidate(repo.rows, x, m, Prepared)
      ensures forall m :: m in prepareDirty <==> exists x :: Candidate(repo.rows, x, m, Queued)
    {
      lanes, flying := map[], {};
      RecoverPaused();
      RecoverSubmitted();
      dirty := repo.ListMarketIDs(Prepared);
      prepareDirty := repo.ListMarketIDs(Queued);
      Rebuilt(old(View()), View());
      hide Inv;
      StepLeavesInv(old(View()), Restart, View());
    }

    method RecoverPaused()
      requires lanes == map[]
      modifies this`lanes
      ensures forall m :: LaneOf(View(), m) == Lane(HasPaused(repo.rows, m), "")
    {
      var paused := repo.ListPausedMarketIDs();
      var left := paused;
      while left != {}
        invariant left <= paused && forall m :: LaneOf(View(), m) == Lane(m in paused && m !in left, "")
        decreases |left|
      {
        var m :| m in left;
        PauseLane(m);
        left := left - {m};
      }
    }

    /** Each submitted row takes its lane. */
    method RecoverSubmitted()
      requires AtMostOne(repo.rows)
      requires forall m :: LaneOf(View(), m).current == ""
      modifies this`lanes
      ensures forall m :: LaneOf(View(), m) == Lane(LaneOf(old(View()), m).paused, SubmittedIn(repo.rows, m))
    {
      var submitted := repo.ListSubmitted();
      var left := submitted;
      ghost var seen: set<string> := {};
      assert Taken(View(), View(), seen);
      hide Taken, AtMostOne, LaneOf;
      while left != {}
        invariant left <= submitted && submitted <= left + seen && Taken(old(View()), View(), seen)
        decreases |left|
      {
        var id :| id in left;
        TakesLane(old(View()), View(), seen, id);
        TakeLane(id);
        left, seen := left - {id}, seen + {id};
      }
      AllTaken(old(View()), View(), seen);
    }

    method TakeLane(id: string)
      requires id in repo.rows
      modifies this`lanes
      ensures View() == Took(old(View()), id)
    {
      var market := repo.rows[id].market;
      var lane := EnsureLane(market);
      lanes := lanes[market := lane.(current := id)];
    }
  }
}
