/** What holds over every run of the settlement lanes, through any crashes and restarts. */
module LaneRuns {
  import opened Types
  import opened Submissions
  import opened Lanes

  ghost predicate CanRun(s: State, ts: seq<Step>)
    decreases |ts|
  {
    ts == [] || (CanStep(s, ts[0]) && CanRun(Next(s, ts[0]), ts[1..]))
  }

  ghost function Run(s: State, ts: seq<Step>): State
    requires CanRun(s, ts)
    decreases |ts|
  {
    if ts == [] then s else Run(Next(s, ts[0]), ts[1..])
  }

  lemma {:induction false} RunKeeps(s: State, ts: seq<Step>)
    requires Inv(s) && CanRun(s, ts)
    ensures Inv(Run(s, ts))
    decreases |ts|
  {
    if ts != [] {
      StepKeeps(s, ts[0]);
      RunKeeps(Next(s, ts[0]), ts[1..]);
    }
  }

  // ----- What one step can do to a row -----

  /** A row under way keeps its pause and its place, and moves on only by a step that names the signature it stores. */
  lemma MovesBySignature(s: State, t: Step, id: string)
    requires CanStep(s, t) && id in s.rows && (s.rows[id].status == Submitted || s.rows[id].status == Processed)
    ensures id in Next(s, t).rows
    ensures var (r, q) := (s.rows[id], Next(s, t).rows[id]);
      q == r
      || (t == Process(id, r.signature) && r.status == Submitted && q == Bump(r).(status := Processed))
      || (t == Confirm(id, r.signature) && r.status == Processed && q == Bump(r).(status := Confirmed))
      || (t.Fail? && t.id == id && t.signature == r.signature && q == Bump(r).(status := Failed, lane := Paused))
      || (t.Resign? && t.id == id && t.was == r.signature && r.status == Submitted
          && q == Bump(r).(signature := t.signature, retries := r.retries + 1))
  {
    if Hits(s, t) { FailedAt(s.rows, t.id, id); }
    hide FailedAndPaused;
  }

  /** The steps that fail a row. */
  ghost predicate Hits(s: State, t: Step) {
    || (t.RefuseToPrepare? && t.id in s.rows)
    || (t.TooLarge? && CanFailEarly(s.rows, t.id))
    || (t.Fail? && CanFail(s.rows, t.id, t.signature))
  }

  lemma TerminalStays(s: State, t: Step, id: string)
    requires CanStep(s, t) && id in s.rows && (s.rows[id].status == Confirmed || s.rows[id].status == Failed)
    ensures id in Next(s, t).rows && Next(s, t).rows[id] == s.rows[id]
  {
    if Hits(s, t) { FailedAt(s.rows, t.id, id); }
    hide FailedAndPaused;
  }

  lemma PauseStays(s: State, t: Step, id: string)
    requires CanStep(s, t) && id in s.rows && s.rows[id].lane == Paused
    ensures var n := Next(s, t); id in n.rows && n.rows[id].market == s.rows[id].market && n.rows[id].lane == Paused
  {
    if Hits(s, t) { FailedAt(s.rows, t.id, id); }
    hide FailedAndPaused;
  }

  /** A failed row is a paused row, whatever failed it. */
  lemma FailurePauses(s: State, t: Step, id: string)
    requires CanStep(s, t) && id in Next(s, t).rows && Next(s, t).rows[id].status == Failed
    requires id in s.rows && s.rows[id].status == Failed ==> s.rows[id].lane == Paused
    ensures Next(s, t).rows[id].lane == Paused
  {
    if Hits(s, t) { FailedAt(s.rows, t.id, id); }
    hide FailedAndPaused;
  }

  lemma MarketStays(s: State, t: Step, id: string)
    requires CanStep(s, t) && id in s.rows
    ensures id in Next(s, t).rows && Next(s, t).rows[id].market == s.rows[id].market
  {
    if Hits(s, t) { FailedAt(s.rows, t.id, id); }
    hide FailedAndPaused;
  }

  /** A step submits at most one row, and none in a market with a paused row. */
  lemma PausedSubmitsNothing(s: State, t: Step, m: nat)
    requires Inv(s) && CanStep(s, t) && HasPaused(s.rows, m)
    ensures var n := Next(s, t);
      n.log == s.log || (|n.log| == |s.log| + 1 && n.log[..|s.log|] == s.log && n.log[|s.log|] in s.rows && s.rows[n.log[|s.log|]].market != m)
  {
    if t.Submit? && CanSubmit(s.rows, t.id) {
      SubmitterHasLane(s, t.id);
    }
    hide FailedAndPaused, Recovered;
  }

  // ----- Runs -----

  lemma {:induction false} TerminalForGood(s: State, ts: seq<Step>, id: string)
    requires CanRun(s, ts) && id in s.rows && (s.rows[id].status == Confirmed || s.rows[id].status == Failed)
    ensures id in Run(s, ts).rows && Run(s, ts).rows[id] == s.rows[id]
    decreases |ts|
  {
    if ts != [] {
      TerminalStays(s, ts[0], id);
      TerminalForGood(Next(s, ts[0]), ts[1..], id);
    }
  }

  /** The ids submitted by a further run. */
  ghost predicate OnlyElsewhere(s: State, e: State, m: nat) {
    |s.log| <= |e.log| && e.log[..|s.log|] == s.log
    && forall i :: |s.log| <= i < |e.log| ==> e.log[i] in e.rows && e.rows[e.log[i]].market != m
  }

  lemma ElsewhereFirst(s: State, n: State, e: State, m: nat)
    requires OnlyElsewhere(n, e, m) && |n.log| == |s.log| + 1 && n.log[..|s.log|] == s.log
    requires n.log[|s.log|] in e.rows && e.rows[n.log[|s.log|]].market != m
    ensures OnlyElsewhere(s, e, m)
  {
    assert e.log[..|n.log|][|s.log|] == n.log[|s.log|];
    assert e.log[..|s.log|] == e.log[..|n.log|][..|s.log|];
  }

  lemma {:induction false} PausedForGood(s: State, ts: seq<Step>, m: nat)
    requires Inv(s) && CanRun(s, ts) && HasPaused(s.rows, m)
    ensures OnlyElsewhere(s, Run(s, ts), m)
    decreases |ts|
  {
    if ts != [] {
      var n := Next(s, ts[0]);
      StepKeeps(s, ts[0]);
      PausedSubmitsNothing(s, ts[0], m);
      PauseHolds(s, ts[0], m);
      PausedForGood(n, ts[1..], m);
      hide Next, Inv, OnlyElsewhere;
      if n.log == s.log {
        SameLog(s, n, Run(n, ts[1..]), m);
      } else {
        var y := n.log[|s.log|];
        MarketStays(s, ts[0], y);
        MarketKept(n, ts[1..], y);
        ElsewhereFirst(s, n, Run(n, ts[1..]), m);
      }
    }
  }

  lemma SameLog(s: State, n: State, e: State, m: nat)
    requires n.log == s.log && OnlyElsewhere(n, e, m)
    ensures OnlyElsewhere(s, e, m)
  {
  }

  lemma PauseHolds(s: State, t: Step, m: nat)
    requires CanStep(s, t) && HasPaused(s.rows, m)
    ensures HasPaused(Next(s, t).rows, m)
  {
    var x :| x in s.rows && s.rows[x].market == m && s.rows[x].lane == Paused;
    PauseStays(s, t, x);
    hide Next;
  }

  lemma {:induction false} MarketKept(s: State, ts: seq<Step>, id: string)
    requires CanRun(s, ts) && id in s.rows
    ensures id in Run(s, ts).rows && Run(s, ts).rows[id].market == s.rows[id].market
    decreases |ts|
  {
    if ts != [] {
      MarketStays(s, ts[0], id);
      MarketKept(Next(s, ts[0]), ts[1..], id);
    }
  }

  ghost predicate FailuresPaused(s: State) {
    forall x :: x in s.rows && s.rows[x].status == Failed ==> s.rows[x].lane == Paused
  }

  lemma {:induction false} FailuresStayPaused(s: State, ts: seq<Step>)
    requires CanRun(s, ts) && FailuresPaused(s)
    ensures FailuresPaused(Run(s, ts))
    decreases |ts|
  {
    if ts != [] {
      forall x | x in Next(s, ts[0]).rows && Next(s, ts[0]).rows[x].status == Failed
        ensures Next(s, ts[0]).rows[x].lane == Paused
      {
        FailurePauses(s, ts[0], x);
      }
      FailuresStayPaused(Next(s, ts[0]), ts[1..]);
    }
  }

  /** Once a row of a market has failed, no run submits anything more in that market. */
  lemma NothingAfterFailure(ts: seq<Step>, us: seq<Step>, id: string)
    requires CanRun(START, ts) && CanRun(Run(START, ts), us)
    requires id in Run(START, ts).rows && Run(START, ts).rows[id].status == Failed
    ensures var s := Run(START, ts); OnlyElsewhere(s, Run(s, us), s.rows[id].market)
  {
    StartInv();
    RunKeeps(START, ts);
    FailuresStayPaused(START, ts);
    PausedForGood(Run(START, ts), us, Run(START, ts).rows[id].market);
  }

  /** In every reachable state, through any crashes and restarts, a market has at most one submitted row. */
  lemma AtMostOneSubmitted(ts: seq<Step>, m: nat, x: string, y: string)
    requires CanRun(START, ts) && IsSubmitted(Run(START, ts).rows, m, x) && IsSubmitted(Run(START, ts).rows, m, y)
    ensures x == y
  {
    StartInv();
    RunKeeps(START, ts);
  }

  /** The rows of a market are submitted in the order they were created. */
  lemma SubmittedInOrder(ts: seq<Step>, i: nat, j: nat)
    requires CanRun(START, ts) && i < j < |Run(START, ts).log|
    ensures var s := Run(START, ts);
      && s.log[i] in s.rows && s.log[j] in s.rows
      && (s.rows[s.log[i]].market == s.rows[s.log[j]].market ==> s.rows[s.log[i]].created < s.rows[s.log[j]].created)
  {
    StartInv();
    RunKeeps(START, ts);
  }

  /** Nothing active and older is left behind when a row is submitted. */
  lemma NothingLeftBehind(ts: seq<Step>, i: nat, x: string)
    requires CanRun(START, ts) && i < |Run(START, ts).log|
    requires var s := Run(START, ts); s.log[i] in s.rows && Waits(s.rows, x, s.rows[s.log[i]].market)
    ensures var s := Run(START, ts); s.rows[s.log[i]].created < s.rows[x].created
  {
    StartInv();
    RunKeeps(START, ts);
  }
}
