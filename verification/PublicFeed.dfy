/** From the matcher's book to what a client of the public feed shows. */
module PublicFeed {
  import opened Types
  import opened Batch
  import opened FeedProtocol
  import Depth
  import DepthFeed
  import BookModel
  import M = MarketRun

  /** The depth updates of the batches a run of the market hands over, in order. */
  ghost function HandedOver(from: M.MarketState, actions: seq<M.Action>): seq<Levels>
    decreases |actions|
  {
    if actions == [] || !M.MarketInv(from) || !M.Allowed(from, actions[0]) then []
    else (if actions[0].Flush? then [from.batch.depth] else []) + HandedOver(M.Act(from, actions[0]), actions[1..])
  }

  lemma {:induction false} DepthAtTail(h: History, k: nat)
    requires Depth.Shaped(h.start) && h.deltas != [] && k < |h.deltas|
    ensures var t := History(Depth.Apply(h.start, h.deltas[0]), h.deltas[1..]);
      DepthAt(h, k + 1) == DepthAt(t, k)
  {
    var t := History(Depth.Apply(h.start, h.deltas[0]), h.deltas[1..]);
    if k == 0 {
      assert DepthAt(h, 0) == h.start;
    } else {
      DepthAtTail(h, k - 1);
      assert t.deltas[k - 1] == h.deltas[k];
    }
  }

  /** The published deltas say, one by one, what the batches handed over say. */
  ghost predicate Publishes(deltas: seq<Levels>, handed: seq<Levels>) {
    |deltas| == |handed| && forall k :: 0 <= k < |deltas| ==> DepthFeed.SameLast(deltas[k], handed[k])
  }

  lemma {:induction false} PublishedIsShown(from: M.MarketState, actions: seq<M.Action>, h: History)
    requires M.MarketInv(from) && Depth.Shaped(h.start) && Publishes(h.deltas, HandedOver(from, actions))
    ensures DepthAt(h, |h.deltas|) == M.Shown(from, actions, h.start)
    decreases |actions|
  {
    if actions != [] && M.Allowed(from, actions[0]) {
      M.ActKeepsInv(from, actions[0]);
      hide M.MarketInv, M.Allowed;
      var next := M.Act(from, actions[0]);
      if actions[0].Flush? {
        FirstHandedOver(from, actions, h);
        hide M.Act, Publishes, HandedOver;
        DepthFeed.SameLastSameDepth(h.start, h.deltas[0], from.batch.depth);
        PublishedIsShown(next, actions[1..], History(Depth.Apply(h.start, h.deltas[0]), h.deltas[1..]));
        DepthAtTail(h, |h.deltas| - 1);
      } else {
        assert HandedOver(from, actions) == HandedOver(next, actions[1..]);
        hide M.Act, Publishes, HandedOver;
        PublishedIsShown(next, actions[1..], h);
      }
    }
  }

  lemma FirstHandedOver(from: M.MarketState, actions: seq<M.Action>, h: History)
    requires M.MarketInv(from) && actions != [] && actions[0].Flush?
    requires Publishes(h.deltas, HandedOver(from, actions))
    ensures h.deltas != [] && DepthFeed.SameLast(h.deltas[0], from.batch.depth)
    ensures Publishes(h.deltas[1..], HandedOver(M.Act(from, actions[0]), actions[1..]))
  {
    hide DepthFeed.SameLast;
    assert HandedOver(from, actions)[1..] == HandedOver(M.Act(from, actions[0]), actions[1..]);
  }

  lemma {:induction false} HandedOverTicks(from: M.MarketState, actions: seq<M.Action>, k: nat)
    requires M.MarketInv(from) && M.TicksOk(from.batch.depth) && k < |HandedOver(from, actions)|
    ensures M.TicksOk(HandedOver(from, actions)[k])
    decreases |actions|
  {
    var (a, next) := (actions[0], M.Act(from, actions[0]));
    M.ActKeepsInv(from, a);
    assert [a][1..] == [];
    assert M.Reaches(next, [a][1..], next);
    M.RunsKeepTicks(from, [a], next);
    if !a.Flush? {
      HandedOverTicks(next, actions[1..], k);
    } else if k > 0 {
      HandedOverTicks(next, actions[1..], k - 1);
    }
  }

  /** A compressed delta names no price that its batch does not name. */
  lemma SameLastTicks(a: Levels, b: Levels)
    requires DepthFeed.SameLast(a, b) && M.TicksOk(b)
    ensures M.TicksOk(a)
  {
    forall i | 0 <= i < |a|
      ensures ValidTick(a[i].tick)
    {
      DepthFeed.LastIn(a, a[i].side, a[i].tick);
      assert DepthFeed.LastFor(a, a[i].side, a[i].tick) == DepthFeed.LastFor(b, a[i].side, a[i].tick);
      DepthFeed.LastIn(b, a[i].side, a[i].tick);
    }
  }

  /** Every delta that is published of a market's batches is at prices that exist, as the client's depth needs it. */
  lemma PublishedTicksExist(actions: seq<M.Action>, deltas: seq<Levels>, k: nat)
    requires Publishes(deltas, HandedOver(M.NEW_MARKET, actions)) && k < |deltas|
    ensures M.TicksOk(deltas[k])
  {
    M.ReachableInv([], M.NEW_MARKET);
    HandedOverTicks(M.NEW_MARKET, actions, k);
    SameLastTicks(deltas[k], HandedOver(M.NEW_MARKET, actions)[k]);
  }

  /**
   * Whatever commands a market has seen and however the feed's steps interleaved: if every batch was published and
   * the open one is empty, a connection that is not lost and has taken all that was sent shows the book's own totals.
   */
  lemma CaughtUpClientShowsTheBook(actions: seq<M.Action>, m: M.MarketState, ts: seq<Step>, id: nat)
    requires M.Reaches(M.NEW_MARKET, actions, m) && m.batch == EMPTY
    requires CanRun(Opened(Depth.Empty()), ts)
    requires var s := Ran(Opened(Depth.Empty()), ts);
      && Publishes(s.h.deltas, HandedOver(M.NEW_MARKET, actions))
      && id in s.room && !Owed(s.pub, id)
      && var c := s.room[id]; !c.lost && c.boot.Live? && c.taken == |c.sent|
    ensures Ran(Opened(Depth.Empty()), ts).room[id].client.depth == M.DepthOf(m.book)
  {
    var s := Ran(Opened(Depth.Empty()), ts);
    M.ReachableInv([], M.NEW_MARKET);
    NothingIsMissed(Depth.Empty(), ts, id);
    StartStays(Opened(Depth.Empty()), ts);
    PublishedIsShown(M.NEW_MARKET, actions, s.h);
    NewBookIsEmpty();
    M.DepthFollows(M.NEW_MARKET, actions, m, Depth.Empty());
  }

  lemma NewBookIsEmpty()
    ensures M.DepthOf(BookModel.NEW_BOOK) == Depth.Empty()
  {
    var d := M.DepthOf(BookModel.NEW_BOOK);
    assert d.bids == Depth.Empty().bids && d.asks == Depth.Empty().asks;
  }

  lemma {:induction false} StartStays(s: State, ts: seq<Step>)
    requires Inv(s) && CanRun(s, ts)
    ensures Ran(s, ts).h.start == s.h.start
    decreases |ts|
  {
    if ts != [] {
      StepKeeps(s, ts[0]);
      StartStays(Next(s, ts[0]), ts[1..]);
    }
  }
}
