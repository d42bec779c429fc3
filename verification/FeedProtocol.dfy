/**
 * How a client of the public feed catches up: it joins, is sent a snapshot and then the deltas after it, while the
 * publisher goes on. The steps of publisher, connection and client interleave in any way.
 */
module FeedProtocol {
  import opened Types
  import opened Batch
  import Depth

  const SEND_QUEUE_SIZE: nat := 64

  type Levels = seq<DepthUpdate>

  /** All that was published: the depth it began with, and every delta. */
  datatype History = History(start: Depth.Book, deltas: seq<Levels>)

  /** The publisher's depth after so many deltas. */
  function DepthAt(h: History, k: nat): (d: Depth.Book)
    requires Depth.Shaped(h.start) && k <= |h.deltas|
    ensures Depth.Shaped(d)
  {
    if k == 0 then h.start else Depth.Apply(DepthAt(h, k - 1), h.deltas[k - 1])
  }

  datatype Message = Snapshot(number: nat, depth: Depth.Book) | Delta(number: nat, levels: Levels)

  /** What a client keeps between messages. `applied` is the history of the deltas since its last snapshot. */
  datatype Client = Client(hasSnapshot: bool, number: nat, depth: Depth.Book, applied: seq<nat>)

  /** How far a connection's own goroutine has come. Draining, it has yet to send the items it took. */
  datatype Boot = Joined | Built(snapshot: Message) | Draining(base: nat, items: seq<Message>) | Live

  /** `sent` is all that was put in the send queue, `taken` how much of it the client has received. */
  datatype Conn = Conn(
    boot: Boot, bootstrapping: bool, pending: seq<Message>, sent: seq<Message>, taken: nat, lost: bool, client: Client)

  /** Where the publisher is with its latest delta. */
  datatype Publisher = Idle | Applied | Casting(left: set<nat>) | Sending(to: nat, left: set<nat>)

  datatype State = State(h: History, room: map<nat, Conn>, pub: Publisher)

  // ----- Steps -----

  /** A full queue closes the connection. */
  function Enqueued(c: Conn, m: Message): Conn {
    if c.lost then c
    else if |c.sent| - c.taken >= SEND_QUEUE_SIZE then c.(lost := true)
    else c.(sent := c.sent + [m])
  }

  function Later(items: seq<Message>, base: nat): seq<Message> {
    if items == [] then []
    else
      var last := items[|items| - 1];
      Later(items[..|items| - 1], base) + (if last.number > base then [last] else [])
  }

  /** A round of the bootstrap: take what is pending and newer than the snapshot, or, if there is none, go live. */
  function Drained(c: Conn): Conn
    requires c.boot.Draining?
  {
    var items := Later(c.pending, c.boot.base);
    if items == [] then c.(pending := [], bootstrapping := false, boot := Live)
    else c.(pending := [], boot := Draining(c.boot.base, items))
  }

  /** Deltas no newer than what the client has, or before any snapshot, are ignored. */
  function Received(k: Client, m: Message): Client
    requires Depth.Shaped(k.depth)
  {
    match m
    case Snapshot(number, depth) => Client(true, number, depth, [])
    case Delta(number, levels) =>
      if !k.hasSnapshot || number <= k.number then k
      else Client(true, number, Depth.Apply(k.depth, levels), k.applied + [number])
  }

  datatype Step =
    | Publish(levels: Levels) | OpenRoom | Offer(id: nat) | Send | CloseRoom
    | Join(id: nat, client: Client) | Build(id: nat) | SendSnapshot(id: nat) | Drain(id: nat) | Flush(id: nat)
    | Deliver(id: nat) | Lose(id: nat)

  ghost predicate CanStep(s: State, t: Step) {
    match t
    case Publish(_) => s.pub.Idle?
    case OpenRoom => s.pub.Applied?
    case Offer(id) => s.pub.Casting? && id in s.pub.left
    case Send => s.pub.Sending?
    case CloseRoom => s.pub.Casting? && s.pub.left == {}
    case Join(id, client) => id !in s.room && Depth.Shaped(client.depth)
    case Build(id) => id in s.room && s.room[id].boot.Joined?
    case SendSnapshot(id) => id in s.room && s.room[id].boot.Built?
    case Drain(id) => id in s.room && s.room[id].boot.Draining? && s.room[id].boot.items == []
    case Flush(id) => id in s.room && s.room[id].boot.Draining? && s.room[id].boot.items != []
    case Deliver(id) => id in s.room && !s.room[id].lost && s.room[id].taken < |s.room[id].sent|
    case Lose(id) => id in s.room
  }

  function Latest(h: History): Message
    requires h.deltas != []
  {
    Delta(|h.deltas|, h.deltas[|h.deltas| - 1])
  }

  function WithConn(s: State, id: nat, c: Conn): State {
    s.(room := s.room[id := c])
  }

  ghost function Next(s: State, t: Step): State
    requires Inv(s) && CanStep(s, t)
  {
    match t
    case Publish(levels) => s.(h := s.h.(deltas := s.h.deltas + [levels]), pub := Applied)
    case OpenRoom => s.(pub := Casting(s.room.Keys))
    case Offer(id) =>
      var (c, left) := (s.room[id], s.pub.left - {id});
      if c.bootstrapping then WithConn(s, id, c.(pending := c.pending + [Latest(s.h)])).(pub := Casting(left))
      else s.(pub := Sending(id, left))
    case Send => WithConn(s, s.pub.to, Enqueued(s.room[s.pub.to], Latest(s.h))).(pub := Casting(s.pub.left))
    case CloseRoom => s.(pub := Idle)
    case Join(id, client) => WithConn(s, id, Conn(Joined, true, [], [], 0, false, client))
    case Build(id) => WithConn(s, id, s.room[id].(boot := Built(Snapshot(|s.h.deltas|, DepthAt(s.h, |s.h.deltas|)))))
    case SendSnapshot(id) => WithConn(s, id, SnapshotSent(s.room[id]))
    case Drain(id) => WithConn(s, id, Drained(s.room[id]))
    case Flush(id) => WithConn(s, id, Flushed(s.room[id]))
    case Deliver(id) => WithConn(s, id, Delivered(s.room[id]))
    case Lose(id) => WithConn(s, id, s.room[id].(lost := true))
  }

  function SnapshotSent(c: Conn): Conn
    requires c.boot.Built?
  {
    Enqueued(c, c.boot.snapshot).(boot := Draining(c.boot.snapshot.number, []))
  }

  function Flushed(c: Conn): Conn
    requires c.boot.Draining? && c.boot.items != []
  {
    Enqueued(c, c.boot.items[0]).(boot := Draining(c.boot.base, c.boot.items[1..]))
  }

  function Delivered(c: Conn): Conn
    requires c.taken < |c.sent| && Depth.Shaped(c.client.depth)
  {
    c.(client := Received(c.client, c.sent[c.taken]), taken := c.taken + 1)
  }

  // ----- What every step keeps -----

  /** The latest delta has still to be offered to this connection. */
  predicate Owed(pub: Publisher, id: nat) {
    match pub
    case Idle => false
    case Applied => true
    case Casting(left) => id in left
    case Sending(to, left) => id == to || id in left
  }

  /** How many deltas a connection has been offered, or passed before it joined. */
  function Due(s: State, id: nat): int {
    |s.h.deltas| - (if Owed(s.pub, id) then 1 else 0)
  }

  /** These are the deltas that follow a number, without a gap. */
  predicate Run(h: History, items: seq<Message>, after: int) {
    forall i :: 0 <= i < |items| ==> IsDelta(h, items[i], after + 1 + i)
  }

  predicate IsDelta(h: History, m: Message, number: int) {
    m.Delta? && m.number == number && 1 <= number <= |h.deltas| && m.levels == h.deltas[number - 1]
  }

  predicate IsSnapshot(h: History, m: Message)
    requires Depth.Shaped(h.start)
  {
    m.Snapshot? && m.number <= |h.deltas| && m.depth == DepthAt(h, m.number)
  }

  /** A snapshot, then the deltas after some number that is no newer. */
  predicate Stream(h: History, sent: seq<Message>, after: int)
    requires Depth.Shaped(h.start)
  {
    sent != [] && IsSnapshot(h, sent[0]) && after <= sent[0].number && Run(h, sent[1..], after)
  }

  function Max(a: int, b: int): int {
    if a < b then b else a
  }

  /** Where the deltas up to `due` are: pending, taken but not yet sent, or sent. */
  ghost predicate FlowOk(h: History, due: int, c: Conn)
    requires Depth.Shaped(h.start)
  {
    && |c.pending| <= due <= |h.deltas| && Run(h, c.pending, due - |c.pending|) && (c.boot.Live? <==> !c.bootstrapping)
    && match c.boot
       case Joined => c.sent == []
       case Built(snapshot) => c.sent == [] && IsSnapshot(h, snapshot) && due - |c.pending| <= snapshot.number
       case Draining(base, items) =>
         c.lost || (
           && Stream(h, c.sent, base) && c.sent[0].number == base && Run(h, items, base + |c.sent| - 1)
           && base + |c.sent| - 1 + |items| == Max(base, due - |c.pending|))
       case Live => c.pending == [] && (c.lost || (c.sent != [] && Stream(h, c.sent, due - |c.sent| + 1)))
  }

  /** The deltas after one number up to another. */
  function After(from: int, to: int): seq<nat>
    requires 0 <= from <= to
  {
    seq(to - from, i requires 0 <= i < to - from => from + 1 + i)
  }

  /** What a client that has received this much of a stream has. */
  ghost predicate ClientOk(h: History, c: Conn)
    requires Depth.Shaped(h.start)
  {
    && c.taken <= |c.sent| && Depth.Shaped(c.client.depth)
    && (c.sent != [] ==> exists after: int :: Stream(h, c.sent, after))
    && (c.taken > 0 ==>
          && c.sent[0].number <= c.client.number <= |h.deltas|
          && c.client.number == Max(c.sent[0].number, c.sent[c.taken - 1].number)
          && c.client == Client(true, c.client.number, DepthAt(h, c.client.number), After(c.sent[0].number, c.client.number)))
  }

  ghost predicate ConnOk(h: History, due: int, c: Conn)
    requires Depth.Shaped(h.start)
  {
    FlowOk(h, due, c) && ClientOk(h, c)
  }

  predicate PubOk(s: State) {
    && (!s.pub.Idle? ==> s.h.deltas != [])
    && (s.pub.Casting? ==> s.pub.left <= s.room.Keys)
    && (s.pub.Sending? ==> s.pub.to in s.room && s.pub.to !in s.pub.left && s.pub.left <= s.room.Keys && !s.room[s.pub.to].bootstrapping)
  }

  ghost predicate Inv(s: State) {
    Depth.Shaped(s.h.start) && PubOk(s) && forall id :: id in s.room ==> ConnOk(s.h, Due(s, id), s.room[id])
  }

  // ----- One connection -----

  lemma {:induction false} DepthOfLonger(h: History, levels: Levels, k: nat)
    requires Depth.Shaped(h.start) && k <= |h.deltas|
    ensures DepthAt(h.(deltas := h.deltas + [levels]), k) == DepthAt(h, k)
  {
    if k > 0 {
      DepthOfLonger(h, levels, k - 1);
    }
  }

  lemma LongerKeeps(h: History, levels: Levels, due: int, c: Conn)
    requires Depth.Shaped(h.start) && ConnOk(h, due, c)
    ensures ConnOk(h.(deltas := h.deltas + [levels]), due, c)
  {
    var l := h.(deltas := h.deltas + [levels]);
    forall k | 0 <= k <= |h.deltas|
      ensures DepthAt(l, k) == DepthAt(h, k)
    {
      DepthOfLonger(h, levels, k);
    }
    if c.sent != [] {
      var after: int :| Stream(h, c.sent, after);
      assert Stream(l, c.sent, after);
    }
  }

  lemma PendKeeps(h: History, due: int, c: Conn, m: Message)
    requires Depth.Shaped(h.start) && ConnOk(h, due, c) && c.bootstrapping && IsDelta(h, m, due + 1)
    ensures ConnOk(h, due + 1, c.(pending := c.pending + [m]))
  {
  }

  lemma SendKeeps(h: History, due: int, c: Conn, m: Message)
    requires Depth.Shaped(h.start) && ConnOk(h, due, c) && !c.bootstrapping && IsDelta(h, m, due + 1)
    ensures ConnOk(h, due + 1, Enqueued(c, m))
  {
    EnqueueKeepsClient(h, c, m, due - |c.sent| + 1);
  }

  /** One more message in the queue continues the stream; the client has not seen it yet. */
  lemma EnqueueKeepsClient(h: History, c: Conn, m: Message, after: int)
    requires Depth.Shaped(h.start) && ClientOk(h, c)
    requires !c.lost ==> c.sent != [] && Stream(h, c.sent, after) && IsDelta(h, m, after + |c.sent|)
    ensures ClientOk(h, Enqueued(c, m))
    ensures !Enqueued(c, m).lost ==> Stream(h, Enqueued(c, m).sent, after)
  {
    var e := Enqueued(c, m);
    if !e.lost {
      assert e.sent[1..] == c.sent[1..] + [m];
      assert Stream(h, e.sent, after);
    }
  }

  lemma SnapshotKeeps(h: History, due: int, c: Conn)
    requires Depth.Shaped(h.start) && ConnOk(h, due, c) && c.boot.Built?
    ensures ConnOk(h, due, SnapshotSent(c))
  {
    var e := SnapshotSent(c);
    if !e.lost {
      assert e.sent == [c.boot.snapshot];
      assert Stream(h, e.sent, c.boot.snapshot.number);
    }
  }

  lemma FlushKeeps(h: History, due: int, c: Conn)
    requires Depth.Shaped(h.start) && ConnOk(h, due, c) && c.boot.Draining? && c.boot.items != []
    ensures ConnOk(h, due, Flushed(c))
  {
    EnqueueKeepsClient(h, c, c.boot.items[0], c.boot.base);
  }

  /** Of a run, those newer than a number are its tail. */
  lemma {:induction false} LaterIsTail(h: History, items: seq<Message>, after: int, base: nat)
    requires Run(h, items, after)
    ensures Run(h, Later(items, base), Max(after, base))
    ensures |Later(items, base)| == Max(0, after + |items| - Max(after, base))
  {
    if items != [] {
      var n := |items| - 1;
      assert items[n].number == after + 1 + n;
      LaterIsTail(h, items[..n], after, base);
    }
  }

  lemma DrainKeeps(h: History, due: int, c: Conn)
    requires Depth.Shaped(h.start) && ConnOk(h, due, c) && c.boot.Draining? && c.boot.items == []
    ensures ConnOk(h, due, Drained(c))
  {
    LaterIsTail(h, c.pending, due - |c.pending|, c.boot.base);
  }

  /** The next message of a stream: the snapshot first, then one number after the other. */
  lemma NextInStream(h: History, sent: seq<Message>, after: int, k: nat)
    requires Depth.Shaped(h.start) && Stream(h, sent, after) && 0 < k < |sent|
    ensures IsDelta(h, sent[k], after + k) && (k > 1 ==> sent[k - 1].number == after + k - 1)
  {
    assert sent[k] == sent[1..][k - 1];
    if k > 1 { assert sent[k - 1] == sent[1..][k - 2]; }
  }

  lemma DeliverKeeps(h: History, due: int, c: Conn)
    requires Depth.Shaped(h.start) && ConnOk(h, due, c) && !c.lost && c.taken < |c.sent|
    ensures ConnOk(h, due, Delivered(c))
  {
    DeliverKeepsClient(h, c);
  }

  lemma DeliverKeepsClient(h: History, c: Conn)
    requires Depth.Shaped(h.start) && ClientOk(h, c) && c.taken < |c.sent|
    ensures ClientOk(h, Delivered(c))
  {
    var after: int :| Stream(h, c.sent, after);
    var m := c.sent[c.taken];
    if c.taken > 0 {
      NextInStream(h, c.sent, after, c.taken);
      hide Stream, Run;
      if m.number > c.client.number {
        assert m.number == c.client.number + 1;
        assert After(c.sent[0].number, m.number) == After(c.sent[0].number, c.client.number) + [m.number];
      }
    } else {
      assert After(m.number, m.number) == [];
    }
  }

  // ----- All connections -----

  /** Connections that a step leaves alone, with what they are due, stay as they are. */
  lemma OthersKeep(s: State, n: State, id: nat)
    requires Inv(s) && n.h == s.h && PubOk(n) && id in n.room && n.room.Keys == s.room.Keys + {id}
    requires forall x :: x in s.room && x != id ==> n.room[x] == s.room[x] && Due(n, x) == Due(s, x)
    requires ConnOk(n.h, Due(n, id), n.room[id])
    ensures Inv(n)
  {
    forall x | x in n.room
      ensures ConnOk(n.h, Due(n, x), n.room[x])
    {
      if x != id { assert x in s.room; }
    }
  }

  lemma PublishKeeps(s: State, levels: Levels)
    requires Inv(s) && CanStep(s, Publish(levels))
    ensures Inv(Next(s, Publish(levels)))
  {
    var n := Next(s, Publish(levels));
    forall x | x in n.room
      ensures ConnOk(n.h, Due(n, x), n.room[x])
    {
      assert ConnOk(s.h, Due(s, x), s.room[x]);
      LongerKeeps(s.h, levels, Due(s, x), s.room[x]);
    }
  }

  lemma OfferKeeps(s: State, id: nat)
    requires Inv(s) && CanStep(s, Offer(id))
    ensures Inv(Next(s, Offer(id)))
  {
    var n := Next(s, Offer(id));
    OfferConn(s, id);
    assert PubOk(n) && n.h == s.h && n.room.Keys == s.room.Keys + {id};
    assert forall x :: x in s.room && x != id ==> n.room[x] == s.room[x] && Due(n, x) == Due(s, x);
    hide Next, Inv, ConnOk, PubOk, Due;
    OthersKeep(s, n, id);
  }

  lemma OfferConn(s: State, id: nat)
    requires Inv(s) && CanStep(s, Offer(id))
    ensures var n := Next(s, Offer(id)); id in n.room && ConnOk(n.h, Due(n, id), n.room[id])
  {
    var c := s.room[id];
    assert ConnOk(s.h, Due(s, id), c);
    if c.bootstrapping { PendKeeps(s.h, Due(s, id), c, Latest(s.h)); }
    hide ConnOk, Inv;
  }

  lemma SendStepKeeps(s: State)
    requires Inv(s) && CanStep(s, Send)
    ensures Inv(Next(s, Send))
  {
    var id := s.pub.to;
    assert ConnOk(s.h, Due(s, id), s.room[id]);
    SendKeeps(s.h, Due(s, id), s.room[id], Latest(s.h));
    hide ConnOk, Enqueued;
    OthersKeep(s, Next(s, Send), id);
  }

  lemma JoinKeeps(s: State, id: nat, client: Client)
    requires Inv(s) && CanStep(s, Join(id, client))
    ensures Inv(Next(s, Join(id, client)))
  {
    OthersKeep(s, Next(s, Join(id, client)), id);
  }

  predicate Own(t: Step) {
    t.Build? || t.SendSnapshot? || t.Drain? || t.Flush? || t.Deliver? || t.Lose?
  }

  lemma OwnConn(s: State, t: Step)
    requires Inv(s) && CanStep(s, t) && Own(t)
    ensures var n := Next(s, t);
      && t.id in s.room && n == WithConn(s, t.id, n.room[t.id]) && ConnOk(s.h, Due(s, t.id), n.room[t.id])
      && (!s.room[t.id].bootstrapping ==> !n.room[t.id].bootstrapping)
  {
    var c := s.room[t.id];
    var due := Due(s, t.id);
    assert ConnOk(s.h, due, c);
    match t
    case Build(_) => BuildKeeps(s.h, due, c);
    case SendSnapshot(_) => SnapshotKeeps(s.h, due, c);
    case Drain(_) => DrainKeeps(s.h, due, c);
    case Flush(_) => FlushKeeps(s.h, due, c);
    case Deliver(_) => DeliverKeeps(s.h, due, c);
    case Lose(_) => LoseKeeps(s.h, due, c);
  }

  lemma BuildKeeps(h: History, due: int, c: Conn)
    requires Depth.Shaped(h.start) && ConnOk(h, due, c) && c.boot.Joined?
    ensures ConnOk(h, due, c.(boot := Built(Snapshot(|h.deltas|, DepthAt(h, |h.deltas|)))))
  {
  }

  lemma LoseKeeps(h: History, due: int, c: Conn)
    requires Depth.Shaped(h.start) && ConnOk(h, due, c)
    ensures ConnOk(h, due, c.(lost := true))
  {
  }

  lemma OwnStepKeeps(s: State, t: Step)
    requires Inv(s) && CanStep(s, t) && Own(t)
    ensures Inv(Next(s, t))
  {
    var n := Next(s, t);
    OwnConn(s, t);
    hide Next, ConnOk;
    assert PubOk(n) && forall x :: Due(n, x) == Due(s, x);
    hide Inv, PubOk, Due;
    OthersKeep(s, n, t.id);
  }

  lemma StepKeeps(s: State, t: Step)
    requires Inv(s) && CanStep(s, t)
    ensures Inv(Next(s, t))
  {
    match t
    case Publish(levels) => PublishKeeps(s, levels);
    case OpenRoom => SameConns(s, Next(s, t));
    case Offer(id) => OfferKeeps(s, id);
    case Send => SendStepKeeps(s);
    case CloseRoom => SameConns(s, Next(s, t));
    case Join(id, client) => JoinKeeps(s, id, client);
    case _ => OwnStepKeeps(s, t);
  }

  lemma SameConns(s: State, n: State)
    requires Inv(s) && n.h == s.h && n.room == s.room && PubOk(n) && forall id :: id in s.room ==> Due(n, id) == Due(s, id)
    ensures Inv(n)
  {
  }

  // ----- Every run -----

  ghost predicate CanRun(s: State, ts: seq<Step>)
    requires Inv(s)
    decreases |ts|
  {
    ts == [] || (CanStep(s, ts[0]) && (StepKeeps(s, ts[0]); CanRun(Next(s, ts[0]), ts[1..])))
  }

  ghost function Ran(s: State, ts: seq<Step>): (e: State)
    requires Inv(s) && CanRun(s, ts)
    ensures Inv(e)
    decreases |ts|
  {
    if ts == [] then s
    else
      StepKeeps(s, ts[0]);
      Ran(Next(s, ts[0]), ts[1..])
  }

  ghost function Opened(start: Depth.Book): (s: State)
    requires Depth.Shaped(start)
    ensures Inv(s)
  {
    State(History(start, []), map[], Idle)
  }

  /**
   * Whatever the steps and whatever the client had before, once anything has reached it over a connection it has
   * applied a snapshot and then exactly the deltas after it, in order and without a gap; and its depth is what the
   * publisher's was at that number.
   */
  lemma ClientsAreExact(start: Depth.Book, ts: seq<Step>, id: nat)
    requires Depth.Shaped(start) && CanRun(Opened(start), ts)
    requires var s := Ran(Opened(start), ts); id in s.room && s.room[id].taken > 0
    ensures var (h, c) := (Ran(Opened(start), ts).h, Ran(Opened(start), ts).room[id]);
      && c.taken <= |c.sent| && c.sent[0].Snapshot? && c.client.hasSnapshot
      && Depth.Shaped(h.start) && c.sent[0].number <= c.client.number <= |h.deltas|
      && c.client.applied == After(c.sent[0].number, c.client.number)
      && c.client.depth == DepthAt(h, c.client.number)
  {
    var s := Ran(Opened(start), ts);
    assert ConnOk(s.h, Due(s, id), s.room[id]);
  }

  /** A connection that was never lost misses nothing: when all is handed over and taken, the client has the latest depth. */
  lemma NothingIsMissed(start: Depth.Book, ts: seq<Step>, id: nat)
    requires Depth.Shaped(start) && CanRun(Opened(start), ts)
    requires var s := Ran(Opened(start), ts);
      && id in s.room && !Owed(s.pub, id)
      && var c := s.room[id]; !c.lost && c.boot.Live? && c.taken == |c.sent|
    ensures var s := Ran(Opened(start), ts);
      && Depth.Shaped(s.h.start) && s.room[id].client.number == |s.h.deltas|
      && s.room[id].client.depth == DepthAt(s.h, |s.h.deltas|)
  {
    var s := Ran(Opened(start), ts);
    var c := s.room[id];
    assert ConnOk(s.h, Due(s, id), c);
    if |c.sent| > 1 { NextInStream(s.h, c.sent, |s.h.deltas| - |c.sent| + 1, |c.sent| - 1); }
  }
}
