/** A market connection of the hub: deltas wait while it bootstraps, and are sent on once it is live. */
module Hub {
  import opened Types
  import opened FeedProtocol

  class Connection {
    var bootstrapping: bool
    var pending: seq<Message>
    var sent: seq<Message>
    var taken: nat
    var lost: bool
    ghost var boot: Boot
    ghost var client: Client

    constructor (ghost client: Client)
      ensures View() == Conn(Joined, true, [], [], 0, false, client)
    {
      bootstrapping, pending, sent, taken, lost := true, [], [], 0, false;
      boot, this.client := Joined, client;
    }

    ghost function View(): Conn
      reads this
    {
      Conn(boot, bootstrapping, pending, sent, taken, lost, client)
    }

    /** A message goes into the queue, or the connection is closed because the queue is full. */
    method EnqueueRaw(m: Message)
      modifies this`sent, this`lost
      ensures View() == Enqueued(old(View()), m)
    {
      if lost {
        return;
      }
      if |sent| - taken < SEND_QUEUE_SIZE {
        sent := sent + [m];
      } else {
        lost := true;
      }
    }

    /** The locked part of queueing a delta: it waits, or is to be sent on. */
    method EnqueueMarket(m: Message) returns (sendOn: bool)
      modifies this`pending
      ensures sendOn <==> !bootstrapping
      ensures View() == if sendOn then old(View()) else old(View()).(pending := old(pending) + [m])
    {
      if bootstrapping {
        pending := pending + [m];
        return false;
      }
      return true;
    }

    /** The locked part of a bootstrap round: what is pending and newer than the snapshot, or the connection goes live. */
    method TakePending(base: nat) returns (items: seq<Message>)
      requires boot == Draining(base, [])
      modifies this`pending, this`bootstrapping, this`boot
      ensures View() == Drained(old(View())) && items == Later(old(pending), base)
    {
      items := [];
      for k := 0 to |pending|
        invariant items == Later(pending[..k], base) && View() == old(View())
      {
        assert pending[..k + 1][..k] == pending[..k];
        if pending[k].number > base {
          items := items + [pending[k]];
        }
      }
      assert pending[..|pending|] == pending;
      pending := [];
      if items == [] {
        bootstrapping := false;
        boot := Live;
      } else {
        boot := Draining(base, items);
      }
    }

    /** With nobody publishing meanwhile, a connection is sent the snapshot and all that waited and is newer. */
    method FinishMarketBootstrap(snapshot: Message)
      requires boot == Built(snapshot) && snapshot.Snapshot? && bootstrapping
      modifies this`pending, this`bootstrapping, this`boot, this`sent, this`lost
      ensures boot == Live && !bootstrapping && pending == []
      ensures !lost ==> sent == old(sent) + [snapshot] + Later(old(pending), snapshot.number)
      ensures lost <==> old(lost) || |old(sent)| - taken + 1 + |Later(old(pending), snapshot.number)| > SEND_QUEUE_SIZE
    {
      ghost var total := |sent| - taken + 1 + |Later(pending, snapshot.number)|;
      EnqueueRaw(snapshot);
      boot := Draining(snapshot.number, []);
      var items := TakePending(snapshot.number);
      while items != []
        invariant pending == [] && (boot == if items == [] then Live else Draining(snapshot.number, items))
        invariant bootstrapping <==> items != []
        invariant if lost then old(lost) || total > SEND_QUEUE_SIZE else !old(lost) && |sent| - taken <= SEND_QUEUE_SIZE
        invariant !lost ==> sent + items == old(sent) + [snapshot] + Later(old(pending), snapshot.number)
        decreases |items|
      {
        SendItems(snapshot.number, items);
        items := TakePending(snapshot.number);
      }
    }

    /** Sends the items that were taken; the connection is lost exactly if they do not all fit. */
    method SendItems(base: nat, items: seq<Message>)
      requires boot == Draining(base, items) && (lost || |sent| - taken <= SEND_QUEUE_SIZE)
      modifies this`boot, this`sent, this`lost
      ensures boot == Draining(base, [])
      ensures lost <==> old(lost) || |old(sent)| - taken + |items| > SEND_QUEUE_SIZE
      ensures !lost ==> sent == old(sent) + items
    {
      for k := 0 to |items|
        invariant boot == Draining(base, items[k..])
        invariant if lost then old(lost) || |old(sent)| - taken + |items| > SEND_QUEUE_SIZE
                  else !old(lost) && sent == old(sent) + items[..k] && |sent| - taken <= SEND_QUEUE_SIZE
      {
        EnqueueRaw(items[k]);
        boot := Draining(base, items[k + 1..]);
      }
    }
  }
}
