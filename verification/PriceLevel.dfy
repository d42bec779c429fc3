/** One price level: an intrusive doubly linked FIFO of resting orders with a cached total. */
module PriceLevels {
  import opened Types
  import opened Matching
  import opened BookModel

  const BLANK := Order(0, "", Buy, Yes, 0, Buy, Limit, 0, 0, 0, 0, 0, [], [])

  /** An order in memory, linked to the next later and the next earlier order of its level. */
  class MemoryOrder {
    var order: Order
    var next: MemoryOrder?
    var prev: MemoryOrder?

    constructor (o: Order)
      ensures order == o && next == null && prev == null
    {
      order, next, prev := o, null, null;
    }

    /** Returning a node to the pool wipes it. */
    method Release()
      modifies this
      ensures order == BLANK && next == null && prev == null
    {
      order, next, prev := BLANK, null, null;
    }
  }

  lemma {:induction false} VolumeConcat(a: seq<Order>, b: seq<Order>)
    ensures Volume(a + b) == Volume(a) + Volume(b)
  {
    if a == [] {
      assert a + b == b;
    } else {
      assert (a + b)[1..] == a[1..] + b;
      VolumeConcat(a[1..], b);
    }
  }

  lemma VolumeWithout(q: seq<Order>, k: nat)
    requires k < |q|
    ensures Volume(q[..k] + q[k + 1..]) + q[k].qty == Volume(q)
  {
    assert q == q[..k] + ([q[k]] + q[k + 1..]);
    VolumeConcat(q[..k], [q[k]] + q[k + 1..]);
    VolumeConcat(q[..k], q[k + 1..]);
    assert ([q[k]] + q[k + 1..])[1..] == q[k + 1..];
  }

  lemma VolumeReplaced(q: seq<Order>, k: nat, lots: nat)
    requires k < |q| && lots <= q[k].qty
    ensures lots <= Volume(q)
    ensures Volume(q[k := q[k].(qty := q[k].qty - lots)]) == Volume(q) - lots
  {
    var r := q[k := q[k].(qty := q[k].qty - lots)];
    VolumeWithout(q, k);
    VolumeWithout(r, k);
    assert r[..k] == q[..k] && r[k + 1..] == q[k + 1..];
  }

  class PriceLevel {
    var totalVolume: nat
    var head: MemoryOrder?
    var tail: MemoryOrder?
    ghost var nodes: seq<MemoryOrder>
    ghost var queue: seq<Order>
    ghost const side: Side
    ghost const tick: nat

    ghost predicate Linked()
      reads `head, `tail, `nodes, nodes`next, nodes`prev
    {
      && (if nodes == [] then head == null && tail == null
          else head == nodes[0] && tail == nodes[|nodes| - 1] && nodes[0].prev == null && nodes[|nodes| - 1].next == null)
      && (forall i {:trigger nodes[i].prev} :: 1 <= i < |nodes| ==> nodes[i].prev == nodes[i - 1])
      && (forall i {:trigger nodes[i].next} :: 0 <= i < |nodes| - 1 ==> nodes[i].next == nodes[i + 1])
      && (forall i, j :: 0 <= i < j < |nodes| ==> nodes[i] != nodes[j])
    }

    /** The ghost queue is what the nodes hold. */
    ghost predicate Carries()
      reads `nodes, `queue, nodes`order
    {
      |queue| == |nodes| && forall i {:trigger nodes[i].order} :: 0 <= i < |nodes| ==> nodes[i].order == queue[i]
    }

    /** Well linked and the cached total right. */
    ghost predicate Consistent()
      reads this, nodes
    {
      Linked() && Carries() && totalVolume == Volume(queue)
    }

    /** Consistent, and every order is live and belongs at this price. */
    ghost predicate Valid()
      reads this, nodes
    {
      Consistent() && LevelOk(queue, side, tick)
    }

    constructor (ghost s: Side, ghost t: nat)
      ensures Valid() && nodes == [] && queue == [] && side == s && tick == t
    {
      totalVolume, head, tail, nodes, queue, side, tick := 0, null, null, [], [], s, t;
    }

    method Link(o: MemoryOrder)
      requires Linked() && o !in nodes && o.next == null && o.prev == null
      modifies `head, `tail, `nodes, o`prev, nodes`next
      ensures Linked() && nodes == old(nodes) + [o]
    {
      if tail == null {
        head := o;
        tail := o;
      } else {
        tail.next := o;
        o.prev := tail;
        tail := o;
      }
      nodes := nodes + [o];
    }

    method PushBack(o: MemoryOrder)
      requires Valid() && o !in nodes && o.next == null && o.prev == null
      requires LevelOk([o.order], side, tick)
      modifies this, o`prev, nodes`next
      ensures Valid() && nodes == old(nodes) + [o]
      ensures queue == old(queue) + [o.order]
    {
      VolumeConcat(queue, [o.order]);
      Link(o);
      totalVolume := totalVolume + o.order.qty;
      queue := queue + [o.order];
    }

    /** Takes any node out of the list, wherever it is. */
    method Unlink(o: MemoryOrder, ghost k: nat)
      requires Linked() && k < |nodes| && nodes[k] == o
      modifies `head, `tail, `nodes, nodes`next, nodes`prev
      ensures Linked() && nodes == old(nodes)[..k] + old(nodes)[k + 1..]
    {
      if o.prev != null {
        o.prev.next := o.next;
      } else {
        head := o.next;
      }
      if o.next != null {
        o.next.prev := o.prev;
      } else {
        tail := o.prev;
      }
      nodes := nodes[..k] + nodes[k + 1..];
    }

    method Remove(o: MemoryOrder, ghost k: nat)
      requires Consistent() && k < |nodes| && nodes[k] == o
      modifies this, nodes`next, nodes`prev
      ensures Consistent() && nodes == old(nodes)[..k] + old(nodes)[k + 1..]
      ensures queue == old(queue)[..k] + old(queue)[k + 1..]
      ensures o !in nodes
    {
      VolumeWithout(queue, k);
      Unlink(o, k);
      totalVolume := totalVolume - o.order.qty;
      queue := queue[..k] + queue[k + 1..];
      forall i | 0 <= i < |nodes|
        ensures nodes[i].order == queue[i]
      {
        assert nodes[i] == if i < k then old(nodes)[i] else old(nodes)[i + 1];
      }
    }

    /** Part of one order trades: its remaining lots and the cached total shrink together. */
    method Reduce(o: MemoryOrder, ghost k: nat, lots: nat)
      requires Consistent() && k < |nodes| && nodes[k] == o && lots <= o.order.qty
      modifies `totalVolume, `queue, o`order
      ensures Consistent()
      ensures o.order == old(o.order).(qty := old(o.order).qty - lots)
      ensures queue == old(queue)[k := o.order]
    {
      VolumeReplaced(queue, k, lots);
      o.order := o.order.(qty := o.order.qty - lots);
      totalVolume := totalVolume - lots;
      queue := queue[k := o.order];
    }

    /** The oldest order leaves. */
    method RemoveHead(o: MemoryOrder)
      requires Consistent() && nodes != [] && nodes[0] == o
      modifies this, nodes`next, nodes`prev
      ensures Consistent() && nodes == old(nodes)[1..] && queue == old(queue)[1..]
      ensures o !in nodes
    {
      Remove(o, 0);
    }
  }
}
