/** Aggregate depth: one volume per side and tick, changed by last-write-wins updates. */
module Depth {
  import opened Types
  import opened Batch

  const SLOTS: nat := 101

  /** Volumes of all ticks 0..100 on both sides. */
  datatype Book = Book(bids: seq<nat>, asks: seq<nat>)

  predicate Shaped(d: Book) {
    |d.bids| == SLOTS && |d.asks| == SLOTS
  }

  function Empty(): (d: Book)
    ensures Shaped(d)
  {
    Book(seq(SLOTS, _ => 0), seq(SLOTS, _ => 0))
  }

  function At(d: Book, side: Side, tick: nat): nat
    requires Shaped(d) && tick < SLOTS
  {
    if side == Sell then d.asks[tick] else d.bids[tick]
  }

  function ApplyOne(d: Book, u: DepthUpdate): (r: Book)
    requires Shaped(d)
    ensures Shaped(r)
  {
    if u.tick >= SLOTS then d
    else if u.side == Sell then d.(asks := d.asks[u.tick := u.volume])
    else d.(bids := d.bids[u.tick := u.volume])
  }

  function Apply(d: Book, updates: seq<DepthUpdate>): (r: Book)
    requires Shaped(d)
    ensures Shaped(r)
    decreases |updates|
  {
    if updates == [] then d else Apply(ApplyOne(d, updates[0]), updates[1..])
  }

  lemma ApplyNone(d: Book)
    requires Shaped(d)
    ensures Apply(d, []) == d
  {
  }

  lemma {:induction false} ApplyConcat(d: Book, a: seq<DepthUpdate>, b: seq<DepthUpdate>)
    requires Shaped(d)
    ensures Apply(d, a + b) == Apply(Apply(d, a), b)
    decreases |a|
  {
    if a == [] {
      assert a + b == b;
    } else {
      assert (a + b)[1..] == a[1..] + b;
      ApplyConcat(ApplyOne(d, a[0]), a[1..], b);
    }
  }
}
