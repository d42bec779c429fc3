/** The arguments of the settle instruction as they are encoded, and as the size estimator imitates them. */
module SettlementArgs {
  import opened Types
  import opened Intents
  import opened SettlementBatches
  import opened PreparedPayloads

  /** In a slot, this cold index says that the order has no witness. */
  const NO_WITNESS: byte := 0xff

  const DISCRIMINATOR_SIZE: nat := 8

  datatype Slot = Slot(user: byte, cold: byte)

  datatype Witness = Witness(nonce: u64, totalAmount: u64, expiry: u32, limitPrice: byte, flags: byte)

  datatype ArgsError = TooManyUsers | UnknownUser | TooManyWitnesses

  // ----- Slots and witnesses -----

  function ColdCount(orders: seq<SubmissionOrder>): (n: nat)
    ensures n <= |orders|
  {
    if orders == [] then 0
    else ColdCount(orders[..|orders| - 1]) + (if orders[|orders| - 1].warm then 0 else 1)
  }

  function WitnessOf(i: OrderIntent): Witness {
    Witness(i.nonce, i.totalAmount, i.expiry, i.limitPrice, Flags(i))
  }

  /** A slot names its order's user, and its order's own witness exactly if the order is cold. */
  predicate SlotNames(slot: Slot, o: SubmissionOrder, users: seq<Key>, witnesses: seq<Witness>) {
    && slot.user < |users| && users[slot.user] == o.intent.user
    && (slot.cold == NO_WITNESS <==> o.warm)
    && (!o.warm ==> slot.cold < |witnesses| && witnesses[slot.cold] == WitnessOf(o.intent))
  }

  /** Every cold order has its own witness. */
  predicate Witnessed(slots: seq<Slot>, witnesses: seq<Witness>, orders: seq<SubmissionOrder>, users: seq<Key>) {
    && |slots| == |orders| && |witnesses| == ColdCount(orders)
    && (forall k :: 0 <= k < |orders| ==> SlotNames(slots[k], orders[k], users, witnesses))
    && (forall j, k :: 0 <= j < k < |slots| && slots[j].cold == slots[k].cold ==> slots[j].cold == NO_WITNESS)
  }

  predicate Encodable(b: SubmissionBatch) {
    && |b.users| <= MAX_ORDERS && ColdCount(b.orders) <= 255
    && forall k :: 0 <= k < |b.orders| ==> b.orders[k].intent.user in b.users
  }

  lemma ColdCountGrows(orders: seq<SubmissionOrder>, n: nat)
    requires n <= |orders|
    ensures ColdCount(orders[..n]) <= ColdCount(orders)
    decreases |orders| - n
  {
    if n < |orders| {
      assert orders[..n + 1][..n] == orders[..n];
      ColdCountGrows(orders, n + 1);
    } else {
      assert orders[..n] == orders;
    }
  }

  lemma ColdCountNext(orders: seq<SubmissionOrder>, n: nat)
    requires n < |orders|
    ensures ColdCount(orders[..n + 1]) == ColdCount(orders[..n]) + (if orders[n].warm then 0 else 1)
    ensures ColdCount(orders[..n + 1]) <= ColdCount(orders)
  {
    assert orders[..n + 1][..n] == orders[..n];
    ColdCountGrows(orders, n + 1);
  }

  // ----- The bytes -----

  function Flat(rows: seq<seq<byte>>): seq<byte> {
    if rows == [] then [] else Flat(rows[..|rows| - 1]) + rows[|rows| - 1]
  }

  lemma FlatMore(rows: seq<seq<byte>>, row: seq<byte>)
    ensures Flat(rows + [row]) == Flat(rows) + row
  {
    assert (rows + [row])[..|rows|] == rows;
  }

  lemma {:induction false} FlatLength(rows: seq<seq<byte>>, width: nat)
    requires forall k :: 0 <= k < |rows| ==> |rows[k]| == width
    ensures |Flat(rows)| == width * |rows|
  {
    if rows != [] {
      FlatLength(rows[..|rows| - 1], width);
      assert width * |rows| == width * (|rows| - 1) + width;
    }
  }

  lemma {:induction false} FlatSplit(rows: seq<seq<byte>>, k: nat)
    requires k < |rows|
    ensures Flat(rows) == Flat(rows[..k]) + rows[k] + Flat(rows[k + 1..])
  {
    var n := |rows| - 1;
    if k < n {
      FlatSplit(rows[..n], k);
      assert rows[..n][..k] == rows[..k] && rows[..n][k + 1..] == rows[k + 1..n];
      assert rows[k + 1..] == rows[k + 1..n] + [rows[n]];
      FlatMore(rows[k + 1..n], rows[n]);
    }
  }

  /** Rows of one width are found at multiples of it, wherever the whole of them starts. */
  lemma RowAt(before: seq<byte>, rows: seq<seq<byte>>, after: seq<byte>, width: nat, k: nat)
    requires k < |rows| && forall j :: 0 <= j < |rows| ==> |rows[j]| == width
    ensures var (a, start) := (before + Flat(rows) + after, |before| + width * k);
      start + width <= |a| && a[start..start + width] == rows[k]
  {
    FlatSplit(rows, k);
    FlatLength(rows[..k], width);
    var (a, start) := (before + Flat(rows) + after, |before| + width * k);
    assert a == (before + Flat(rows[..k])) + rows[k] + (Flat(rows[k + 1..]) + after);
  }

  function SlotRow(s: Slot): (r: seq<byte>)
    ensures |r| == 2
  {
    [s.user, s.cold]
  }

  function WitnessRow(w: Witness): (r: seq<byte>)
    ensures |r| == 22
  {
    Le(w.nonce, 8) + Le(w.totalAmount, 8) + Le(w.expiry, 4) + [w.limitPrice, w.flags]
  }

  function FillRow(f: FillPair): (r: seq<byte>)
    ensures |r| == 7
  {
    [f.maker, f.taker] + Le(f.amount, 4) + [f.price]
  }

  function SlotRows(slots: seq<Slot>): seq<seq<byte>> {
    seq(|slots|, k requires 0 <= k < |slots| => SlotRow(slots[k]))
  }

  function WitnessRows(ws: seq<Witness>): seq<seq<byte>> {
    seq(|ws|, k requires 0 <= k < |ws| => WitnessRow(ws[k]))
  }

  function FillRows(fills: seq<FillPair>): seq<seq<byte>> {
    seq(|fills|, k requires 0 <= k < |fills| => FillRow(fills[k]))
  }

  function ArgsSize(orders: nat, cold: nat, fills: nat): nat {
    21 + 2 * orders + 22 * cold + 7 * fills
  }

  /** The lists of the arguments, each after its length. */
  function Args(head: seq<byte>, users: byte, slots: seq<Slot>, ws: seq<Witness>, fills: seq<FillPair>): seq<byte> {
    head + [users] + Le(|slots|, 4) + Flat(SlotRows(slots)) + Le(|ws|, 4) + Flat(WitnessRows(ws)) + Le(|fills|, 4) + Flat(FillRows(fills))
  }

  function ReadWitness(b: seq<byte>): Witness
    requires |b| == 22
  {
    Widths();
    Witness(FromLe(b[0..8]), FromLe(b[8..16]), FromLe(b[16..20]), b[20], b[21])
  }

  function ReadFill(b: seq<byte>): FillPair
    requires |b| == 7
  {
    Widths();
    FillPair(b[0], b[1], FromLe(b[2..6]), b[6])
  }

  lemma ReadWitnessRow(w: Witness)
    ensures ReadWitness(WitnessRow(w)) == w
  {
    Widths();
    LeRoundTrip(w.nonce, 8);
    LeRoundTrip(w.totalAmount, 8);
    LeRoundTrip(w.expiry, 4);
    WitnessParts(Le(w.nonce, 8), Le(w.totalAmount, 8), Le(w.expiry, 4), [w.limitPrice, w.flags]);
  }

  lemma WitnessParts(a: seq<byte>, b: seq<byte>, c: seq<byte>, d: seq<byte>)
    requires |a| == 8 && |b| == 8 && |c| == 4 && |d| == 2
    ensures var r := a + b + c + d; r[0..8] == a && r[8..16] == b && r[16..20] == c && r[20] == d[0] && r[21] == d[1]
  {
  }

  lemma ReadFillRow(f: FillPair)
    ensures ReadFill(FillRow(f)) == f
  {
    Widths();
    LeRoundTrip(f.amount, 4);
    assert FillRow(f)[2..6] == Le(f.amount, 4);
  }

  lemma ArgsLength(head: seq<byte>, users: byte, slots: seq<Slot>, ws: seq<Witness>, fills: seq<FillPair>)
    requires |head| == DISCRIMINATOR_SIZE
    ensures |Args(head, users, slots, ws, fills)| == ArgsSize(|slots|, |ws|, |fills|)
  {
    FlatLength(SlotRows(slots), 2);
    FlatLength(WitnessRows(ws), 22);
    FlatLength(FillRows(fills), 7);
  }

  /** Every slot, witness and fill is read back from its own offset. */
  lemma SlotAt(head: seq<byte>, users: byte, slots: seq<Slot>, ws: seq<Witness>, fills: seq<FillPair>, k: nat)
    requires |head| == DISCRIMINATOR_SIZE && k < |slots|
    ensures var a := Args(head, users, slots, ws, fills);
      14 + 2 * k < |a| && a[8] == users && a[13 + 2 * k] == slots[k].user && a[14 + 2 * k] == slots[k].cold
  {
    hide Le;
    var before := head + [users] + Le(|slots|, 4);
    var after := Le(|ws|, 4) + Flat(WitnessRows(ws)) + Le(|fills|, 4) + Flat(FillRows(fills));
    var a := Args(head, users, slots, ws, fills);
    RowAt(before, SlotRows(slots), after, 2, k);
    assert a == before + Flat(SlotRows(slots)) + after;
    assert a[13 + 2 * k..15 + 2 * k] == SlotRow(slots[k]);
    assert a[13 + 2 * k] == a[13 + 2 * k..15 + 2 * k][0] && a[14 + 2 * k] == a[13 + 2 * k..15 + 2 * k][1];
  }

  lemma WitnessAt(head: seq<byte>, users: byte, slots: seq<Slot>, ws: seq<Witness>, fills: seq<FillPair>, k: nat)
    requires |head| == DISCRIMINATOR_SIZE && k < |ws|
    ensures var (a, start) := (Args(head, users, slots, ws, fills), 17 + 2 * |slots| + 22 * k);
      start + 22 <= |a| && ReadWitness(a[start..start + 22]) == ws[k]
  {
    FlatLength(SlotRows(slots), 2);
    ReadWitnessRow(ws[k]);
    hide Le;
    var before := head + [users] + Le(|slots|, 4) + Flat(SlotRows(slots)) + Le(|ws|, 4);
    var after := Le(|fills|, 4) + Flat(FillRows(fills));
    RowAt(before, WitnessRows(ws), after, 22, k);
    assert Args(head, users, slots, ws, fills) == before + Flat(WitnessRows(ws)) + after;
  }

  lemma FillAt(head: seq<byte>, users: byte, slots: seq<Slot>, ws: seq<Witness>, fills: seq<FillPair>, k: nat)
    requires |head| == DISCRIMINATOR_SIZE && k < |fills|
    ensures var (a, start) := (Args(head, users, slots, ws, fills), 21 + 2 * |slots| + 22 * |ws| + 7 * k);
      start + 7 <= |a| && ReadFill(a[start..start + 7]) == fills[k]
  {
    FlatLength(SlotRows(slots), 2);
    FlatLength(WitnessRows(ws), 22);
    ReadFillRow(fills[k]);
    hide Le;
    var before := head + [users] + Le(|slots|, 4) + Flat(SlotRows(slots)) + Le(|ws|, 4) + Flat(WitnessRows(ws)) + Le(|fills|, 4);
    RowAt(before, FillRows(fills), [], 7, k);
    assert Args(head, users, slots, ws, fills) == before + Flat(FillRows(fills)) + [];
  }

  lemma CountAt(before: seq<byte>, n: nat, after: seq<byte>)
    ensures var (a, start) := (before + Le(n, 4) + after, |before|);
      start + 4 <= |a| && (FromLe(a[start..start + 4]) == n <==> n < U32)
  {
    var a := before + Le(n, 4) + after;
    assert a[|before|..|before| + 4] == Le(n, 4);
    Widths();
    if n < U32 { LeRoundTrip(n, 4); }
  }

  /** Each list is preceded by its own length, as long as that fits in four bytes. */
  lemma CountsAt(head: seq<byte>, users: byte, slots: seq<Slot>, ws: seq<Witness>, fills: seq<FillPair>)
    requires |head| == DISCRIMINATOR_SIZE
    ensures var (a, w) := (Args(head, users, slots, ws, fills), 13 + 2 * |slots|);
      var f := w + 4 + 22 * |ws|;
      && f + 4 <= |a|
      && (FromLe(a[9..13]) == |slots| <==> |slots| < U32)
      && (FromLe(a[w..w + 4]) == |ws| <==> |ws| < U32)
      && (FromLe(a[f..f + 4]) == |fills| <==> |fills| < U32)
  {
    FlatLength(SlotRows(slots), 2);
    FlatLength(WitnessRows(ws), 22);
    hide Le, FromLe, Flat;
    var (x, y, z) := (Flat(SlotRows(slots)), Flat(WitnessRows(ws)), Flat(FillRows(fills)));
    var (k, m, n) := (Le(|slots|, 4), Le(|ws|, 4), Le(|fills|, 4));
    assert |x| == 2 * |slots| && |y| == 22 * |ws|;
    assert Args(head, users, slots, ws, fills) == head + [users] + k + x + m + y + n + z;
    hide *;
    Regroup(head + [users], k, x, m, y, n, z);
    CountAt(head + [users], |slots|, x + m + y + n + z);
    CountAt(head + [users] + k + x, |ws|, y + n + z);
    CountAt(head + [users] + k + x + m + y, |fills|, z);
  }

  lemma Regroup(h: seq<byte>, k: seq<byte>, x: seq<byte>, m: seq<byte>, y: seq<byte>, n: seq<byte>, z: seq<byte>)
    ensures h + k + x + m + y + n + z == h + k + (x + m + y + n + z)
    ensures h + k + x + m + y + n + z == h + k + x + m + (y + n + z)
  {
  }

  // ----- Encoding -----

  /** The last place a user is listed at. */
  method IndexUsers(users: seq<Key>) returns (at: map<Key, byte>)
    requires |users| <= 256
    ensures forall u :: u in at <==> u in users
    ensures forall u :: u in at ==> at[u] < |users| && users[at[u]] == u
  {
    at := map[];
    for idx := 0 to |users|
      invariant forall u :: u in at <==> u in users[..idx]
      invariant forall u :: u in at ==> at[u] < idx && users[at[u]] == u
    {
      at := at[users[idx] := idx];
    }
    assert users[..|users|] == users;
  }

  /** One slot for every order, and a witness for every cold one. */
  method FillSlots(orders: seq<SubmissionOrder>, users: seq<Key>) returns (r: Result<(seq<Slot>, seq<Witness>), ArgsError>)
    requires |users| <= MAX_ORDERS
    ensures r.Ok? <==> ColdCount(orders) <= 255 && forall k :: 0 <= k < |orders| ==> orders[k].intent.user in users
    ensures r.Ok? ==> Witnessed(r.value.0, r.value.1, orders, users)
  {
    var at := IndexUsers(users);
    var slots: seq<Slot>, ws: seq<Witness> := [], [];
    assert Witnessed(slots, ws, orders[..0], users) && orders[..|orders|] == orders;
    hide SlotNames, Witnessed, WitnessOf, ColdCount;
    for n := 0 to |orders|
      invariant Witnessed(slots, ws, orders[..n], users) && |ws| == ColdCount(orders[..n]) <= 255
      invariant forall k :: 0 <= k < n ==> orders[k].intent.user in users
    {
      var o := orders[n];
      ColdCountNext(orders, n);
      if o.intent.user !in at {
        return Err(UnknownUser);
      }
      var slot := Slot(at[o.intent.user], NO_WITNESS);
      ghost var before := ws;
      if !o.warm {
        if |ws| >= 255 {
          return Err(TooManyWitnesses);
        }
        slot := slot.(cold := |ws|);
        ws := ws + [WitnessOf(o.intent)];
      }
      NextWitnessed(slots, before, orders, n, users, slot);
      slots := slots + [slot];
    }
    return Ok((slots, ws));
  }

  lemma MoreWitnesses(slots: seq<Slot>, ws: seq<Witness>, orders: seq<SubmissionOrder>, users: seq<Key>,
                      w: Option<Witness>, slot: Slot, o: SubmissionOrder)
    requires Witnessed(slots, ws, orders, users) && |ws| <= 255
    requires slot.user < |users| && users[slot.user] == o.intent.user
    requires if o.warm then w == None && slot.cold == NO_WITNESS else w == Some(WitnessOf(o.intent)) && slot.cold == |ws| < 255
    ensures Witnessed(slots + [slot], if w.Some? then ws + [w.value] else ws, orders + [o], users)
  {
    var more := if w.Some? then ws + [w.value] else ws;
    assert (orders + [o])[..|orders|] == orders;
    forall k | 0 <= k < |orders| + 1
      ensures SlotNames((slots + [slot])[k], (orders + [o])[k], users, more)
    {
      if k < |orders| { assert SlotNames(slots[k], orders[k], users, ws); }
    }
    forall k | 0 <= k < |slots|
      ensures slots[k].cold != NO_WITNESS ==> slots[k].cold < |ws|
    {
      assert SlotNames(slots[k], orders[k], users, ws);
    }
  }

  lemma NextWitnessed(slots: seq<Slot>, ws: seq<Witness>, orders: seq<SubmissionOrder>, n: nat, users: seq<Key>, slot: Slot)
    requires n < |orders| && Witnessed(slots, ws, orders[..n], users) && |ws| <= 255
    requires slot.user < |users| && users[slot.user] == orders[n].intent.user
    requires if orders[n].warm then slot.cold == NO_WITNESS else slot.cold == |ws| < 255
    ensures Witnessed(slots + [slot], if orders[n].warm then ws else ws + [WitnessOf(orders[n].intent)], orders[..n + 1], users)
  {
    assert orders[..n + 1] == orders[..n] + [orders[n]];
    hide Witnessed;
    MoreWitnesses(slots, ws, orders[..n], users, if orders[n].warm then None else Some(WitnessOf(orders[n].intent)), slot, orders[n]);
  }

  /** Exactly the encodable batches are encoded, with slots that name their orders' users and witnesses. */
  method EncodeSettleMatchBatchArgs(b: SubmissionBatch, head: seq<byte>)
    returns (r: Result<seq<byte>, ArgsError>, ghost slots: seq<Slot>, ghost witnesses: seq<Witness>)
    requires |head| == DISCRIMINATOR_SIZE
    ensures r.Ok? <==> Encodable(b)
    ensures r.Ok? ==> Witnessed(slots, witnesses, b.orders, b.users) && r.value == Args(head, |b.users|, slots, witnesses, b.fills)
    ensures r.Ok? ==> |r.value| == ArgsSize(|b.orders|, ColdCount(b.orders), |b.fills|)
  {
    slots, witnesses := [], [];
    if |b.users| > MAX_ORDERS {
      return Err(TooManyUsers), [], [];
    }
    var filled := FillSlots(b.orders, b.users);
    if filled.Err? {
      return Err(filled.error), [], [];
    }
    var (list, ws) := filled.value;
    slots, witnesses := list, ws;
    ArgsLength(head, |b.users|, slots, witnesses, b.fills);
    var args := head + [|b.users|];
    args := args + Le(|b.orders|, 4);
    var rows := AppendSlots(list);
    args := args + rows;
    args := args + Le(|ws|, 4);
    rows := AppendWitnesses(ws);
    args := args + rows;
    args := args + Le(|b.fills|, 4);
    rows := AppendFills(b.fills);
    args := args + rows;
    r := Ok(args);
  }

  method AppendSlots(slots: seq<Slot>) returns (b: seq<byte>)
    ensures b == Flat(SlotRows(slots))
  {
    b := [];
    for k := 0 to |slots|
      invariant b == Flat(SlotRows(slots)[..k])
    {
      assert SlotRows(slots)[..k + 1] == SlotRows(slots)[..k] + [SlotRow(slots[k])];
      FlatMore(SlotRows(slots)[..k], SlotRow(slots[k]));
      b := b + [slots[k].user, slots[k].cold];
    }
    assert SlotRows(slots)[..|slots|] == SlotRows(slots);
  }

  method AppendWitnesses(ws: seq<Witness>) returns (b: seq<byte>)
    ensures b == Flat(WitnessRows(ws))
  {
    b := [];
    for k := 0 to |ws|
      invariant b == Flat(WitnessRows(ws)[..k])
    {
      assert WitnessRows(ws)[..k + 1] == WitnessRows(ws)[..k] + [WitnessRow(ws[k])];
      FlatMore(WitnessRows(ws)[..k], WitnessRow(ws[k]));
      var w := ws[k];
      b := b + (Le(w.nonce, 8) + Le(w.totalAmount, 8) + Le(w.expiry, 4) + [w.limitPrice, w.flags]);
    }
    assert WitnessRows(ws)[..|ws|] == WitnessRows(ws);
  }

  method AppendFills(fills: seq<FillPair>) returns (b: seq<byte>)
    ensures b == Flat(FillRows(fills))
  {
    b := [];
    for k := 0 to |fills|
      invariant b == Flat(FillRows(fills)[..k])
    {
      assert FillRows(fills)[..k + 1] == FillRows(fills)[..k] + [FillRow(fills[k])];
      FlatMore(FillRows(fills)[..k], FillRow(fills[k]));
      var f := fills[k];
      b := b + ([f.maker, f.taker] + Le(f.amount, 4) + [f.price]);
    }
    assert FillRows(fills)[..|fills|] == FillRows(fills);
  }

  /** Whatever is read back from its stored form can be encoded. */
  lemma SoundIsEncodable(b: SubmissionBatch, program: Key)
    requires Sound(b, program)
    ensures Encodable(b)
  {
  }
}
