/** The stored form of a submission, and the checks under which it is read back. */
module PreparedPayloads {
  import opened Types
  import opened Intents
  import opened SettlementBatches

  const SCHEMA_VERSION: nat := 1

  datatype PreparedOrder = PreparedOrder(intent: seq<byte>, signature: seq<byte>, orderIndex: nat, warm: bool)

  datatype Payload = Payload(
    schema: nat, market: nat, pda: Key, orders: seq<PreparedOrder>, fills: seq<FillPair>, users: seq<Key>)

  // ----- Submissions that can be stored and read back -----

  predicate OrderSound(o: SubmissionOrder, position: nat, pda: Key, program: Key) {
    && o.orderIndex == position && |o.signature| == SIGNATURE_SIZE
    && o.raw == Serialized(o.intent) && o.intent.program == program && o.intent.market == pda
  }

  predicate FillSound(f: FillPair, orders: nat) {
    f.amount > 0 && 1 <= f.price <= 99 && f.maker < orders && f.taker < orders && f.maker != f.taker
  }

  /** Everything in its place: indexes are positions, users are just those of the orders, fills name two orders. */
  predicate Sound(b: SubmissionBatch, program: Key) {
    && 0 < |b.orders| <= MAX_ORDERS && 0 < |b.users| <= MAX_ORDERS && b.fills != []
    && (forall k :: 0 <= k < |b.orders| ==> OrderSound(b.orders[k], k, b.pda, program) && b.orders[k].intent.user in b.users)
    && Unique(b.users) && (forall u :: u in b.users ==> Uses(b.orders, u))
    && (forall k :: 0 <= k < |b.fills| ==> FillSound(b.fills[k], |b.orders|))
  }

  /** Whatever is built is sound, and stays so however its orders are marked warm. */
  lemma BuiltIsSound(b: SubmissionBatch, e: MatchEvent, cfg: Config)
    requires Accepted(e, cfg) && BuiltFrom(b, e, cfg)
    ensures Sound(b, cfg.program)
  {
    forall k | 0 <= k < |b.orders|
      ensures OrderSound(b.orders[k], k, b.pda, cfg.program)
    {
      assert Occurs(e.orders, k);
      var j :| 0 <= j < |e.orders| && e.orders[j].orderIndex == k;
      SerializeAfterParse(e.orders[j].execution.intent);
    }
    UsersOfAre(b.orders);
    forall k | 0 <= k < |b.orders|
      ensures b.orders[k].intent.user in b.users
    {
      assert Uses(b.orders, b.orders[k].intent.user);
    }
    assert b.orders[0].intent.user in b.users;
  }

  function Warmed(b: SubmissionBatch, warm: set<(Key, u64)>): SubmissionBatch {
    b.(orders := seq(|b.orders|, k requires 0 <= k < |b.orders| =>
      b.orders[k].(warm := (b.orders[k].intent.user, b.orders[k].intent.nonce) in warm)))
  }

  lemma WarmedIsSound(b: SubmissionBatch, warm: set<(Key, u64)>, program: Key)
    requires Sound(b, program)
    ensures Sound(Warmed(b, warm), program)
  {
    var w := Warmed(b, warm);
    forall u | Uses(b.orders, u)
      ensures Uses(w.orders, u)
    {
      var k :| 0 <= k < |b.orders| && b.orders[k].intent.user == u;
      assert w.orders[k].intent.user == u;
    }
    forall k | 0 <= k < |w.orders|
      ensures OrderSound(w.orders[k], k, w.pda, program)
    {
      assert OrderSound(b.orders[k], k, b.pda, program);
    }
  }

  // ----- Writing -----

  function RawOf(o: SubmissionOrder): seq<byte> {
    if o.raw == [] then Serialized(o.intent) else o.raw
  }

  function Encoded(b: SubmissionBatch): Payload {
    Payload(SCHEMA_VERSION, b.market, b.pda,
            seq(|b.orders|, k requires 0 <= k < |b.orders| =>
              PreparedOrder(RawOf(b.orders[k]), b.orders[k].signature, b.orders[k].orderIndex, b.orders[k].warm)),
            b.fills, b.users)
  }

  /** An intent always has bytes, so nothing is refused here. */
  method EncodePreparedPayload(b: SubmissionBatch) returns (r: Option<Payload>)
    ensures r == Some(Encoded(b))
  {
    var orders: seq<PreparedOrder> := [];
    for k := 0 to |b.orders|
      invariant orders == Encoded(b).orders[..k]
    {
      var o := b.orders[k];
      var raw := o.raw;
      if |raw| == 0 {
        raw := Serialize(o.intent);
      }
      if |raw| == 0 {
        return None;
      }
      orders := orders + [PreparedOrder(raw, o.signature, o.orderIndex, o.warm)];
    }
    assert orders == Encoded(b).orders;
    return Some(Payload(SCHEMA_VERSION, b.market, b.pda, orders, b.fills, b.users));
  }

  // ----- Reading -----

  predicate PreparedAccepted(p: PreparedOrder, position: nat, pda: Key, program: Key) {
    && p.orderIndex == position && |p.signature| == SIGNATURE_SIZE
    && Parsed(p.intent).Ok? && Parsed(p.intent).value.program == program && Parsed(p.intent).value.market == pda
  }

  function ReadOrder(p: PreparedOrder): SubmissionOrder
    requires Parsed(p.intent).Ok?
  {
    SubmissionOrder(Parsed(p.intent).value, p.signature, p.intent, p.orderIndex, p.warm)
  }

  predicate OrdersAccepted(orders: seq<PreparedOrder>, pda: Key, program: Key) {
    forall k :: 0 <= k < |orders| ==> PreparedAccepted(orders[k], k, pda, program)
  }

  function ReadOrders(orders: seq<PreparedOrder>, pda: Key, program: Key): seq<SubmissionOrder>
    requires OrdersAccepted(orders, pda, program)
  {
    seq(|orders|, k requires 0 <= k < |orders| => ReadOrder(orders[k]))
  }

  lemma UsesMore(orders: seq<SubmissionOrder>, o: SubmissionOrder)
    ensures forall u :: Uses(orders + [o], u) <==> Uses(orders, u) || u == o.intent.user
  {
    forall u | Uses(orders, u)
      ensures Uses(orders + [o], u)
    {
      var k :| 0 <= k < |orders| && orders[k].intent.user == u;
      assert (orders + [o])[k].intent.user == u;
    }
    assert (orders + [o])[|orders|].intent.user == o.intent.user;
  }

  method DecodeOrders(orders: seq<PreparedOrder>, pda: Key, program: Key)
    returns (list: Option<seq<SubmissionOrder>>, referenced: set<Key>)
    ensures list.Some? <==> OrdersAccepted(orders, pda, program)
    ensures list.Some? ==> list.value == ReadOrders(orders, pda, program)
    ensures list.Some? ==> forall u :: u in referenced <==> Uses(list.value, u)
  {
    var read: seq<SubmissionOrder> := [];
    referenced := {};
    assert forall u :: !Uses(read, u);
    hide Uses;
    for idx := 0 to |orders|
      invariant |read| == idx && forall u :: u in referenced <==> Uses(read, u)
      invariant forall k :: 0 <= k < idx ==> PreparedAccepted(orders[k], k, pda, program) && read[k] == ReadOrder(orders[k])
    {
      var p := orders[idx];
      if p.orderIndex != idx {
        return None, {};
      }
      var intent := ParseOrderIntent(p.intent);
      if intent.Err? || intent.value.program != program || intent.value.market != pda || |p.signature| != SIGNATURE_SIZE {
        return None, {};
      }
      var one := SubmissionOrder(intent.value, p.signature, p.intent, p.orderIndex, p.warm);
      UsesMore(read, one);
      read := read + [one];
      referenced := referenced + {intent.value.user};
    }
    return Some(read), referenced;
  }

  /** The users, if none is named twice. */
  method DecodeUsers(users: seq<Key>) returns (known: Option<set<Key>>)
    ensures known.Some? <==> Unique(users)
    ensures known.Some? ==> |known.value| == |users| && forall u :: u in known.value <==> u in users
  {
    var seen: set<Key> := {};
    for k := 0 to |users|
      invariant Unique(users[..k]) && |seen| == k && forall u :: u in seen <==> u in users[..k]
    {
      if users[k] in seen {
        return None;
      }
      seen := seen + {users[k]};
    }
    assert users[..|users|] == users;
    return Some(seen);
  }

  method DecodeFills(fills: seq<FillPair>, orders: nat) returns (ok: bool)
    ensures ok <==> forall k :: 0 <= k < |fills| ==> FillSound(fills[k], orders)
  {
    for k := 0 to |fills|
      invariant forall j :: 0 <= j < k ==> FillSound(fills[j], orders)
    {
      var f := fills[k];
      if f.amount == 0 { return false; }
      if f.price == 0 || f.price >= 100 { return false; }
      if f.maker >= orders || f.taker >= orders { return false; }
      if f.maker == f.taker { return false; }
    }
    return true;
  }

  predicate Readable(p: Payload, program: Key) {
    && p.schema == SCHEMA_VERSION && 0 < |p.orders| <= MAX_ORDERS && 0 < |p.users| <= MAX_ORDERS && p.fills != []
    && OrdersAccepted(p.orders, p.pda, program)
    && var orders := ReadOrders(p.orders, p.pda, program);
       && (forall k :: 0 <= k < |orders| ==> orders[k].intent.user in p.users)
       && Unique(p.users) && (forall u :: u in p.users ==> Uses(orders, u))
       && (forall k :: 0 <= k < |p.fills| ==> FillSound(p.fills[k], |orders|))
  }

  function Read(p: Payload, program: Key): SubmissionBatch
    requires Readable(p, program)
  {
    SubmissionBatch(p.market, p.pda, ReadOrders(p.orders, p.pda, program), p.fills, p.users)
  }

  /** A sound submission is read back as it was written. */
  lemma ReadAfterWrite(b: SubmissionBatch, program: Key)
    requires Sound(b, program)
    ensures Readable(Encoded(b), program) && Read(Encoded(b), program) == b
  {
    var p := Encoded(b);
    forall k | 0 <= k < |b.orders|
      ensures PreparedAccepted(p.orders[k], k, b.pda, program) && ReadOrder(p.orders[k]) == b.orders[k]
    {
      assert OrderSound(b.orders[k], k, b.pda, program);
      ParseAfterSerialize(b.orders[k].intent);
    }
    assert ReadOrders(p.orders, p.pda, program) == b.orders;
  }

  /** A payload that is read is written back as it was, and what was read is sound. */
  lemma WriteAfterRead(p: Payload, program: Key)
    requires Readable(p, program)
    ensures Sound(Read(p, program), program) && Encoded(Read(p, program)) == p
  {
    var b := Read(p, program);
    forall k | 0 <= k < |b.orders|
      ensures OrderSound(b.orders[k], k, b.pda, program) && Encoded(b).orders[k] == p.orders[k]
    {
      assert PreparedAccepted(p.orders[k], k, p.pda, program);
      SerializeAfterParse(p.orders[k].intent);
    }
    assert Encoded(b).orders == p.orders;
  }

  /** Whatever is built from a match batch, however warm, comes back from its stored form unchanged. */
  lemma BuiltComesBack(b: SubmissionBatch, e: MatchEvent, cfg: Config, warm: set<(Key, u64)>)
    requires Accepted(e, cfg) && BuiltFrom(b, e, cfg)
    ensures Readable(Encoded(Warmed(b, warm)), cfg.program)
    ensures Read(Encoded(Warmed(b, warm)), cfg.program) == Warmed(b, warm)
  {
    BuiltIsSound(b, e, cfg);
    WarmedIsSound(b, warm, cfg.program);
    ReadAfterWrite(Warmed(b, warm), cfg.program);
  }

  /** With every user of an order known, the counts agree exactly when every known user has an order. */
  lemma SameUsersIff(orders: seq<SubmissionOrder>, known: set<Key>, referenced: set<Key>)
    requires forall k :: 0 <= k < |orders| ==> orders[k].intent.user in known
    requires forall u :: u in referenced <==> Uses(orders, u)
    ensures |known| == |referenced| <==> forall u :: u in known ==> Uses(orders, u)
  {
    assert referenced <= known;
    if known <= referenced {
      assert known == referenced;
    } else {
      var u :| u in known && u !in referenced;
      SmallerSubset(referenced, known, u);
    }
  }

  lemma SmallerSubset(a: set<Key>, b: set<Key>, x: Key)
    requires a <= b && x in b && x !in a
    ensures |a| < |b|
  {
    var rest := b - a;
    assert x in rest && a + rest == b && a !! rest;
  }

  method DecodePreparedPayload(p: Payload, program: Key) returns (r: Result<SubmissionBatch, SubmissionError>)
    ensures r.Ok? <==> Readable(p, program)
    ensures r.Ok? ==> r.value == Read(p, program)
    ensures r == Err(NoWork) ==> p.fills == []
  {
    if p.schema != SCHEMA_VERSION || p.orders == [] || |p.orders| > MAX_ORDERS || p.users == [] || |p.users| > MAX_ORDERS {
      return Err(Refused);
    }
    hide PreparedAccepted, FillSound, Uses, Unique;
    var orders, referenced := DecodeOrders(p.orders, p.pda, program);
    if orders.None? {
      return Err(Refused);
    }
    var known := DecodeUsers(p.users);
    if known.None? {
      return Err(Refused);
    }
    for k := 0 to |orders.value|
      invariant forall j :: 0 <= j < k ==> orders.value[j].intent.user in known.value
    {
      if orders.value[k].intent.user !in known.value {
        return Err(Refused);
      }
    }
    SameUsersIff(orders.value, known.value, referenced);
    if |known.value| != |referenced| {
      return Err(Refused);
    }
    if p.fills == [] {
      return Err(NoWork);
    }
    var ok := DecodeFills(p.fills, |orders.value|);
    if !ok {
      return Err(Refused);
    }
    return Ok(SubmissionBatch(p.market, p.pda, orders.value, p.fills, p.users));
  }
}
