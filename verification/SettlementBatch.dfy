/** From a match batch to what the chain settles: orders in index order with the intents their owners signed, and fills. */
module SettlementBatches {
  import opened Types
  import opened Batch
  import opened Intents
  import MarketRun

  const MAX_ORDERS: nat := 255
  const SIGNATURE_SIZE: nat := 64

  datatype SubmissionOrder = SubmissionOrder(intent: OrderIntent, signature: seq<byte>, raw: seq<byte>, orderIndex: nat, warm: bool)

  datatype FillPair = FillPair(maker: byte, taker: byte, amount: u32, price: byte)

  datatype SubmissionBatch = SubmissionBatch(
    market: nat, pda: Key, orders: seq<SubmissionOrder>, fills: seq<FillPair>, users: seq<Key>)

  datatype MatchEvent = MatchEvent(market: nat, pda: string, orders: seq<MatchedOrder>, fills: seq<MatchFill>)

  /** `keys` are the names that are keys, and which. */
  datatype Config = Config(program: Key, keys: map<string, Key>)

  datatype SubmissionError = NoWork | Refused

  // ----- Which notionals overflow -----

  datatype MulError = ZeroDenominator | MultiplyOverflow | RoundUpOverflow

  /** The product as 64 bits hold it, and whether dividing it back gives something else. */
  function MulU64(a: u64, b: u64): (u64, bool) {
    if a == 0 || b == 0 then (0, false) else (a * b % U64, a * b % U64 / a != b)
  }

  lemma DividingBackFindsOverflow(a: u64, b: u64)
    ensures MulU64(a, b).1 <==> a * b >= U64
    ensures !MulU64(a, b).1 ==> MulU64(a, b).0 == a * b
  {
    if a > 0 && b > 0 {
      var p := a * b % U64;
      if a * b >= U64 {
        assert p < a * b;
        assert p >= a * (p / a);
      } else {
        assert p == a * b;
        DivideBack(a, b);
      }
    }
  }

  lemma DivideBack(a: nat, b: nat)
    requires a > 0
    ensures a * b / a == b
  {
    var d: int := b - a * b / a;
    assert a * d == a * b - a * (a * b / a) == a * b % a;
    assert d >= 1 ==> a * d >= a;
    assert d <= -1 ==> a * d <= 0 - a;
  }

  function CeilMulDiv(a: u64, b: u64, denominator: u64): Result<u64, MulError> {
    if denominator == 0 then Err(ZeroDenominator)
    else
      var (product, overflow) := MulU64(a, b);
      if overflow then Err(MultiplyOverflow)
      else if product % denominator == 0 then Ok(product / denominator)
      else if product / denominator == U64 - 1 then Err(RoundUpOverflow)
      else Ok(product / denominator + 1)
  }

  function MinimumNotional(i: OrderIntent): Result<u64, MulError> {
    if i.otype == Market && i.side == Buy then Ok(i.totalAmount) else CeilMulDiv(i.totalAmount, i.limitPrice, 100)
  }

  /** An intent's least notional: what it spends, or its lots at its limit in whole units, and then only below 64 bits. */
  lemma NotionalExactIff(i: OrderIntent)
    ensures i.otype == Market && i.side == Buy ==> MinimumNotional(i) == Ok(i.totalAmount)
    ensures !(i.otype == Market && i.side == Buy) ==>
      (MinimumNotional(i).Ok? <==> i.totalAmount * i.limitPrice < U64)
    ensures !(i.otype == Market && i.side == Buy) && MinimumNotional(i).Ok? ==>
      100 * (MinimumNotional(i).value - 1) < i.totalAmount * i.limitPrice <= 100 * MinimumNotional(i).value
  {
    DividingBackFindsOverflow(i.totalAmount, i.limitPrice);
  }

  // ----- What is accepted -----

  /** The intent says what the order executed says, in range and worth at least a whole lot's payout. */
  predicate IntentAgrees(i: OrderIntent, pda: Key, o: Order, cfg: Config) {
    && i.program == cfg.program && i.market == pda
    && o.wallet in cfg.keys && i.user == cfg.keys[o.wallet] && i.nonce == o.nonce
    && 0 <= o.expire < U32 && i.expiry == o.expire
    && 1 <= i.limitPrice <= 99 && i.limitPrice == o.originalTick
    && i.totalAmount > 0 && MinimumNotional(i).Ok? && MinimumNotional(i).value >= 100
    && i.side == o.action && i.outcome == o.outcome && i.otype == o.otype
  }

  predicate OrderAccepted(o: Order, pda: Key, cfg: Config) {
    && Parsed(o.intent).Ok? && IntentAgrees(Parsed(o.intent).value, pda, o, cfg)
    && |o.signature| == SIGNATURE_SIZE
  }

  predicate FillAccepted(f: MatchFill, orders: nat) {
    && 0 < f.amount < U32 && 1 <= f.price <= 99
    && f.makerIndex < orders && f.takerIndex < orders && f.makerIndex != f.takerIndex
  }

  predicate Occurs(orders: seq<MatchedOrder>, i: nat) {
    exists j :: 0 <= j < |orders| && orders[j].orderIndex == i
  }

  /** Every index from 0 up to the number of orders occurs; so each occurs once and no other does. */
  predicate Contiguous(orders: seq<MatchedOrder>) {
    forall i :: 0 <= i < |orders| ==> Occurs(orders, i)
  }

  predicate StructureAccepted(e: MatchEvent) {
    && e.fills != [] && 0 < |e.orders| <= MAX_ORDERS && Contiguous(e.orders)
    && forall k :: 0 <= k < |e.fills| ==> FillAccepted(e.fills[k], |e.orders|)
  }

  predicate Accepted(e: MatchEvent, cfg: Config) {
    && StructureAccepted(e) && e.pda in cfg.keys
    && AllAccepted(e.orders, cfg.keys[e.pda], cfg)
  }

  // ----- What is built -----

  function BuiltOrder(o: MatchedOrder): SubmissionOrder
    requires Parsed(o.execution.intent).Ok?
  {
    SubmissionOrder(Parsed(o.execution.intent).value, o.execution.signature, o.execution.intent, o.orderIndex, false)
  }

  function BuiltFill(f: MatchFill): FillPair
    requires FillAccepted(f, MAX_ORDERS)
  {
    FillPair(f.makerIndex, f.takerIndex, f.amount, f.price)
  }

  /** The users of the orders, each once, in order of appearance. */
  function UsersOf(orders: seq<SubmissionOrder>): (users: seq<Key>)
    ensures |users| <= |orders|
  {
    if orders == [] then []
    else
      var (before, user) := (UsersOf(orders[..|orders| - 1]), orders[|orders| - 1].intent.user);
      if user in before then before else before + [user]
  }

  predicate Uses(orders: seq<SubmissionOrder>, u: Key) {
    exists k :: 0 <= k < |orders| && orders[k].intent.user == u
  }

  predicate Unique(users: seq<Key>) {
    forall i, j :: 0 <= i < j < |users| ==> users[i] != users[j]
  }

  lemma {:induction false} UsersOfAre(orders: seq<SubmissionOrder>)
    ensures Unique(UsersOf(orders))
    ensures forall u :: u in UsersOf(orders) <==> Uses(orders, u)
  {
    if orders != [] {
      var n := |orders| - 1;
      UsersOfAre(orders[..n]);
      forall u
        ensures Uses(orders, u) <==> Uses(orders[..n], u) || u == orders[n].intent.user
      {
        if Uses(orders[..n], u) {
          var k :| 0 <= k < n && orders[..n][k].intent.user == u;
          assert orders[k].intent.user == u;
        }
        if Uses(orders, u) {
          var k :| 0 <= k < |orders| && orders[k].intent.user == u;
          assert k < n ==> orders[..n][k].intent.user == u;
        }
      }
    }
  }

  /** Every order stands at its own index, and every fill where it stood. */
  predicate BuiltFrom(b: SubmissionBatch, e: MatchEvent, cfg: Config)
    requires Accepted(e, cfg)
  {
    && b.market == e.market && b.pda == cfg.keys[e.pda] && b.users == UsersOf(b.orders)
    && |b.orders| == |e.orders| && |b.fills| == |e.fills|
    && (forall k :: 0 <= k < |e.orders| ==> e.orders[k].orderIndex < |b.orders| && b.orders[e.orders[k].orderIndex] == BuiltOrder(e.orders[k]))
    && (forall k :: 0 <= k < |e.fills| ==> b.fills[k] == BuiltFill(e.fills[k]))
  }

  // ----- Sorting -----

  predicate Ascending(s: seq<MatchedOrder>) {
    forall i, j :: 0 <= i < j < |s| ==> s[i].orderIndex <= s[j].orderIndex
  }

  lemma AscendingAppend(s: seq<MatchedOrder>, o: MatchedOrder)
    requires Ascending(s) && forall x :: x in s ==> x.orderIndex <= o.orderIndex
    ensures Ascending(s + [o])
  {
    forall i, j | 0 <= i < j < |s| + 1
      ensures (s + [o])[i].orderIndex <= (s + [o])[j].orderIndex
    {
      if j == |s| { assert s[i] in s; }
    }
  }

  function InsertByIndex(sorted: seq<MatchedOrder>, o: MatchedOrder): (r: seq<MatchedOrder>)
    requires Ascending(sorted)
    ensures Ascending(r) && |r| == |sorted| + 1
    ensures forall x :: x in r <==> x in sorted || x == o
    ensures multiset(r) == multiset(sorted) + multiset{o}
  {
    if sorted == [] then [o]
    else
      var n := |sorted| - 1;
      assert sorted == sorted[..n] + [sorted[n]];
      if sorted[n].orderIndex <= o.orderIndex then
        AscendingAppend(sorted, o);
        sorted + [o]
      else
        var front := InsertByIndex(sorted[..n], o);
        AscendingAppend(front, sorted[n]);
        front + [sorted[n]]
  }

  function SortedByIndex(orders: seq<MatchedOrder>): (r: seq<MatchedOrder>)
    ensures Ascending(r) && |r| == |orders|
    ensures forall x :: x in r <==> x in orders
    ensures multiset(r) == multiset(orders)
  {
    if orders == [] then []
    else
      var n := |orders| - 1;
      assert orders == orders[..n] + [orders[n]];
      InsertByIndex(SortedByIndex(orders[..n]), orders[n])
  }

  predicate InPlace(sorted: seq<MatchedOrder>) {
    forall i :: 0 <= i < |sorted| ==> sorted[i].orderIndex == i
  }

  lemma {:induction false} AscendingInPlace(s: seq<MatchedOrder>)
    requires Ascending(s) && Contiguous(s)
    ensures InPlace(s)
  {
    if s != [] {
      var n := |s| - 1;
      assert Occurs(s, n);
      var top :| 0 <= top < |s| && s[top].orderIndex == n;
      forall i | 0 <= i < n
        ensures Occurs(s[..n], i)
      {
        assert Occurs(s, i);
        var j :| 0 <= j < |s| && s[j].orderIndex == i;
        assert j < n;
        assert s[..n][j].orderIndex == i;
      }
      AscendingInPlace(s[..n]);
      assert forall i :: 0 <= i < n ==> s[..n][i] == s[i];
    }
  }

  /** Sorted, contiguous orders stand at their own indexes, and no others do. */
  lemma ContiguousIffInPlace(orders: seq<MatchedOrder>)
    ensures Contiguous(orders) <==> InPlace(SortedByIndex(orders))
  {
    var sorted := SortedByIndex(orders);
    if Contiguous(orders) {
      forall i | 0 <= i < |sorted|
        ensures Occurs(sorted, i)
      {
        assert Occurs(orders, i);
        var j :| 0 <= j < |orders| && orders[j].orderIndex == i;
        assert orders[j] in sorted;
      }
      AscendingInPlace(sorted);
    }
    if InPlace(sorted) {
      forall i | 0 <= i < |orders|
        ensures Occurs(orders, i)
      {
        assert sorted[i] in orders;
      }
    }
  }

  // ----- Building -----

  method ContainsKey(list: seq<Key>, key: Key) returns (found: bool)
    ensures found <==> key in list
  {
    for i := 0 to |list|
      invariant key !in list[..i]
    {
      if list[i] == key {
        return true;
      }
    }
    return false;
  }

  /** The checks on one order's intent, in turn. */
  method ValidateIntent(i: OrderIntent, pda: Key, o: Order, cfg: Config) returns (ok: bool)
    ensures ok <==> IntentAgrees(i, pda, o, cfg)
  {
    if i.program != cfg.program { return false; }
    if i.market != pda { return false; }
    if o.wallet !in cfg.keys { return false; }
    if i.user != cfg.keys[o.wallet] { return false; }
    if i.nonce != o.nonce { return false; }
    if o.expire < 0 || o.expire >= U32 { return false; }
    if i.expiry != o.expire { return false; }
    if i.limitPrice == 0 || i.limitPrice >= 100 { return false; }
    if i.limitPrice != o.originalTick { return false; }
    if i.totalAmount == 0 { return false; }
    var least := MinimumNotional(i);
    if least.Err? || least.value < 100 { return false; }
    if i.side != o.action { return false; }
    if i.outcome != o.outcome { return false; }
    return i.otype == o.otype;
  }

  /** The order is accepted, and this is what is built from it. */
  predicate AcceptedAs(o: MatchedOrder, b: SubmissionOrder, pda: Key, cfg: Config) {
    OrderAccepted(o.execution, pda, cfg) && b == BuiltOrder(o)
  }

  method BuildOrder(o: MatchedOrder, pda: Key, cfg: Config) returns (r: Option<SubmissionOrder>)
    ensures r.Some? <==> OrderAccepted(o.execution, pda, cfg)
    ensures r.Some? ==> AcceptedAs(o, r.value, pda, cfg)
  {
    var parsed := ParseOrderIntent(o.execution.intent);
    if parsed.Err? || |o.execution.signature| != SIGNATURE_SIZE {
      return None;
    }
    var ok := ValidateIntent(parsed.value, pda, o.execution, cfg);
    if !ok {
      return None;
    }
    return Some(SubmissionOrder(parsed.value, o.execution.signature, o.execution.intent, o.orderIndex, false));
  }

  predicate AllAccepted(orders: seq<MatchedOrder>, pda: Key, cfg: Config) {
    forall k :: 0 <= k < |orders| ==> OrderAccepted(orders[k].execution, pda, cfg)
  }

  /** The orders in index order, and their users; nothing if an index is missing or an order is refused. */
  method BuildOrders(orders: seq<MatchedOrder>, pda: Key, cfg: Config) returns (built: Option<(seq<SubmissionOrder>, seq<Key>)>)
    ensures built.Some? <==> Contiguous(orders) && AllAccepted(orders, pda, cfg)
    ensures built.Some? ==> AllBuilt(built.value.0, orders) && built.value.1 == UsersOf(built.value.0)
  {
    ContiguousIffInPlace(orders);
    var sorted := SortedByIndex(orders);
    SameAccepted(orders, sorted, pda, cfg);
    hide Contiguous, InPlace, AllAccepted;
    built := BuildSorted(sorted, pda, cfg);
    if built.Some? {
      BackInPlace(orders, sorted, built.value.0, pda, cfg);
    }
  }

  lemma SameAccepted(orders: seq<MatchedOrder>, sorted: seq<MatchedOrder>, pda: Key, cfg: Config)
    requires forall x :: x in sorted <==> x in orders
    ensures AllAccepted(orders, pda, cfg) <==> AllAccepted(sorted, pda, cfg)
  {
    hide OrderAccepted;
    forall k | 0 <= k < |orders|
      ensures orders[k] in sorted
    {
    }
    forall k | 0 <= k < |sorted|
      ensures sorted[k] in orders
    {
    }
  }

  lemma BackInPlace(orders: seq<MatchedOrder>, sorted: seq<MatchedOrder>, list: seq<SubmissionOrder>, pda: Key, cfg: Config)
    requires (forall x :: x in sorted <==> x in orders) && |sorted| == |orders| == |list|
    requires InPlace(sorted) && forall k :: 0 <= k < |list| ==> AcceptedAs(sorted[k], list[k], pda, cfg)
    ensures AllBuilt(list, orders)
  {
    forall k | 0 <= k < |orders|
      ensures OrderAccepted(orders[k].execution, pda, cfg)
      ensures orders[k].orderIndex < |list| && list[orders[k].orderIndex] == BuiltOrder(orders[k])
    {
      assert orders[k] in sorted;
    }
  }

  method BuildSorted(sorted: seq<MatchedOrder>, pda: Key, cfg: Config) returns (built: Option<(seq<SubmissionOrder>, seq<Key>)>)
    ensures built.Some? <==> InPlace(sorted) && AllAccepted(sorted, pda, cfg)
    ensures built.Some? ==>
      && |built.value.0| == |sorted| && built.value.1 == UsersOf(built.value.0)
      && forall k :: 0 <= k < |sorted| ==> AcceptedAs(sorted[k], built.value.0[k], pda, cfg)
  {
    hide OrderAccepted, AcceptedAs, UsersOf;
    NoUsers();
    var list: seq<SubmissionOrder>, users: seq<Key> := [], [];
    for idx := 0 to |sorted|
      invariant |list| == idx && users == UsersOf(list)
      invariant forall k :: 0 <= k < idx ==> sorted[k].orderIndex == k && OrderAccepted(sorted[k].execution, pda, cfg)
      invariant forall k :: 0 <= k < idx ==> AcceptedAs(sorted[k], list[k], pda, cfg)
    {
      if sorted[idx].orderIndex != idx {
        return None;
      }
      var one := BuildOrder(sorted[idx], pda, cfg);
      if one.None? {
        return None;
      }
      var seen := ContainsKey(users, one.value.intent.user);
      UsersOfMore(list, one.value);
      list := list + [one.value];
      if !seen {
        users := users + [one.value.intent.user];
      }
    }
    return Some((list, users));
  }

  lemma NoUsers()
    ensures UsersOf([]) == []
  {
  }

  lemma UsersOfMore(list: seq<SubmissionOrder>, o: SubmissionOrder)
    ensures UsersOf(list + [o]) == if o.intent.user in UsersOf(list) then UsersOf(list) else UsersOf(list) + [o.intent.user]
  {
    assert (list + [o])[..|list|] == list;
  }

  predicate AllBuilt(list: seq<SubmissionOrder>, orders: seq<MatchedOrder>) {
    && |list| == |orders|
    && forall k :: 0 <= k < |orders| ==>
         && Parsed(orders[k].execution.intent).Ok? && orders[k].orderIndex < |list|
         && list[orders[k].orderIndex] == BuiltOrder(orders[k])
  }

  method BuildFills(fills: seq<MatchFill>, orders: nat) returns (built: Option<seq<FillPair>>)
    requires orders <= MAX_ORDERS
    ensures built.Some? <==> forall k :: 0 <= k < |fills| ==> FillAccepted(fills[k], orders)
    ensures built.Some? ==> |built.value| == |fills| && forall k :: 0 <= k < |fills| ==> built.value[k] == BuiltFill(fills[k])
  {
    var list: seq<FillPair> := [];
    for n := 0 to |fills|
      invariant |list| == n
      invariant forall k :: 0 <= k < n ==> FillAccepted(fills[k], orders) && list[k] == BuiltFill(fills[k])
    {
      var f := fills[n];
      if f.amount == 0 || f.amount >= U32 { return None; }
      if f.price == 0 || f.price >= 100 { return None; }
      if f.makerIndex >= orders || f.takerIndex >= orders { return None; }
      if f.makerIndex == f.takerIndex { return None; }
      list := list + [FillPair(f.makerIndex, f.takerIndex, f.amount, f.price)];
    }
    return Some(list);
  }

  /** A match batch is built into a submission exactly when it is accepted, and then every part of it is in place. */
  method BuildSubmissionBatch(e: MatchEvent, cfg: Config) returns (r: Result<SubmissionBatch, SubmissionError>)
    ensures r.Ok? <==> Accepted(e, cfg)
    ensures r.Ok? ==> BuiltFrom(r.value, e, cfg)
    ensures r == Err(NoWork) <==> e.fills == []
  {
    if e.fills == [] {
      return Err(NoWork);
    }
    if e.orders == [] || e.pda !in cfg.keys || |e.orders| > MAX_ORDERS {
      return Err(Refused);
    }
    var orders := BuildOrders(e.orders, cfg.keys[e.pda], cfg);
    if orders.None? {
      return Err(Refused);
    }
    if |orders.value.1| > MAX_ORDERS {
      return Err(Refused);
    }
    var fills := BuildFills(e.fills, |orders.value.0|);
    if fills.None? {
      return Err(Refused);
    }
    return Ok(SubmissionBatch(e.market, cfg.keys[e.pda], orders.value.0, fills.value, orders.value.1));
  }

  /** A batch the matcher can produce is never refused for its structure, if it has at most 255 orders and 32-bit amounts. */
  lemma MatcherStructureAccepted(actions: seq<MarketRun.Action>, m: MarketRun.MarketState, market: nat, pda: string)
    requires MarketRun.Reaches(MarketRun.NEW_MARKET, actions, m)
    requires m.batch.fills != [] && |m.batch.orders| <= MAX_ORDERS
    requires forall k :: 0 <= k < |m.batch.fills| ==> m.batch.fills[k].amount < U32
    ensures StructureAccepted(MatchEvent(market, pda, m.batch.orders, m.batch.fills))
  {
    MarketRun.ReachableInv(actions, m);
    BatchStructure(m.batch, m.placed);
  }

  lemma BatchStructure(b: MatchBatch, placed: Placed)
    requires BatchInv(b, placed) && b.fills != [] && |b.orders| <= MAX_ORDERS
    requires forall k :: 0 <= k < |b.fills| ==> b.fills[k].amount < U32
    ensures b.orders != [] && Contiguous(b.orders)
    ensures forall k :: 0 <= k < |b.fills| ==> FillAccepted(b.fills[k], |b.orders|)
  {
    assert SoundFill(b.fills[0], 0, b.orders);
    forall i | 0 <= i < |b.orders|
      ensures Occurs(b.orders, i)
    {
      assert SlotMatches(b.orders, b.index, i);
    }
    forall k | 0 <= k < |b.fills|
      ensures FillAccepted(b.fills[k], |b.orders|)
    {
      assert SoundFill(b.fills[k], k, b.orders);
    }
  }
}
