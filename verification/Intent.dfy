/** The 118 bytes a user signs: an order intent, its little-endian fields and its three flag bits. */
module Intents {
  import opened Types

  const U32: nat := 0x1_0000_0000
  const U64: nat := 0x1_0000_0000_0000_0000

  type u32 = x: nat | x < U32
  type u64 = x: nat | x < U64

  type Key = k: seq<byte> | |k| == 32 witness seq(32, i => 0)

  const ORDER_INTENT_SIZE: nat := 118

  /** Any flag bit above these three is illegal. */
  const FLAGS_END: nat := 8

  datatype OrderIntent = OrderIntent(
    program: Key, market: Key, user: Key, nonce: u64,
    side: Side, outcome: Outcome, otype: OrderType,
    limitPrice: byte, totalAmount: u64, expiry: u32)

  // ----- Little-endian numbers -----

  function Pow256(n: nat): (p: nat)
    ensures p > 0
  {
    if n == 0 then 1 else 256 * Pow256(n - 1)
  }

  /** The low `n` bytes of a number, lowest first. */
  function Le(v: nat, n: nat): (b: seq<byte>)
    ensures |b| == n
  {
    if n == 0 then [] else [v % 256] + Le(v / 256, n - 1)
  }

  function FromLe(b: seq<byte>): (v: nat)
    ensures v < Pow256(|b|)
  {
    if b == [] then 0 else b[0] + 256 * FromLe(b[1..])
  }

  lemma {:induction false} LeRoundTrip(v: nat, n: nat)
    requires v < Pow256(n)
    ensures FromLe(Le(v, n)) == v
  {
    if n > 0 {
      LeRoundTrip(v / 256, n - 1);
      assert Le(v, n)[1..] == Le(v / 256, n - 1);
    }
  }

  lemma {:induction false} FromLeRoundTrip(b: seq<byte>)
    ensures Le(FromLe(b), |b|) == b
  {
    if b != [] {
      FromLeRoundTrip(b[1..]);
      assert FromLe(b) % 256 == b[0] && FromLe(b) / 256 == FromLe(b[1..]);
    }
  }

  lemma Widths()
    ensures Pow256(4) == U32 && Pow256(8) == U64
  {
    assert Pow256(1) == 256 && Pow256(2) == 0x1_0000 && Pow256(3) == 0x100_0000 && Pow256(4) == U32;
    assert Pow256(5) == 0x100_0000_0000 && Pow256(6) == 0x1_0000_0000_0000 && Pow256(7) == 0x100_0000_0000_0000;
  }

  // ----- Flags -----

  function Flags(o: OrderIntent): (f: byte)
    ensures f < FLAGS_END
  {
    (if o.side == Sell then 1 else 0) + (if o.outcome == No then 2 else 0) + (if o.otype == Market then 4 else 0)
  }

  function SideFromFlags(f: byte): Side { if f % 2 == 1 then Sell else Buy }

  function OutcomeFromFlags(f: byte): Outcome { if f / 2 % 2 == 1 then No else Yes }

  function OrderTypeFromFlags(f: byte): OrderType { if f / 4 % 2 == 1 then Market else Limit }

  // ----- The codec -----

  datatype IntentError = WrongSize | IllegalFlags

  function Serialized(o: OrderIntent): (b: seq<byte>)
    ensures |b| == ORDER_INTENT_SIZE
  {
    o.program + o.market + o.user + Le(o.nonce, 8) + [Flags(o), o.limitPrice] + Le(o.totalAmount, 8) + Le(o.expiry, 4)
  }

  function FieldsOf(b: seq<byte>): OrderIntent
    requires |b| == ORDER_INTENT_SIZE
  {
    Widths();
    OrderIntent(b[0..32], b[32..64], b[64..96], FromLe(b[96..104]),
                SideFromFlags(b[104]), OutcomeFromFlags(b[104]), OrderTypeFromFlags(b[104]),
                b[105], FromLe(b[106..114]), FromLe(b[114..118]))
  }

  function Parsed(b: seq<byte>): Result<OrderIntent, IntentError> {
    if |b| != ORDER_INTENT_SIZE then Err(WrongSize)
    else if b[104] >= FLAGS_END then Err(IllegalFlags)
    else Ok(FieldsOf(b))
  }

  /** Every intent survives being written and read. */
  lemma ParseAfterSerialize(o: OrderIntent)
    ensures Parsed(Serialized(o)) == Ok(o)
  {
    var b := Serialized(o);
    Widths();
    LeRoundTrip(o.nonce, 8);
    LeRoundTrip(o.totalAmount, 8);
    LeRoundTrip(o.expiry, 4);
    Fields(o.program, o.market, o.user, Le(o.nonce, 8), [Flags(o), o.limitPrice], Le(o.totalAmount, 8), Le(o.expiry, 4));
  }

  lemma Fields(a: seq<byte>, b: seq<byte>, c: seq<byte>, d: seq<byte>, e: seq<byte>, f: seq<byte>, g: seq<byte>)
    requires |a| == |b| == |c| == 32 && |d| == |f| == 8 && |e| == 2 && |g| == 4
    ensures var r := a + b + c + d + e + f + g;
      r[0..32] == a && r[32..64] == b && r[64..96] == c && r[96..104] == d && r[104] == e[0] && r[105] == e[1]
      && r[106..114] == f && r[114..118] == g
  {
    var head := a + b + c + d;
    assert head[0..32] == a && head[32..64] == b && head[64..96] == c && head[96..104] == d;
    var r := head + (e + f + g);
    assert r == a + b + c + d + e + f + g;
    assert r[0..32] == head[0..32] && r[32..64] == head[32..64] && r[64..96] == head[64..96] && r[96..104] == head[96..104];
    assert r[106..114] == (e + f + g)[2..10] == f && r[114..118] == (e + f + g)[10..14] == g;
  }

  /** What is read is written back byte for byte; so exactly the 118-byte strings with legal flags are intents. */
  lemma SerializeAfterParse(b: seq<byte>)
    ensures Parsed(b).Ok? <==> |b| == ORDER_INTENT_SIZE && b[104] < FLAGS_END
    ensures Parsed(b).Ok? ==> Serialized(Parsed(b).value) == b
  {
    if Parsed(b).Ok? {
      var o := Parsed(b).value;
      FromLeRoundTrip(b[96..104]);
      FromLeRoundTrip(b[106..114]);
      FromLeRoundTrip(b[114..118]);
      assert Flags(o) == b[104];
      assert b == b[0..32] + b[32..64] + b[64..96] + b[96..104] + [b[104], b[105]] + b[106..114] + b[114..118];
    }
  }

  method Serialize(o: OrderIntent) returns (buf: seq<byte>)
    ensures buf == Serialized(o)
  {
    buf := o.program;
    buf := buf + o.market;
    buf := buf + o.user;
    buf := buf + Le(o.nonce, 8);
    buf := buf + [Flags(o)];
    buf := buf + [o.limitPrice];
    assert buf == o.program + o.market + o.user + Le(o.nonce, 8) + [Flags(o), o.limitPrice];
    buf := buf + Le(o.totalAmount, 8);
    buf := buf + Le(o.expiry, 4);
  }

  method ParseOrderIntent(data: seq<byte>) returns (r: Result<OrderIntent, IntentError>)
    ensures r == Parsed(data)
  {
    if |data| != ORDER_INTENT_SIZE {
      return Err(WrongSize);
    }
    Widths();
    var offset := 0;
    var program := data[offset..offset + 32];
    offset := offset + 32;
    var market := data[offset..offset + 32];
    offset := offset + 32;
    var user := data[offset..offset + 32];
    offset := offset + 32;
    var nonce := FromLe(data[offset..offset + 8]);
    offset := offset + 8;
    var flags := data[offset];
    if flags >= FLAGS_END {
      return Err(IllegalFlags);
    }
    offset := offset + 1;
    var price := data[offset];
    offset := offset + 1;
    var total := FromLe(data[offset..offset + 8]);
    offset := offset + 8;
    var expiry := FromLe(data[offset..offset + 4]);
    return Ok(OrderIntent(program, market, user, nonce, SideFromFlags(flags), OutcomeFromFlags(flags), OrderTypeFromFlags(flags),
                          price, total, expiry));
  }
}
