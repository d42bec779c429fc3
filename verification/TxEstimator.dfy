/** The size estimator: a synthetic transaction of the same shape, its size cached, and a binary search over it. */
module TxEstimators {
  import opened Types
  import opened Intents
  import opened SettlementBatches
  import opened SettlementArgs
  import opened PreparedPayloads

  const DEFAULT_MAX_TX_BYTES: nat := 1232
  const MESSAGE_LENGTH: nat := 47

  datatype Shape = Shape(users: int, orders: int, cold: int, fills: int)

  /** An instruction: how many accounts it names, and its data. */
  datatype Instruction = Instruction(accounts: nat, data: seq<byte>)

  datatype Size = Size(accounts: nat, bytes: nat)

  function SizesOf(list: seq<Instruction>): seq<Size> {
    seq(|list|, k requires 0 <= k < |list| => Size(list[k].accounts, |list[k].data|))
  }

  predicate ValidShape(s: Shape) {
    && 0 <= s.users <= 255 && 0 <= s.orders <= 255 && 0 <= s.cold <= 255 && s.fills >= 0
    && (s.orders > 0 ==> s.users > 0) && s.cold <= s.orders && (s.fills > 0 ==> s.orders > 0)
  }

  // ----- What a transaction of a shape consists of -----

  const SIGNED_SIZE: nat := 16 + 64 + 32 + MESSAGE_LENGTH

  /** A signature check for every cold order, and the settlement over all accounts. */
  function ShapeSizes(s: Shape): seq<Size>
    requires ValidShape(s)
  {
    seq(s.cold, i => Size(0, SIGNED_SIZE)) + [Size(5 + 2 * s.users + s.orders, ArgsSize(s.orders, s.cold, s.fills))]
  }

  function ShapeOf(b: SubmissionBatch): Shape {
    Shape(|b.users|, |b.orders|, ColdCount(b.orders), |b.fills|)
  }

  /** Offsets and lengths, then signature, key and message. */
  function SignedData(user: seq<byte>, message: seq<byte>, signature: seq<byte>): (d: seq<byte>)
    requires |user| == 32 && |signature| == 64
    ensures |d| == 16 + 64 + 32 + |message|
  {
    [1, 0] + Le(16, 2) + [0xff, 0xff] + Le(16 + 64, 2) + [0xff, 0xff] + Le(16 + 64 + 32, 2) + Le(|message|, 2) + [0xff, 0xff]
    + signature + user + message
  }

  predicate Signable(b: SubmissionBatch) {
    forall k :: 0 <= k < |b.orders| && !b.orders[k].warm ==> |b.orders[k].signature| == 64
  }

  predicate AllSigned(list: seq<Instruction>, count: int) {
    |list| == count && forall i :: 0 <= i < |list| ==> list[i].accounts == 0 && |list[i].data| == SIGNED_SIZE
  }

  lemma SizesAdd(list: seq<Instruction>, last: Instruction, s: Shape)
    requires ValidShape(s) && AllSigned(list, s.cold)
    requires last.accounts == 5 + 2 * s.users + s.orders && |last.data| == ArgsSize(s.orders, s.cold, s.fills)
    ensures SizesOf(list + [last]) == ShapeSizes(s)
  {
  }

  /** A signature check for each cold order, unless one has no whole signature. */
  method SignatureChecks(b: SubmissionBatch, messages: seq<seq<byte>>) returns (r: Option<seq<Instruction>>)
    requires |messages| == |b.orders| && forall k :: 0 <= k < |messages| ==> |messages[k]| == MESSAGE_LENGTH
    ensures r.Some? <==> Signable(b)
    ensures r.Some? ==> AllSigned(r.value, ColdCount(b.orders))
  {
    var list: seq<Instruction> := [];
    for k := 0 to |b.orders|
      invariant AllSigned(list, ColdCount(b.orders[..k]))
      invariant forall i :: 0 <= i < k && !b.orders[i].warm ==> |b.orders[i].signature| == 64
    {
      var o := b.orders[k];
      assert b.orders[..k + 1][..k] == b.orders[..k];
      if o.warm {
        continue;
      }
      if |o.signature| != 64 {
        return None;
      }
      list := list + [Instruction(0, SignedData(o.intent.user, messages[k], o.signature))];
    }
    assert b.orders[..|b.orders|] == b.orders;
    return Some(list);
  }

  /** The instructions of a batch have just the sizes its shape has. `messages` are what the owners signed. */
  method BuildInstructions(b: SubmissionBatch, messages: seq<seq<byte>>, head: seq<byte>) returns (r: Option<seq<Instruction>>)
    requires |head| == DISCRIMINATOR_SIZE && |messages| == |b.orders|
    requires forall k :: 0 <= k < |messages| ==> |messages[k]| == MESSAGE_LENGTH
    ensures r.Some? <==> Encodable(b) && Signable(b)
    ensures r.Some? && ValidShape(ShapeOf(b)) ==> SizesOf(r.value) == ShapeSizes(ShapeOf(b))
  {
    var checks := SignatureChecks(b, messages);
    if checks.None? {
      return None;
    }
    var args, _, _ := EncodeSettleMatchBatchArgs(b, head);
    if args.Err? {
      return None;
    }
    var settle := Instruction(5 + |b.users| + |b.users| + |b.orders|, args.value);
    if ValidShape(ShapeOf(b)) { SizesAdd(checks.value, settle, ShapeOf(b)); }
    return Some(checks.value + [settle]);
  }

  /** A sound submission has a valid shape, so its estimate is an estimate of just what is built from it. */
  lemma SoundHasShape(b: SubmissionBatch, program: Key)
    requires Sound(b, program)
    ensures ValidShape(ShapeOf(b))
  {
  }

  // ----- The synthetic transaction -----

  method EncodeSynthetic(s: Shape, head: seq<byte>) returns (data: seq<byte>)
    requires ValidShape(s) && |head| == DISCRIMINATOR_SIZE
    ensures |data| == ArgsSize(s.orders, s.cold, s.fills)
  {
    data := head + [s.users];
    data := data + Le(s.orders, 4);
    for i := 0 to s.orders
      invariant |data| == 13 + 2 * i
    {
      var user: byte := i % s.users;
      var cold: byte := if i < s.cold then i else NO_WITNESS;
      data := data + [user, cold];
    }
    data := data + Le(s.cold, 4);
    for i := 0 to s.cold
      invariant |data| == 17 + 2 * s.orders + 22 * i
    {
      data := data + Le(i + 1, 8);
      data := data + Le(1000 + i, 8);
      data := data + Le(1_900_000_000 + i, 4);
      data := data + [50];
      data := data + [0];
    }
    data := data + Le(s.fills, 4);
    for i := 0 to s.fills
      invariant |data| == 21 + 2 * s.orders + 22 * s.cold + 7 * i
    {
      var maker: byte, taker: byte := i % s.orders, (i + 1) % s.orders;
      data := data + [maker, taker];
      data := data + Le(100 + i, 4);
      data := data + [50];
    }
  }

  method BuildSynthetic(s: Shape, user: seq<byte>, head: seq<byte>) returns (list: seq<Instruction>)
    requires ValidShape(s) && |head| == DISCRIMINATOR_SIZE && |user| == 32
    ensures SizesOf(list) == ShapeSizes(s)
  {
    list := [];
    for i := 0 to s.cold
      invariant AllSigned(list, i)
    {
      list := list + [Instruction(0, SignedData(user, seq(MESSAGE_LENGTH, j => 0), seq(64, j => 0)))];
    }
    var data := EncodeSynthetic(s, head);
    SizesAdd(list, Instruction(5 + s.users + s.users + s.orders, data), s);
    list := list + [Instruction(5 + s.users + s.users + s.orders, data)];
  }

  // ----- The estimator -----

  datatype EstimateError = InvalidShape

  /** `wire` is how many bytes a transaction with instructions of these sizes takes once assembled. */
  class Estimator {
    const wire: seq<Size> -> nat
    var cache: map<Shape, nat>

    constructor (wire: seq<Size> -> nat)
      ensures this.wire == wire && Valid()
    {
      this.wire := wire;
      cache := map[];
    }

    /** What is cached is what would be computed. */
    ghost predicate Valid()
      reads this
    {
      forall s :: s in cache ==> ValidShape(s) && cache[s] == wire(ShapeSizes(s))
    }

    method Estimate(s: Shape) returns (r: Result<nat, EstimateError>)
      requires Valid()
      modifies this`cache
      ensures Valid()
      ensures r == if ValidShape(s) then Ok(wire(ShapeSizes(s))) else Err(InvalidShape)
    {
      if !ValidShape(s) {
        return Err(InvalidShape);
      }
      if s in cache {
        return Ok(cache[s]);
      }
      var list := BuildSynthetic(s, seq(32, i => 0), [0x7a, 0x11, 0x9c, 0x4f, 0x53, 0x22, 0x18, 0x91]);
      var bytes := wire(SizesOf(list));
      cache := cache[s := bytes];
      return Ok(bytes);
    }

    ghost predicate Fits(base: Shape, fills: int, limit: int) {
      ValidShape(base.(fills := fills)) && wire(ShapeSizes(base.(fills := fills))) <= limit
    }

    /** More fills never make a smaller transaction. */
    ghost predicate Grows(base: Shape) {
      forall i, j :: 0 <= i <= j && ValidShape(base.(fills := j)) && ValidShape(base.(fills := i)) ==>
        wire(ShapeSizes(base.(fills := i))) <= wire(ShapeSizes(base.(fills := j)))
    }

    /**
     * The most fills up to the ceiling that fit, with their estimate. If not even none fit, the answer is also
     * none, but with no estimate.
     */
    method MaxFillsWithinLimit(base: Shape, maxTxBytes: int, ceiling: int) returns (r: Result<(int, Option<nat>), EstimateError>)
      requires Valid() && Grows(base)
      modifies this`cache
      ensures Valid()
      ensures var (limit, top) := (ByteLimit(maxTxBytes), Ceiling(ceiling));
        && (r.Err? <==> !ValidShape(base.(fills := 0)) || (base.orders == 0 && (top >= 2 || (top == 1 && Fits(base, 0, limit)))))
        && (r.Ok? && Fits(base, 0, limit) ==>
              var (best, estimate) := r.value;
              && 0 <= best <= top && Fits(base, best, limit) && estimate == Some(wire(ShapeSizes(base.(fills := best))))
              && forall f :: best < f <= top ==> !Fits(base, f, limit))
        && (r.Ok? && !Fits(base, 0, limit) ==> r.value == (0, None) && forall f :: 0 <= f <= top ==> !Fits(base, f, limit))
    {
      var high := if ceiling < 0 then 0 else ceiling;
      var limit := if maxTxBytes <= 0 then DEFAULT_MAX_TX_BYTES else maxTxBytes;
      var low, best, estimate := 0, 0, None;
      while low <= high
        invariant 0 <= low <= high + 1 <= Ceiling(ceiling) + 1 && Valid()
        invariant if low == 0 then best == 0 && estimate == None
                  else best == low - 1 && Fits(base, best, limit) && estimate == Some(wire(ShapeSizes(base.(fills := best))))
        invariant high < Ceiling(ceiling) ==> ValidShape(base.(fills := high + 1)) && !Fits(base, high + 1, limit)
        invariant base.orders == 0 && Ceiling(ceiling) >= 2 ==> low == 0 && high == Ceiling(ceiling)
        decreases high - low
      {
        var mid := (low + high) / 2;
        var shape := base.(fills := mid);
        var e := Estimate(shape);
        if e.Err? {
          return Err(InvalidShape);
        }
        if e.value <= limit {
          best, estimate := mid, Some(e.value);
          low := mid + 1;
        } else {
          high := mid - 1;
        }
      }
      return Ok((best, estimate));
    }
  }

  function ByteLimit(maxTxBytes: int): int {
    if maxTxBytes <= 0 then DEFAULT_MAX_TX_BYTES else maxTxBytes
  }

  function Ceiling(ceiling: int): int {
    if ceiling < 0 then 0 else ceiling
  }
}
