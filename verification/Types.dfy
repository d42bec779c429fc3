/** Vocabulary shared by the matcher, the funds ledger, settlement and the public feed. */
module Types {

  type byte = x: int | 0 <= x < 256

  datatype Option<+T> = None | Some(value: T)

  datatype Result<+T, +E> = Ok(value: T) | Err(error: E)

  /** What an order does to its owner's holdings, and also the side of the book it rests on. */
  datatype Side = Buy | Sell

  datatype Outcome = Yes | No

  datatype OrderType = Limit | Market

  /**
   * One order as the matcher holds it. `action`, `outcome` and `originalTick` are what the user signed;
   * `side` and `tick` are the same order expressed on the single YES book. `qty` and `spend` are what remains.
   */
  datatype Order = Order(
    id: nat, wallet: string,
    action: Side, outcome: Outcome, originalTick: nat,
    side: Side, otype: OrderType, tick: nat,
    qty: nat, spend: nat, expire: int,
    nonce: nat, intent: seq<byte>, signature: seq<byte>)

  /** Only a market buy is denominated in money; every other order is denominated in lots. */
  predicate SpendDenominated(o: Order) {
    o.otype == Market && o.action == Buy
  }

  predicate IsFilled(o: Order) {
    if SpendDenominated(o) then o.spend == 0 else o.qty == 0
  }

  predicate ValidTick(tick: nat) {
    1 <= tick <= 99
  }
}
