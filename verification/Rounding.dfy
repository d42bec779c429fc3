/** Ceiling and floor arithmetic on lots, ticks (hundredths) and money units. */
module Rounding {

  const U64: nat := 0x1_0000_0000_0000_0000

  /** The ceiling of a * b / 100, the price of `a` lots at `b` hundredths. */
  function Cost(lots: nat, tick: nat): nat {
    (lots * tick + 99) / 100
  }

  /** The most lots that `spend` pays for at `tick`; a zero tick buys nothing. */
  function LotsFor(spend: nat, tick: nat): nat {
    if tick == 0 then 0 else (spend * 100) / tick
  }

  /** `ceilMulDiv` as the machine runs it: product and sum both wrap at 64 bits. */
  function CeilMulDiv64(a: nat, b: nat, div: nat): nat
    requires div > 0
  {
    if a == 0 || b == 0 then 0
    else
      var product := (a * b) % U64;
      ((product + div - 1) % U64) / div
  }

  lemma CostBounds(lots: nat, tick: nat)
    ensures lots * tick <= 100 * Cost(lots, tick) <= lots * tick + 99
  {
  }

  /** The machine result is the true ceiling on exactly the inputs whose rounded-up product fits in 64 bits. */
  lemma MachineCostExactIff(lots: nat, tick: nat)
    ensures CeilMulDiv64(lots, tick, 100) == Cost(lots, tick) <==> lots * tick + 99 < U64
  {
    var x := lots * tick;
    if lots == 0 || tick == 0 {
      assert x == 0;
    } else {
      assert x > 0;
      if x + 99 < U64 {
        assert x % U64 == x;
      } else if x < U64 {
        assert x % U64 == x;
        assert (x + 99) % U64 == x + 99 - U64;
      } else {
        assert (x % U64 + 99) % U64 <= x % U64 + 99;
        assert x % U64 + U64 <= x;
      }
    }
  }

  /** Spending everything that is left on whole lots costs exactly everything that is left. */
  lemma SpendRoundTrip(spend: nat, tick: nat)
    requires 1 <= tick <= 99
    ensures Cost(LotsFor(spend, tick), tick) == spend
    ensures spend > 0 ==> LotsFor(spend, tick) > 0
  {
    var lots := LotsFor(spend, tick);
    assert lots * tick + (spend * 100) % tick == spend * 100;
  }

  /** If clearing a maker costs more than what is left, what is left buys strictly fewer lots than the maker has. */
  lemma PartialBelowMaker(spend: nat, makerLots: nat, tick: nat)
    requires 1 <= tick <= 99
    requires spend < Cost(makerLots, tick)
    ensures LotsFor(spend, tick) < makerLots
  {
    var lots := LotsFor(spend, tick);
    assert lots * tick + (spend * 100) % tick == spend * 100;
    CostBounds(makerLots, tick);
    assert spend * 100 < makerLots * tick;
    if makerLots <= lots {
      MulMonotone(makerLots, lots, tick);
    }
  }

  lemma MulMonotone(x: nat, y: nat, m: nat)
    requires x <= y
    ensures x * m <= y * m
  {
  }

  lemma CostMonotone(lots: nat, low: nat, high: nat)
    requires low <= high
    ensures Cost(lots, low) <= Cost(lots, high)
  {
    MulMonotone(low, high, lots);
  }

  /** Any positive number of lots costs at least one unit. */
  lemma CostPositive(lots: nat, tick: nat)
    ensures Cost(lots, tick) > 0 <==> lots > 0 && tick > 0
  {
    if lots > 0 && tick > 0 {
      assert lots * tick > 0;
    } else {
      assert lots * tick == 0;
    }
  }

  /** A complete set of `lots` YES and `lots` NO costs `lots` units, plus one when the split is not even. */
  lemma ComplementCost(lots: nat, tick: nat)
    requires tick <= 100
    ensures Cost(lots, tick) + Cost(lots, 100 - tick)
         == lots + (if (lots * tick) % 100 == 0 then 0 else 1)
  {
    var x := lots * tick;
    assert lots * (100 - tick) == 100 * lots - x;
    assert x == 100 * (x / 100) + x % 100;
    MulMonotone(tick, 100, lots);
    assert lots * tick <= 100 * lots;
  }

  // ----- One order split into parts -----

  /** How far `lots` at `tick` are from the next whole unit, in hundredths. */
  function Slack(lots: nat, tick: nat): nat {
    (100 - lots * tick % 100) % 100
  }

  /** It is just the part of the last unit that is charged and not used. */
  lemma SlackIsUnused(lots: nat, tick: nat)
    ensures Slack(lots, tick) == 100 * Cost(lots, tick) - lots * tick <= 99
  {
    var x := lots * tick;
    assert x == 100 * (x / 100) + x % 100;
  }

  function Sum(parts: seq<nat>): nat {
    if parts == [] then 0 else parts[0] + Sum(parts[1..])
  }

  function SumCost(parts: seq<nat>, tick: nat): nat {
    if parts == [] then 0 else Cost(parts[0], tick) + SumCost(parts[1..], tick)
  }

  function SumSlack(parts: seq<nat>, tick: nat): nat {
    if parts == [] then 0 else Slack(parts[0], tick) + SumSlack(parts[1..], tick)
  }

  lemma {:induction false} SlackAccounts(parts: seq<nat>, tick: nat)
    ensures SumSlack(parts, tick) == 100 * SumCost(parts, tick) - Sum(parts) * tick
    ensures SumSlack(parts, tick) <= 99 * |parts|
  {
    if parts != [] {
      SlackAccounts(parts[1..], tick);
      SlackIsUnused(parts[0], tick);
      assert (parts[0] + Sum(parts[1..])) * tick == parts[0] * tick + Sum(parts[1..]) * tick;
    }
  }

  /**
   * A limit buy of Sum(parts) lots is reserved once and then leaves its lock in parts. The parts together
   * take at least the reserve and at most one unit more for every part after the first.
   */
  lemma SplitTakesReserve(parts: seq<nat>, tick: nat)
    requires parts != []
    ensures Cost(Sum(parts), tick) <= SumCost(parts, tick) <= Cost(Sum(parts), tick) + |parts| - 1
  {
    SlackAccounts(parts, tick);
    CostBounds(Sum(parts), tick);
  }

  /** The parts take exactly the reserve if and only if what each is short of a whole unit adds up to less than one. */
  lemma SplitIsExactIff(parts: seq<nat>, tick: nat)
    requires parts != []
    ensures SumCost(parts, tick) == Cost(Sum(parts), tick) <==> SumSlack(parts, tick) < 100
  {
    SlackAccounts(parts, tick);
    CostBounds(Sum(parts), tick);
  }

  /** The upper bound is reached: up to a hundred one-lot parts at one hundredth share one reserved unit. */
  lemma SplitOvershoots(count: nat)
    requires 1 <= count <= 100
    ensures var parts := seq(count, _ => 1);
      SumCost(parts, 1) == Cost(Sum(parts), 1) + |parts| - 1
  {
    OneLotParts(count);
  }

  lemma {:induction false} OneLotParts(count: nat)
    ensures Sum(seq(count, _ => 1)) == count == SumCost(seq(count, _ => 1), 1)
  {
    if count > 0 {
      OneLotParts(count - 1);
      assert seq(count, _ => 1)[1..] == seq(count - 1, _ => 1);
    }
  }
}
