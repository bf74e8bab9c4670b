/** The price of a run: pass-through costs and Shipyard's share of the total. */
module QuoteEngine {
  import opened Wrappers

  const FULL_RATE := 10000

  datatype Pricing = Pricing(
    feeRateBps: int,
    mandatoryToolBudget: nat,
    dynamicToolBudget: nat,
    modelInfrastructureReserve: nat,
    chainStorageReserve: nat,
    riskSupportReserve: nat,
    quoteTtlSeconds: int)

  datatype LineItems = LineItems(
    orchestrationFee: nat,
    mandatoryToolBudget: nat,
    dynamicToolBudget: nat,
    modelInfrastructureReserve: nat,
    chainStorageReserve: nat,
    riskSupportReserve: nat)

  datatype Quote = Quote(lineItems: LineItems, total: nat, refundableToolBudget: nat, createdAt: int, expiresAt: int)

  /** What the engine's constructor lets through. */
  predicate IsPricing(p: Pricing) {
    0 < p.feeRateBps < FULL_RATE && 60 <= p.quoteTtlSeconds <= 86400
  }

  function PassThroughCosts(p: Pricing): seq<nat> {
    [p.mandatoryToolBudget, p.dynamicToolBudget, p.modelInfrastructureReserve, p.chainStorageReserve, p.riskSupportReserve]
  }

  function Sum(values: seq<nat>): nat {
    if values == [] then 0 else Sum(values[..|values| - 1]) + values[|values| - 1]
  }

  /** Solves fee / (fee + costs) = rate / 10000 for the fee, rounded down. */
  function Fee(costs: nat, rate: int): nat
    requires 0 < rate < FULL_RATE
  {
    costs * rate / (FULL_RATE - rate)
  }

  /** None when the total exceeds what the customer allows. Times are in milliseconds. */
  method CreateQuote(p: Pricing, maximumBudget: nat, now: int) returns (quote: Option<Quote>)
    requires IsPricing(p)
    ensures var costs := Sum(PassThroughCosts(p));
            quote.Some? <==> costs + Fee(costs, p.feeRateBps) <= maximumBudget
    ensures quote.Some? ==>
              && quote.value.total == Sum(Listed(quote.value.lineItems)) <= maximumBudget
              && Listed(quote.value.lineItems)[1..] == PassThroughCosts(p)
              && quote.value.lineItems.orchestrationFee == Fee(Sum(PassThroughCosts(p)), p.feeRateBps)
              && quote.value.lineItems.orchestrationFee == p.feeRateBps * quote.value.total / 10_000
              && quote.value.refundableToolBudget == p.mandatoryToolBudget + p.dynamicToolBudget <= quote.value.total
              && quote.value.createdAt == now && quote.value.expiresAt == now + p.quoteTtlSeconds * 1000
              && now + 60_000 <= quote.value.expiresAt <= now + 86_400_000
  {
    var costs := PassThroughCosts(p);
    var passThrough := 0;
    for k := 0 to |costs|
      invariant passThrough == Sum(costs[..k])
    {
      passThrough := passThrough + costs[k];
      assert costs[..k + 1][..k] == costs[..k];
    }
    assert costs[..|costs|] == costs;
    var fee := Fee(passThrough, p.feeRateBps);
    var total := passThrough + fee;
    if total > maximumBudget { return None; }
    var items := LineItems(fee, p.mandatoryToolBudget, p.dynamicToolBudget, p.modelInfrastructureReserve,
                           p.chainStorageReserve, p.riskSupportReserve);
    assert Listed(items) == [fee] + costs;
    SumAppend([fee], costs);
    RefundableIsPart(p);
    FeeIsFixedPoint(passThrough, p.feeRateBps);
    return Some(Quote(items, total, p.mandatoryToolBudget + p.dynamicToolBudget, now, now + p.quoteTtlSeconds * 1000));
  }

  function Listed(items: LineItems): seq<nat> {
    [items.orchestrationFee, items.mandatoryToolBudget, items.dynamicToolBudget, items.modelInfrastructureReserve,
     items.chainStorageReserve, items.riskSupportReserve]
  }

  lemma {:induction false} SumAppend(a: seq<nat>, b: seq<nat>)
    ensures Sum(a + b) == Sum(a) + Sum(b)
  {
    if b == [] {
      assert a + b == a;
    } else {
      assert (a + b)[..|a + b| - 1] == a + b[..|b| - 1];
      SumAppend(a, b[..|b| - 1]);
    }
  }

  lemma RefundableIsPart(p: Pricing)
    ensures p.mandatoryToolBudget + p.dynamicToolBudget <= Sum(PassThroughCosts(p))
  {
    var costs := PassThroughCosts(p);
    assert costs == [p.mandatoryToolBudget, p.dynamicToolBudget] + costs[2..];
    SumAppend([p.mandatoryToolBudget, p.dynamicToolBudget], costs[2..]);
    assert [p.mandatoryToolBudget, p.dynamicToolBudget][..1] == [p.mandatoryToolBudget];
    assert [p.mandatoryToolBudget][..0] == [];
    assert Sum([p.mandatoryToolBudget]) == p.mandatoryToolBudget;
  }

  // ---------------------------------------------------------------- the fee

  /** A fee is within the rate exactly when it is at most the computed one: its
      share of the total it brings about does not exceed the rate. */
  lemma FeeIsGreatestWithinRate(costs: nat, rate: int, fee: nat)
    requires 0 < rate < FULL_RATE
    ensures fee * FULL_RATE <= rate * (costs + fee) <==> fee <= Fee(costs, rate)
  {
    var divisor := FULL_RATE - rate;
    var quotient := costs * rate / divisor;
    assert quotient * divisor <= costs * rate < (quotient + 1) * divisor;
    assert rate * (costs + fee) == costs * rate + rate * fee;
    assert fee * FULL_RATE == fee * divisor + rate * fee;
    if fee <= quotient {
      Monotone(fee, quotient, divisor);
    } else {
      Monotone(quotient + 1, fee, divisor);
    }
  }

  lemma Monotone(a: nat, b: nat, factor: nat)
    requires a <= b
    ensures a * factor <= b * factor
  {
  }

  /** The fee is a fixed point: it is the rate's share of the very total it is part
      of, rounded down. */
  lemma FeeIsFixedPoint(costs: nat, rate: int)
    requires 0 < rate < FULL_RATE
    ensures Fee(costs, rate) == rate * (costs + Fee(costs, rate)) / FULL_RATE
  {
    var fee := Fee(costs, rate);
    FeeIsGreatestWithinRate(costs, rate, fee);
    FeeIsGreatestWithinRate(costs, rate, fee + 1);
    var share := rate * (costs + fee);
    assert rate * (costs + (fee + 1)) == share + rate;
    assert fee * FULL_RATE <= share < (fee + 1) * FULL_RATE;
  }

  /** Raising costs or the rate never lowers the fee or the total. */
  lemma FeeIsMonotone(costs: nat, rate: int, higherCosts: nat, higherRate: int)
    requires 0 < rate <= higherRate < FULL_RATE && costs <= higherCosts
    ensures Fee(costs, rate) <= Fee(higherCosts, higherRate)
    ensures costs + Fee(costs, rate) <= higherCosts + Fee(higherCosts, higherRate)
  {
    var fee := Fee(costs, rate);
    FeeIsGreatestWithinRate(costs, rate, fee);
    FeeIsGreatestWithinRate(higherCosts, higherRate, fee);
    Monotone(rate, higherRate, costs + fee);
    assert higherRate * (costs + fee) == (costs + fee) * higherRate;
    Monotone(costs + fee, higherCosts + fee, higherRate);
  }
}
