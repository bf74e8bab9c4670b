/** Decimal conversion between the two sides of a Stargate route, and the quotes
    built on it. Stargate moves whole shared units: converting a source amount
    drops the dust, asking for a destination amount rounds up. */
module StargateAmounts {
  import opened Decimal
  import opened Wrappers

  function Pow10(n: nat): (p: nat)
    ensures p >= 1
  {
    if n == 0 then 1 else 10 * Pow10(n - 1)
  }

  function Zeros(n: nat): Text { seq(n, _ => ZERO) }

  /** Written out, it is a one with `n` zeros. */
  lemma {:induction false} Pow10IsOneWithZeros(n: nat)
    ensures Numeral(Pow10(n)) == [ZERO + 1] + Zeros(n)
  {
    if n > 0 {
      Pow10IsOneWithZeros(n - 1);
      assert Pow10(n) / 10 == Pow10(n - 1) && Pow10(n) % 10 == 0;
      assert [ZERO + 1] + Zeros(n) == ([ZERO + 1] + Zeros(n - 1)) + [ZERO];
    }
  }

  datatype AmountError =
    | InvalidDecimals | NotPositive | OutputTooLow | FeeTooHigh | IntentExpired | OutputAboveInput
    | AssetMismatch | InputAboveCeiling | QuoteExpired | QuoteOutlivesIntent | WrongRecipient

  /** How many atomic units of a token make one shared unit. */
  function ConversionRate(localDecimals: nat, sharedDecimals: nat): Result<nat, AmountError> {
    if localDecimals < sharedDecimals then Err(InvalidDecimals) else Ok(Pow10(localDecimals - sharedDecimals))
  }

  datatype Asset = Asset(network: nat, token: nat, decimals: nat)

  datatype Route = Route(source: Asset, destination: Asset, sharedDecimals: nat)

  predicate IsRoute(route: Route) {
    route.sharedDecimals <= route.source.decimals && route.sharedDecimals <= route.destination.decimals
  }

  function SourceToDestination(route: Route, amount: nat): Result<nat, AmountError> {
    var source := ConversionRate(route.source.decimals, route.sharedDecimals);
    var destination := ConversionRate(route.destination.decimals, route.sharedDecimals);
    if source.Err? || destination.Err? then Err(InvalidDecimals)
    else Ok(Times(FloorUnits(amount, source.value), destination.value))
  }

  function DestinationToSourceCeil(route: Route, amount: nat): Result<nat, AmountError> {
    var source := ConversionRate(route.source.decimals, route.sharedDecimals);
    var destination := ConversionRate(route.destination.decimals, route.sharedDecimals);
    if source.Err? || destination.Err? then Err(InvalidDecimals)
    else Ok(Times(CeilUnits(amount, destination.value), source.value))
  }

  function FloorUnits(amount: nat, rate: nat): nat
    requires rate >= 1
  {
    amount / rate
  }

  function CeilUnits(amount: nat, rate: nat): nat
    requires rate >= 1
  {
    (amount + rate - 1) / rate
  }

  function Times(units: nat, rate: nat): nat {
    units * rate
  }

  /** A shared unit is one with as many zeros as the token has decimals beyond the
      shared ones, and a token with fewer has none. */
  lemma RateIsOneWithZeros(localDecimals: nat, sharedDecimals: nat)
    ensures var rate := ConversionRate(localDecimals, sharedDecimals);
            if localDecimals < sharedDecimals then rate == Err(InvalidDecimals)
            else rate.Ok? && Numeral(rate.value) == [ZERO + 1] + Zeros(localDecimals - sharedDecimals)
  {
    if localDecimals >= sharedDecimals { Pow10IsOneWithZeros(localDecimals - sharedDecimals); }
  }

  /** The deployed route, six decimals to eighteen over six shared: an amount is the
      same number of coins on either side. */
  lemma DeployedRouteKeepsCoins(route: Route, amount: nat)
    requires route.source.decimals == 6 && route.destination.decimals == 18 && route.sharedDecimals == 6
    ensures SourceToDestination(route, amount) == Ok(amount * 1_000_000_000_000)
    ensures DestinationToSourceCeil(route, amount * 1_000_000_000_000) == Ok(amount)
  {
    assert Pow10(0) == 1;
    assert Pow10(4) == 10_000;
    assert Pow10(8) == 100_000_000;
    assert Pow10(12) == 1_000_000_000_000;
    WholeUnits(amount, 1_000_000_000_000);
    WholeUnits(amount, 1);
  }

  // ---------------------------------------------------------------- rounding

  lemma FloorAdjunction(s: nat, rate: nat, units: nat)
    requires rate >= 1
    ensures FloorUnits(s, rate) >= units <==> s >= Times(units, rate)
  {
    var q := s / rate;
    assert q * rate <= s < (q + 1) * rate;
    if q >= units {
      MulMonotone(units, q, rate);
    } else {
      MulMonotone(q + 1, units, rate);
    }
  }

  lemma CeilAdjunction(d: nat, rate: nat, units: nat)
    requires rate >= 1
    ensures Times(units, rate) >= d <==> units >= CeilUnits(d, rate)
  {
    var c := (d + rate - 1) / rate;
    assert c * rate <= d + rate - 1 < (c + 1) * rate;
    assert (c + 1) * rate == c * rate + rate;
    if units >= c {
      MulMonotone(c, units, rate);
    } else {
      MulMonotone(units + 1, c, rate);
      assert (units + 1) * rate == units * rate + rate;
    }
  }

  lemma MulMonotone(a: nat, b: nat, rate: nat)
    requires a <= b
    ensures a * rate <= b * rate
  {
  }

  /** The two conversions are adjoint: a source amount covers a destination amount
      exactly when it is at least the rounded-up conversion back. */
  lemma ConversionsAreAdjoint(route: Route, s: nat, d: nat)
    requires IsRoute(route)
    ensures SourceToDestination(route, s).Ok? && DestinationToSourceCeil(route, d).Ok?
    ensures SourceToDestination(route, s).value >= d <==> s >= DestinationToSourceCeil(route, d).value
  {
    hide FloorUnits, CeilUnits, Times;
    var source := Pow10(route.source.decimals - route.sharedDecimals);
    var destination := Pow10(route.destination.decimals - route.sharedDecimals);
    CeilAdjunction(d, destination, FloorUnits(s, source));
    FloorAdjunction(s, source, CeilUnits(d, destination));
  }

  /** So the minimum sent on chain is exactly the least source amount that covers
      the ceiling on the other side. */
  lemma MinimumIsLeastCoveringAmount(route: Route, ceiling: nat)
    requires IsRoute(route)
    ensures var minimum := DestinationToSourceCeil(route, ceiling);
            && minimum.Ok?
            && SourceToDestination(route, minimum.value).value >= ceiling
            && forall s: nat :: s < minimum.value ==> SourceToDestination(route, s).value < ceiling
  {
    hide FloorUnits, CeilUnits, Times;
    var minimum := DestinationToSourceCeil(route, ceiling).value;
    ConversionsAreAdjoint(route, minimum, ceiling);
    forall s: nat | s < minimum ensures SourceToDestination(route, s).value < ceiling {
      ConversionsAreAdjoint(route, s, ceiling);
    }
  }

  /** Converting there and back loses less than one shared unit of the source;
      covering a destination amount overshoots it by less than one. */
  lemma DustIsBelowOneUnit(route: Route, s: nat, d: nat)
    requires IsRoute(route)
    ensures var back := DestinationToSourceCeil(route, SourceToDestination(route, s).value).value;
            0 <= s - back < Pow10(route.source.decimals - route.sharedDecimals)
    ensures var over := SourceToDestination(route, DestinationToSourceCeil(route, d).value).value;
            0 <= over - d < Pow10(route.destination.decimals - route.sharedDecimals)
  {
    hide FloorUnits, CeilUnits, Times;
    var source := Pow10(route.source.decimals - route.sharedDecimals);
    var destination := Pow10(route.destination.decimals - route.sharedDecimals);
    FloorDust(s, source);
    WholeUnits(FloorUnits(s, source), destination);
    CeilDust(d, destination);
    WholeUnits(CeilUnits(d, destination), source);
  }

  lemma FloorDust(s: nat, rate: nat)
    requires rate >= 1
    ensures 0 <= s - Times(FloorUnits(s, rate), rate) < rate
  {
  }

  lemma CeilDust(d: nat, rate: nat)
    requires rate >= 1
    ensures 0 <= Times(CeilUnits(d, rate), rate) - d < rate
  {
    FloorDust(d + rate - 1, rate);
  }

  /** Whole shared units convert without loss, whichever way the dust is rounded. */
  lemma WholeUnits(units: nat, rate: nat)
    requires rate >= 1
    ensures FloorUnits(Times(units, rate), rate) == CeilUnits(Times(units, rate), rate) == units
  {
    hide FloorUnits, CeilUnits;
    FloorAdjunction(units * rate, rate, units);
    FloorAdjunction(units * rate, rate, units + 1);
    CeilAdjunction(units * rate, rate, units);
    if units > 0 {
      CeilAdjunction(units * rate, rate, units - 1);
    }
  }

  // ---------------------------------------------------------------- quotes

  /** What the run may spend on either side, and until when. */
  datatype Intent = Intent(
    runId: string,
    funding: Asset,
    target: Asset,
    payer: nat,
    maximumIn: nat,
    maximumOut: nat,
    expiresAt: int)

  datatype BridgeQuote = BridgeQuote(
    sourceAsset: Asset,
    destinationAsset: Asset,
    destinationPayer: nat,
    amountIn: nat,
    minimumOut: nat,
    quotedOut: nat,
    fee: nat,
    nativeFee: nat,
    expiresAt: int)

  predicate IsIntent(intent: Intent) {
    intent.maximumIn > 0 && intent.maximumOut > 0 && intent.funding.network != intent.target.network
  }

  function Min(a: int, b: int): int { if a < b then a else b }

  /** The adapter's quote, from what the chain answered for the full input. */
  function Quote(route: Route, intent: Intent, received: nat, nativeFee: nat, maxNativeFee: nat, now: int, ttl: int)
    : Result<BridgeQuote, AmountError>
  {
    if intent.funding != route.source || intent.target != route.destination then Err(AssetMismatch)
    else if received == 0 then Err(NotPositive)
    else
      var out := SourceToDestination(route, received);
      if out.Err? then Err(out.error)
      else if out.value < intent.maximumOut then Err(OutputTooLow)
      else if nativeFee > maxNativeFee then Err(FeeTooHigh)
      else
        var expiresAt := Min(now + ttl, intent.expiresAt);
        if expiresAt <= now then Err(IntentExpired)
        else if intent.maximumIn < received then Err(OutputAboveInput)
        else
          Ok(BridgeQuote(route.source, route.destination, intent.payer, intent.maximumIn, intent.maximumOut,
                         out.value, intent.maximumIn - received, nativeFee, expiresAt))
  }

  /** The guard before any bridge signature is requested. */
  function AssertPayable(intent: Intent, quote: BridgeQuote, now: int): Result<(), AmountError> {
    if quote.amountIn == 0 || quote.minimumOut == 0 then Err(NotPositive)
    else if intent.funding != quote.sourceAsset || intent.target != quote.destinationAsset then Err(AssetMismatch)
    else if quote.amountIn > intent.maximumIn then Err(InputAboveCeiling)
    else if quote.minimumOut < intent.maximumOut then Err(OutputTooLow)
    else if quote.expiresAt <= now then Err(QuoteExpired)
    else if quote.expiresAt > intent.expiresAt then Err(QuoteOutlivesIntent)
    else Ok(())
  }

  /** Everything `submit` checks before it claims the key. */
  function AssertSubmittable(route: Route, intent: Intent, quote: BridgeQuote, now: int): Result<(), AmountError> {
    if intent.funding != route.source || intent.target != route.destination then Err(AssetMismatch)
    else
      var payable := AssertPayable(intent, quote, now);
      if payable.Err? then payable
      else if quote.destinationPayer != intent.payer then Err(WrongRecipient)
      else if quote.quotedOut == 0 then Err(NotPositive)
      else Ok(())
  }

  /** A quote may be submitted exactly while it is fresh, if it spends at most the
      customer's ceiling, asks for at least the target's and delivers to the payer. */
  lemma SubmittableQuotesAreBounded(route: Route, intent: Intent, quote: BridgeQuote, now: int)
    ensures AssertSubmittable(route, intent, quote, now).Ok? <==>
              && intent.funding == route.source == quote.sourceAsset
              && intent.target == route.destination == quote.destinationAsset
              && 0 < quote.amountIn <= intent.maximumIn
              && 0 < quote.minimumOut && intent.maximumOut <= quote.minimumOut
              && quote.destinationPayer == intent.payer && 0 < quote.quotedOut
              && now < quote.expiresAt <= intent.expiresAt
  {
  }

  /** A quote is issued exactly when the route is the intent's, the input the chain
      would accept covers the target's ceiling and no more than the intent spends,
      the fee is within its limit and there is time left. It spends the whole
      ceiling, is good until the earlier of its own time and the intent's, and the
      adapter accepts it for submission while it is fresh. */
  lemma IssuedQuotesArePayable(
      route: Route, intent: Intent, received: nat, nativeFee: nat, maxNativeFee: nat, now: int, ttl: int, later: int)
    requires IsRoute(route) && IsIntent(intent) && now <= later
    ensures var quote := Quote(route, intent, received, nativeFee, maxNativeFee, now, ttl);
            && (quote.Ok? <==>
                  && intent.funding == route.source && intent.target == route.destination
                  && 0 < received <= intent.maximumIn
                  && DestinationToSourceCeil(route, intent.maximumOut).value <= received
                  && nativeFee <= maxNativeFee && ttl > 0 && now < intent.expiresAt)
            && (quote.Ok? ==>
                  && (AssertSubmittable(route, intent, quote.value, later).Ok? <==> later < quote.value.expiresAt)
                  && quote.value.minimumOut == intent.maximumOut <= quote.value.quotedOut
                  && quote.value.amountIn == intent.maximumIn == quote.value.fee + received
                  && quote.value.nativeFee == nativeFee
                  && quote.value.expiresAt <= now + ttl && quote.value.expiresAt <= intent.expiresAt
                  && quote.value.expiresAt in {now + ttl, intent.expiresAt})
  {
    ConversionsAreAdjoint(route, received, intent.maximumOut);
  }
}
