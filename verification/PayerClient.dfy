/** The payer's side of the 402 negotiation on the home chain. */
module PayerClient {
  import opened Decimal
  import opened ExactEvm
  import opened Wrappers

  /** One `accepts` entry: its scheme, the chain its network names if it is an EVM
      one, and its terms if they parse. */
  datatype Offer = Offer(scheme: string, chainId: Option<nat>, terms: Option<Terms>)

  /** What the endpoint answered; `accepts` is None when the body is not JSON. */
  datatype Challenge = Challenge(status: int, accepts: Option<seq<Offer>>)

  datatype NegotiationError =
    | UnexpectedStatus | MalformedChallenge | NoAccepts | NoPayableRequirement | AmountOverBudget | InvalidWindow

  predicate IsParsed(offer: Offer) {
    offer.terms.Some? ==> IsSignable(offer.terms.value) && offer.terms.value.network == offer.chainId
  }

  predicate AreParsed(accepts: seq<Offer>) {
    forall k :: 0 <= k < |accepts| ==> IsParsed(accepts[k])
  }

  /** Offered as an exact payment on the payer's chain in a token it may spend. */
  predicate IsPayable(offer: Offer, chainId: nat, allowed: seq<nat>) {
    && offer.scheme == EXACT && offer.chainId == Some(chainId)
    && offer.terms.Some? && offer.terms.value.asset in allowed
  }

  /** The first entry that is payable here. */
  method SelectExactEvmRequirements(accepts: seq<Offer>, chainId: nat, allowed: seq<nat>) returns (selected: Option<Terms>)
    requires AreParsed(accepts)
    ensures selected.None? <==> NonePayable(accepts, |accepts|, chainId, allowed)
    ensures selected.Some? ==>
              exists k :: 0 <= k < |accepts| && IsFirstPayable(accepts, k, chainId, allowed)
                          && accepts[k].terms == selected
    ensures selected.Some? ==> IsSignable(selected.value)
  {
    for k := 0 to |accepts|
      invariant forall j :: 0 <= j < k ==> !IsPayable(accepts[j], chainId, allowed)
    {
      if accepts[k].scheme != EXACT { continue; }
      if accepts[k].chainId != Some(chainId) { continue; }
      if accepts[k].terms.None? { continue; }
      if accepts[k].terms.value.asset !in allowed { continue; }
      assert IsFirstPayable(accepts, k, chainId, allowed) && IsParsed(accepts[k]);
      return accepts[k].terms;
    }
    return None;
  }

  /** Whatever the first `n` entries offer for exact payment on the chain is in a
      token that the payer may not spend. */
  predicate NonePayable(accepts: seq<Offer>, n: nat, chainId: nat, allowed: seq<nat>)
    requires n <= |accepts|
  {
    forall k | 0 <= k < n && accepts[k].scheme == "exact" && accepts[k].chainId == Some(chainId) && accepts[k].terms.Some? ::
      accepts[k].terms.value.asset !in allowed
  }

  predicate IsFirstPayable(accepts: seq<Offer>, k: nat, chainId: nat, allowed: seq<nat>)
    requires k < |accepts|
  {
    && accepts[k].scheme == "exact" && accepts[k].chainId == Some(chainId)
    && accepts[k].terms.Some? && accepts[k].terms.value.asset in allowed
    && NonePayable(accepts, k, chainId, allowed)
  }

  lemma FirstPayableIsUnique(accepts: seq<Offer>, j: nat, k: nat, chainId: nat, allowed: seq<nat>)
    requires j < |accepts| && k < |accepts|
    requires IsFirstPayable(accepts, j, chainId, allowed) && IsFirstPayable(accepts, k, chainId, allowed)
    ensures j == k
  {
  }

  /** Nothing is signed but the first payable entry, for exactly its price and
      window, and only within the ceiling; and that is signed. */
  method AcquireExactEvmPayment(challenge: Challenge, maxAmount: nat, chainId: nat, allowed: seq<nat>,
                                from: nat, nonce: nat, validAfter: nat, validBefore: nat)
    returns (payment: Result<Header, NegotiationError>)
    requires challenge.accepts.Some? ==> AreParsed(challenge.accepts.value)
    ensures payment == Err(UnexpectedStatus) <==> challenge.status != 402
    ensures payment == Err(MalformedChallenge) <==> challenge.status == 402 && challenge.accepts.None?
    ensures payment == Err(NoAccepts) <==> challenge.status == 402 && challenge.accepts == Some([])
    ensures payment == Err(NoPayableRequirement) <==>
              && challenge.status == 402 && challenge.accepts.Some? && challenge.accepts.value != []
              && NonePayable(challenge.accepts.value, |challenge.accepts.value|, chainId, allowed)
    ensures challenge.status == 402 && challenge.accepts.Some? ==>
              forall k :: 0 <= k < |challenge.accepts.value|
                          && IsFirstPayable(challenge.accepts.value, k, chainId, allowed) ==>
                var terms := challenge.accepts.value[k].terms.value;
                && IsParsed(challenge.accepts.value[k])
                && (payment == Err(AmountOverBudget) <==> maxAmount < ValueOf(terms.amount))
                && (payment == Err(InvalidWindow) <==> ValueOf(terms.amount) <= maxAmount && validBefore <= validAfter)
                && (payment.Ok? ==> Pays(payment.value, terms, maxAmount, from, nonce)
                                    && payment.value.authorization.validAfter == validAfter
                                    && payment.value.authorization.validBefore == validBefore)
  {
    if challenge.status != 402 { return Err(UnexpectedStatus); }
    if challenge.accepts.None? { return Err(MalformedChallenge); }
    if challenge.accepts.value == [] { return Err(NoAccepts); }
    var selected := SelectExactEvmRequirements(challenge.accepts.value, chainId, allowed);
    forall j, k | 0 <= j < |challenge.accepts.value| && 0 <= k < |challenge.accepts.value|
                  && IsFirstPayable(challenge.accepts.value, j, chainId, allowed)
                  && IsFirstPayable(challenge.accepts.value, k, chainId, allowed)
      ensures j == k
    {
      FirstPayableIsUnique(challenge.accepts.value, j, k, chainId, allowed);
    }
    if selected.None? { return Err(NoPayableRequirement); }
    if ValueOf(selected.value.amount) > maxAmount { return Err(AmountOverBudget); }
    var header := SignAuthorization(selected.value, from, nonce, validAfter, validBefore);
    return if header.None? then Err(InvalidWindow) else Ok(header.value);
  }

  /** The header authorizes the price, to the payee, in the asset, under this nonce,
      and for nobody else's account. */
  predicate Pays(header: Header, terms: Terms, maxAmount: nat, from: nat, nonce: nat) {
    && IsSignable(terms) && IsDecoded(header)
    && ValueOf(header.authorization.value) == ValueOf(terms.amount) <= maxAmount
    && header.authorization.to == terms.payTo && header.authorization.from == from && header.authorization.nonce == nonce
    && Recover(header.signature, DomainOf(terms), MessageOf(header.authorization)) == Some(from)
  }

  /** Such a header is what the token moves when it settles: the price and no more,
      from the payer to the payee, once. */
  lemma PaymentMovesThePrice(header: Header, terms: Terms, maxAmount: nat, from: nat, nonce: nat, token: Token, ts: nat)
    requires Pays(header, terms, maxAmount, from, nonce) && token.domain == DomainOf(terms)
    requires Transferred(token, ts, MessageOf(header.authorization), header.signature).Ok? && from != terms.payTo
    ensures var after := Transferred(token, ts, MessageOf(header.authorization), header.signature).value;
            && BalanceOf(after, terms.payTo) == BalanceOf(token, terms.payTo) + ValueOf(terms.amount)
            && BalanceOf(after, from) == BalanceOf(token, from) - ValueOf(terms.amount)
            && (forall other :: other != from && other != terms.payTo ==> BalanceOf(after, other) == BalanceOf(token, other))
            && after.used == token.used + {(from, nonce)} && (from, nonce) !in token.used
  {
  }
}
