/** The x402 `exact` scheme on EVM chains: signing and checking a payment, and the
    EIP-3009 token that settles it. A signature is modelled by what was signed and
    by whom, so recovery is the inverse of signing. */
module ExactEvm {
  import opened Wrappers
  import opened Decimal

  datatype Domain = Domain(name: string, version: string, chainId: nat, verifyingContract: nat)

  /** What a resource server advertises for its paid route. */
  datatype Terms = Terms(network: Option<nat>, amount: Text, payTo: nat, asset: nat, name: string, version: string)

  /** The value keeps the spelling it arrived in. */
  datatype Authorization = Authorization(
    from: nat, to: nat, value: Text, validAfter: nat, validBefore: nat, nonce: nat)

  datatype Message = Message(from: nat, to: nat, value: nat, validAfter: nat, validBefore: nat, nonce: nat)

  datatype Signature = Signature(signer: nat, domain: Domain, message: Message) | Garbage

  datatype Header = Header(scheme: string, network: Option<nat>, authorization: Authorization, signature: Signature)

  const EXACT := "exact"

  /** `decodePaymentHeader` only lets digits through. */
  predicate IsDecoded(header: Header) {
    header.scheme == EXACT && IsDigits(header.authorization.value)
  }

  /** `buildExactEvmRequirements` for a configured chain. */
  predicate IsTerms(terms: Terms) {
    terms.network.Some? && IsDigits(terms.amount) && ValueOf(terms.amount) > 0
  }

  function DomainOf(terms: Terms): Domain
    requires terms.network.Some?
  {
    Domain(terms.name, terms.version, terms.network.value, terms.asset)
  }

  function MessageOf(a: Authorization): Message
    requires IsDigits(a.value)
  {
    Message(a.from, a.to, ValueOf(a.value), a.validAfter, a.validBefore, a.nonce)
  }

  function Recover(signature: Signature, domain: Domain, message: Message): Option<nat> {
    if signature.Signature? && signature.domain == domain && signature.message == message
    then Some(signature.signer) else None
  }

  // ---------------------------------------------------------------- the payer

  /** What a payer can sign for, be it for nothing. */
  predicate IsSignable(terms: Terms) { terms.network.Some? && IsDigits(terms.amount) }

  /** The value is the advertised one, never the caller's. */
  function SignAuthorization(terms: Terms, from: nat, nonce: nat, validAfter: nat, validBefore: nat): (header: Option<Header>)
    requires IsSignable(terms)
    ensures header.Some? <==> validAfter < validBefore
    ensures header.Some? ==>
              var signed := header.value.signature;
              && signed.Signature? && signed.signer == from
              && signed.domain.name == terms.name && signed.domain.version == terms.version
              && Some(signed.domain.chainId) == terms.network && signed.domain.verifyingContract == terms.asset
  {
    if validBefore <= validAfter then None
    else
      var authorization := Authorization(from, terms.payTo, terms.amount, validAfter, validBefore, nonce);
      Some(Header(EXACT, terms.network, authorization,
                  Signature(from, DomainOf(terms), MessageOf(authorization))))
  }

  // ---------------------------------------------------------------- the server's check

  datatype FailureCode =
    | SchemeMismatch | NetworkMismatch | PayToMismatch | AmountMismatch | NotYetValid | Expired | SignatureMismatch

  predicate Fails(code: FailureCode, header: Header, terms: Terms, now: int)
    requires IsTerms(terms) && IsDecoded(header)
  {
    var a := header.authorization;
    match code
    case SchemeMismatch => header.scheme != EXACT
    case NetworkMismatch => header.network != terms.network
    case PayToMismatch => a.to != terms.payTo
    case AmountMismatch => a.value != terms.amount
    case NotYetValid => now < a.validAfter
    case Expired => now >= a.validBefore
    case SignatureMismatch =>
      // Not even looked at off network.
      header.network == terms.network && Recover(header.signature, DomainOf(terms), MessageOf(a)) != Some(a.from)
  }

  /** The order in which the checks report. */
  function Rank(code: FailureCode): nat {
    match code
    case SchemeMismatch => 0
    case NetworkMismatch => 1
    case PayToMismatch => 2
    case AmountMismatch => 3
    case NotYetValid => 4
    case Expired => 5
    case SignatureMismatch => 6
  }

  predicate IsInOrder(codes: seq<FailureCode>) {
    forall i, j :: 0 <= i < j < |codes| ==> Rank(codes[i]) < Rank(codes[j])
  }

  /** The header is one the advertised terms accept at `now`. */
  predicate Verifies(header: Header, terms: Terms, now: int) {
    && IsTerms(terms) && IsDecoded(header)
    && header.network == terms.network
    && header.authorization.to == terms.payTo
    && header.authorization.value == terms.amount
    && header.authorization.validAfter <= now < header.authorization.validBefore
    && header.signature == Signature(header.authorization.from, DomainOf(terms), MessageOf(header.authorization))
  }

  /** Exactly the failing checks with ranks from `low` up to `high`, in order. */
  ghost predicate Reports(codes: seq<FailureCode>, low: nat, high: nat, header: Header, terms: Terms, now: int)
    requires IsTerms(terms) && IsDecoded(header)
  {
    && IsInOrder(codes)
    && forall code :: code in codes <==> low <= Rank(code) < high && Fails(code, header, terms, now)
  }

  lemma JoinReports(a: seq<FailureCode>, b: seq<FailureCode>, low: nat, mid: nat, high: nat,
                    header: Header, terms: Terms, now: int)
    requires IsTerms(terms) && IsDecoded(header) && low <= mid <= high
    requires Reports(a, low, mid, header, terms, now) && Reports(b, mid, high, header, terms, now)
    ensures Reports(a + b, low, high, header, terms, now)
  {
    hide Fails, Rank, IsTerms, IsDecoded;
    var all := a + b;
    forall i, j | 0 <= i < j < |all| ensures Rank(all[i]) < Rank(all[j]) {
      assert i < |a| ==> all[i] in a;
      assert j >= |a| ==> all[j] in b;
    }
  }

  /** Each check is reported exactly when it fails, in order, and nothing is
      reported exactly for a payment that the terms accept now. */
  method VerifyExactEvmPayment(header: Header, terms: Terms, now: int) returns (failures: seq<FailureCode>)
    requires IsTerms(terms) && IsDecoded(header)
    ensures SchemeMismatch !in failures
    ensures NetworkMismatch in failures <==> header.network != terms.network
    ensures PayToMismatch in failures <==> header.authorization.to != terms.payTo
    ensures AmountMismatch in failures <==> header.authorization.value != terms.amount
    ensures NotYetValid in failures <==> now < header.authorization.validAfter
    ensures Expired in failures <==> header.authorization.validBefore <= now
    ensures SignatureMismatch in failures <==>
              && header.network == terms.network
              && header.signature != Signature(header.authorization.from, DomainOf(terms), MessageOf(header.authorization))
    ensures IsInOrder(failures)
    ensures failures == [] <==> Verifies(header, terms, now)
  {
    var onTerms := TermsFailures(header, terms, now);
    var onWindow := WindowFailures(header, terms, now);
    NetworkIsReported(onTerms, header, terms, now);
    var onSignature := SignatureFailures(NetworkMismatch in onTerms, header, terms, now);
    hide Fails, Rank, Verifies, IsTerms, IsDecoded, IsInOrder;
    failures := onTerms + onWindow + onSignature;
    JoinReports(onTerms, onWindow, 0, 4, 6, header, terms, now);
    JoinReports(onTerms + onWindow, onSignature, 0, 6, 7, header, terms, now);
    ReportsSayWhat(failures, header, terms, now);
  }

  lemma NetworkIsReported(codes: seq<FailureCode>, header: Header, terms: Terms, now: int)
    requires IsTerms(terms) && IsDecoded(header) && Reports(codes, 0, 4, header, terms, now)
    ensures NetworkMismatch in codes <==> header.network != terms.network
  {
    assert NetworkMismatch in codes <==> Fails(NetworkMismatch, header, terms, now);
  }

  lemma ReportsSayWhat(codes: seq<FailureCode>, header: Header, terms: Terms, now: int)
    requires IsTerms(terms) && IsDecoded(header) && Reports(codes, 0, 7, header, terms, now)
    ensures IsInOrder(codes) && SchemeMismatch !in codes
    ensures NetworkMismatch in codes <==> header.network != terms.network
    ensures PayToMismatch in codes <==> header.authorization.to != terms.payTo
    ensures AmountMismatch in codes <==> header.authorization.value != terms.amount
    ensures NotYetValid in codes <==> now < header.authorization.validAfter
    ensures Expired in codes <==> header.authorization.validBefore <= now
    ensures SignatureMismatch in codes <==>
              && header.network == terms.network
              && header.signature != Signature(header.authorization.from, DomainOf(terms), MessageOf(header.authorization))
    ensures codes == [] <==> Verifies(header, terms, now)
  {
    hide IsInOrder;
    assert forall code :: 0 <= Rank(code) < 7;
    if codes == [] {
      assert forall code :: code !in codes;
    } else {
      assert codes[0] in codes;
    }
  }

  method TermsFailures(header: Header, terms: Terms, now: int) returns (failures: seq<FailureCode>)
    requires IsTerms(terms) && IsDecoded(header)
    ensures Reports(failures, 0, 4, header, terms, now)
  {
    var a := header.authorization;
    failures := [];
    if header.scheme != EXACT { failures := failures + [SchemeMismatch]; }
    if header.network != terms.network { failures := failures + [NetworkMismatch]; }
    if a.to != terms.payTo { failures := failures + [PayToMismatch]; }
    if a.value != terms.amount { failures := failures + [AmountMismatch]; }
  }

  method WindowFailures(header: Header, terms: Terms, now: int) returns (failures: seq<FailureCode>)
    requires IsTerms(terms) && IsDecoded(header)
    ensures Reports(failures, 4, 6, header, terms, now)
  {
    failures := [];
    if now < header.authorization.validAfter { failures := failures + [NotYetValid]; }
    if now >= header.authorization.validBefore { failures := failures + [Expired]; }
  }

  /** The signer is not even recovered off network. */
  method SignatureFailures(offNetwork: bool, header: Header, terms: Terms, now: int) returns (failures: seq<FailureCode>)
    requires IsTerms(terms) && IsDecoded(header) && offNetwork == (header.network != terms.network)
    ensures Reports(failures, 6, 7, header, terms, now)
  {
    failures := [];
    if !offNetwork {
      var signer := Recover(header.signature, DomainOf(terms), MessageOf(header.authorization));
      if signer.None? || signer.value != header.authorization.from { failures := [SignatureMismatch]; }
    }
  }

  /** A payment that was signed for the terms verifies exactly inside its window. */
  lemma SignedPaymentVerifies(terms: Terms, from: nat, nonce: nat, validAfter: nat, validBefore: nat, now: int)
    requires IsTerms(terms)
    ensures var header := SignAuthorization(terms, from, nonce, validAfter, validBefore);
            (header.Some? && Verifies(header.value, terms, now)) <==> validAfter <= now < validBefore
  {
  }

  /** A signature binds everything it covers: two payments that one signature
      verifies for are the same payment, on the same token. */
  lemma SignatureBindsPayment(h: Header, g: Header, terms: Terms, others: Terms, now: int, later: int)
    requires Verifies(h, terms, now) && Verifies(g, others, later) && h.signature == g.signature
    ensures terms.asset == others.asset && terms.network == others.network
    ensures terms.name == others.name && terms.version == others.version
    ensures MessageOf(h.authorization) == MessageOf(g.authorization)
    ensures ValueOf(terms.amount) == ValueOf(others.amount) && terms.payTo == others.payTo
  {
  }

  // ---------------------------------------------------------------- the token

  datatype Revert =
    | AuthorizationNotYetValid | AuthorizationExpired | AuthorizationAlreadyUsed | InvalidAuthorizationSignature
    | InvalidReceiver | InsufficientBalance

  datatype Token = Token(domain: Domain, balances: map<nat, nat>, used: set<(nat, nat)>)

  function BalanceOf(token: Token, account: nat): nat {
    if account in token.balances then token.balances[account] else 0
  }

  function Moved(token: Token, from: nat, to: nat, value: nat): Token
    requires value <= BalanceOf(token, from)
  {
    var debited := token.balances[from := BalanceOf(token, from) - value];
    var credit := if to in debited then debited[to] else 0;
    token.(balances := debited[to := credit + value])
  }

  /** What `transferWithAuthorization` does at block time `ts`. */
  function Transferred(token: Token, ts: nat, m: Message, signature: Signature): Result<Token, Revert> {
    if ts <= m.validAfter then Err(AuthorizationNotYetValid)
    else if ts >= m.validBefore then Err(AuthorizationExpired)
    else if (m.from, m.nonce) in token.used then Err(AuthorizationAlreadyUsed)
    else if Recover(signature, token.domain, m) != Some(m.from) then Err(InvalidAuthorizationSignature)
    else if m.to == 0 then Err(InvalidReceiver)
    else if BalanceOf(token, m.from) < m.value then Err(InsufficientBalance)
    else Ok(Moved(token.(used := token.used + {(m.from, m.nonce)}), m.from, m.to, m.value))
  }

  class ShipyardTestToken {
    const domain: Domain
    var balances: map<nat, nat>
    var authorizationStates: set<(nat, nat)>

    constructor (domain: Domain)
      ensures State() == Token(domain, map[], {})
    {
      this.domain := domain;
      balances, authorizationStates := map[], {};
    }

    function State(): Token
      reads this
    {
      Token(domain, balances, authorizationStates)
    }

    function Balance(account: nat): nat
      reads this
    {
      if account in balances then balances[account] else 0
    }

    method Move(from: nat, to: nat, value: nat)
      requires value <= Balance(from)
      modifies this`balances
      ensures State() == Moved(old(State()), from, to, value)
    {
      balances := balances[from := Balance(from) - value];
      balances := balances[to := Balance(to) + value];
    }

    /** A revert leaves nothing behind. */
    method TransferWithAuthorization(ts: nat, m: Message, signature: Signature) returns (revert: Option<Revert>)
      modifies this
      ensures var result := Transferred(old(State()), ts, m, signature);
              if result.Ok? then revert.None? && State() == result.value
              else revert == Some(result.error) && State() == old(State())
    {
      if ts <= m.validAfter { return Some(AuthorizationNotYetValid); }
      if ts >= m.validBefore { return Some(AuthorizationExpired); }
      if (m.from, m.nonce) in authorizationStates { return Some(AuthorizationAlreadyUsed); }
      var signer := Recover(signature, domain, m);
      if signer != Some(m.from) { return Some(InvalidAuthorizationSignature); }
      if m.to == 0 { return Some(InvalidReceiver); }
      if Balance(m.from) < m.value { return Some(InsufficientBalance); }
      authorizationStates := authorizationStates + {(m.from, m.nonce)};
      Move(m.from, m.to, m.value);
      return None;
    }
  }

  /** The token settles an authorization exactly strictly inside its window, the
      first time, if its sender signed it for this token, pays somebody and has the
      money. */
  lemma SettlesExactlyWhen(token: Token, ts: nat, m: Message, signature: Signature)
    ensures Transferred(token, ts, m, signature).Ok? <==>
              && m.validAfter < ts < m.validBefore && (m.from, m.nonce) !in token.used
              && signature == Signature(m.from, token.domain, m)
              && m.to != 0 && m.value <= BalanceOf(token, m.from)
  {
  }

  /** Then the value has moved from the sender to the receiver and nowhere else, and
      the nonce is used up; paying oneself only uses up the nonce. */
  lemma SettlementMovesTheValue(token: Token, ts: nat, m: Message, signature: Signature, account: nat)
    requires Transferred(token, ts, m, signature).Ok?
    ensures var after := Transferred(token, ts, m, signature).value;
            && after.domain == token.domain && after.used == token.used + {(m.from, m.nonce)}
            && (account == m.from != m.to ==> BalanceOf(after, account) == BalanceOf(token, account) - m.value)
            && (account == m.to != m.from ==> BalanceOf(after, account) == BalanceOf(token, account) + m.value)
            && ((account != m.from && account != m.to) || m.from == m.to ==>
                  BalanceOf(after, account) == BalanceOf(token, account))
  {
  }

  /** Each authorization moves money once: the same one reverts ever after. */
  lemma AuthorizationIsConsumed(token: Token, ts: nat, m: Message, signature: Signature,
                                later: Token, ts': nat, m': Message, signature': Signature)
    requires Transferred(token, ts, m, signature).Ok?
    requires Transferred(token, ts, m, signature).value.used <= later.used
    requires m'.from == m.from && m'.nonce == m.nonce
    ensures Transferred(later, ts', m', signature').Err?
    ensures m'.validAfter < ts' < m'.validBefore ==>
              Transferred(later, ts', m', signature') == Err(AuthorizationAlreadyUsed)
  {
  }

  /** The server says a verified payment would settle right now. It is right except
      at the first second of the window and for terms that pay the zero address,
      which the server admits and the token does not, and but for what it says it
      does not check. */
  lemma VerifiedPaymentSettlesNow(header: Header, terms: Terms, token: Token, now: nat)
    requires Verifies(header, terms, now) && token.domain == DomainOf(terms)
    ensures var a := header.authorization;
            Transferred(token, now, MessageOf(a), header.signature).Ok?
            <==> && now != a.validAfter && (a.from, a.nonce) !in token.used
                 && terms.payTo != 0 && ValueOf(terms.amount) <= BalanceOf(token, a.from)
  {
  }

  lemma FirstSecondDoesNotSettle(terms: Terms, token: Token, from: nat, nonce: nat, now: nat)
    requires IsTerms(terms)
    ensures var header := SignAuthorization(terms, from, nonce, now, now + 1);
            && header.Some? && Verifies(header.value, terms, now)
            && Transferred(token, now, MessageOf(header.value.authorization), header.value.signature)
               == Err(AuthorizationNotYetValid)
  {
  }
}
