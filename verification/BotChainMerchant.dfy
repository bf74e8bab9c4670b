/** Merchant orders on a chain without a merchant API: the adapter issues orders
    itself and confirms them from the transaction hash the customer's wallet had. */
module BotChainMerchant {
  import opened Decimal
  import opened SettlementVerifier
  import opened Wrappers

  datatype Capability = Capability(
    directErc20: bool, chainId: nat, token: AddressText, receiving: AddressText, minimum: nat, maximum: nat)

  datatype OrderRequest = OrderRequest(dappOrderId: string, amount: Text, payer: AddressText, capability: Capability)

  datatype Context = Context(order: Order, capability: Capability, submitted: Option<string>, proof: Option<Proof>)

  datatype AdapterError =
    | IdempotencyConflict | ForeignCapability | AmountOutOfBounds | InvalidAddress | UnknownOrder
    | AlreadyConfirmed | NotYetPaid | OrderIdTaken | DappOrderIdTaken

  // ---------------------------------------------------------------- the store

  datatype Contexts = Contexts(records: map<string, Context>, ids: map<string, string>)

  function PutContext(s: Contexts, context: Context): Result<Contexts, AdapterError> {
    var id, dapp := context.order.orderId, context.order.dappOrderId;
    if id in s.records && s.records[id].order.dappOrderId != dapp then Err(OrderIdTaken)
    else if dapp in s.ids && s.ids[dapp] != id then Err(DappOrderIdTaken)
    else Ok(Contexts(s.records[id := context], s.ids[dapp := id]))
  }

  class InMemoryBotChainOrderContextStore {
    var records: map<string, Context>
    var orderIdsByDappOrderId: map<string, string>

    constructor ()
      ensures State() == Contexts(map[], map[])
    {
      records, orderIdsByDappOrderId := map[], map[];
    }

    function State(): Contexts
      reads this
    {
      Contexts(records, orderIdsByDappOrderId)
    }

    method Put(context: Context) returns (error: Option<AdapterError>)
      modifies this
      ensures var result := PutContext(old(State()), context);
              if result.Ok? then error.None? && State() == result.value
              else error == Some(result.error) && State() == old(State())
    {
      var id, dapp := context.order.orderId, context.order.dappOrderId;
      if id in records && records[id].order.dappOrderId != dapp { return Some(OrderIdTaken); }
      if dapp in orderIdsByDappOrderId && orderIdsByDappOrderId[dapp] != id { return Some(DappOrderIdTaken); }
      records := records[id := context];
      orderIdsByDappOrderId := orderIdsByDappOrderId[dapp := id];
      return None;
    }

    method Get(orderId: string) returns (context: Option<Context>)
      ensures context == if orderId in records then Some(records[orderId]) else None
    {
      return if orderId in records then Some(records[orderId]) else None;
    }

    method GetByDappOrderId(dappOrderId: string) returns (context: Option<Context>)
      ensures context.Some? ==> context.value in records.Values
      ensures context == if dappOrderId in orderIdsByDappOrderId && orderIdsByDappOrderId[dappOrderId] in records
                         then Some(records[orderIdsByDappOrderId[dappOrderId]]) else None
    {
      if dappOrderId !in orderIdsByDappOrderId { return None; }
      var orderId := orderIdsByDappOrderId[dappOrderId];
      return if orderId in records then Some(records[orderId]) else None;
    }
  }

  function ByDappOrderId(s: Contexts, dapp: string): Option<Context> {
    if dapp in s.ids && s.ids[dapp] in s.records then Some(s.records[s.ids[dapp]]) else None
  }

  /** The two maps stay inverse to each other: one order per DApp order, and back. */
  predicate IsConsistent(s: Contexts) {
    && (forall id :: id in s.records ==> s.records[id].order.orderId == id)
    && (forall id :: id in s.records ==>
          s.records[id].order.dappOrderId in s.ids && s.ids[s.records[id].order.dappOrderId] == id)
    && (forall dapp :: dapp in s.ids ==> s.ids[dapp] in s.records && s.records[s.ids[dapp]].order.dappOrderId == dapp)
  }

  lemma PutKeepsConsistency(s: Contexts, context: Context)
    requires IsConsistent(s) && PutContext(s, context).Ok?
    ensures IsConsistent(PutContext(s, context).value)
  {
  }

  /** Putting back a changed context of the same order always works. */
  lemma PutBack(s: Contexts, context: Context)
    requires IsConsistent(s) && context.order.orderId in s.records
    requires s.records[context.order.orderId].order.dappOrderId == context.order.dappOrderId
    ensures PutContext(s, context) == Ok(Contexts(s.records[context.order.orderId := context], s.ids))
    ensures IsConsistent(Contexts(s.records[context.order.orderId := context], s.ids))
  {
    var dapp := context.order.dappOrderId;
    assert s.ids[dapp := context.order.orderId] == s.ids;
  }

  // ---------------------------------------------------------------- matching a payment

  predicate IsOrderPayment(log: Log, order: Order) {
    IsPayment(log, order.token, order.payer, order.payTo, order.amount)
  }

  /** The index of the first log that pays the order. */
  function FirstPayment(logs: seq<Log>, order: Order): Option<nat> {
    if logs == [] then None
    else if IsOrderPayment(logs[0], order) then Some(logs[0].index)
    else FirstPayment(logs[1..], order)
  }

  /** The log says, in its own fields, that the token moved the whole amount from the
      payer to the recipient. */
  predicate HasTransfer(log: Log, token: AddressText, payer: AddressText, recipient: AddressText, amount: Text) {
    && token.AddressText? && log.address.AddressText? && log.address.account == token.account
    && log.transfer.Some?
    && var moved := log.transfer.value;
       && payer.AddressText? && moved.from.AddressText? && moved.from.account == payer.account
       && recipient.AddressText? && moved.to.AddressText? && moved.to.account == recipient.account
       && IsNumeral(amount) && moved.value == ValueOf(amount)
  }

  method FindMatchingTransferLog(logs: seq<Log>, order: Order) returns (index: Option<nat>)
    ensures index == FirstPayment(logs, order)
    ensures index.Some? ==>
              exists k :: 0 <= k < |logs| && logs[k].index == index.value
                          && HasTransfer(logs[k], order.token, order.payer, order.payTo, order.amount)
                          && forall j :: 0 <= j < k ==>
                               !HasTransfer(logs[j], order.token, order.payer, order.payTo, order.amount)
    ensures index.None? ==>
              forall j :: 0 <= j < |logs| ==> !HasTransfer(logs[j], order.token, order.payer, order.payTo, order.amount)
  {
    for k := 0 to |logs|
      invariant FirstPayment(logs, order) == FirstPayment(logs[k..], order)
      invariant forall j :: 0 <= j < k ==> !HasTransfer(logs[j], order.token, order.payer, order.payTo, order.amount)
    {
      if SameAddress(logs[k].address, order.token) && logs[k].transfer.Some? {
        var transfer := logs[k].transfer.value;
        if SameAddress(transfer.from, order.payer) && SameAddress(transfer.to, order.payTo)
           && IsNumeral(order.amount) && transfer.value == ValueOf(order.amount) {
          return Some(logs[k].index);
        }
      }
      assert logs[k..][1..] == logs[k + 1..];
    }
    return None;
  }

  /** The proof that a submitted transaction with this receipt yields. */
  function ProofFrom(order: Order, hash: string, receipt: Receipt): Option<Proof> {
    if !receipt.succeeded then None
    else
      var index := FirstPayment(receipt.logs, order);
      if index.None? then None
      else Some(Proof(order.orderId, hash, index.value, order.payer, order.payTo, order.amount, order.chainId))
  }

  /** Some log has the order's transfer. */
  predicate HasPayment(logs: seq<Log>, order: Order) {
    exists k :: 0 <= k < |logs| && HasTransfer(logs[k], order.token, order.payer, order.payTo, order.amount)
  }

  /** The submitted transaction went through and paid the order. */
  predicate IsPaidBy(context: Context, receipt: Option<Receipt>) {
    context.submitted.Some? && receipt.Some? && receipt.value.succeeded && HasPayment(receipt.value.logs, context.order)
  }

  lemma {:induction false} FirstPaymentExactlyWhen(logs: seq<Log>, order: Order)
    ensures FirstPayment(logs, order).Some? <==> HasPayment(logs, order)
  {
    if logs != [] {
      FirstPaymentExactlyWhen(logs[1..], order);
      assert IsOrderPayment(logs[0], order)
             <==> HasTransfer(logs[0], order.token, order.payer, order.payTo, order.amount);
      hide HasTransfer, IsOrderPayment;
      assert forall k :: 0 < k < |logs| ==> logs[k] == logs[1..][k - 1];
      if HasPayment(logs[1..], order) {
        var k :| 0 <= k < |logs[1..]| && HasTransfer(logs[1..][k], order.token, order.payer, order.payTo, order.amount);
        assert logs[k + 1] == logs[1..][k];
      }
    }
  }

  /** A proof is found exactly for a payment, and it names the order's own terms. */
  lemma ProofIsFoundExactlyWhenPaid(context: Context, receipt: Option<Receipt>)
    requires context.proof.None?
    ensures var checked := Checked(context, receipt);
            && (checked.proof.Some? <==> IsPaidBy(context, receipt))
            && (checked.proof.None? ==> checked == context)
            && (checked.proof.Some? ==>
                  && checked.order == context.order.(status := PaymentConfirmed)
                  && checked.capability == context.capability && checked.submitted == context.submitted
                  && var proof := checked.proof.value;
                  && Some(proof.hash) == context.submitted
                  && proof.orderId == context.order.orderId && proof.chainId == context.order.chainId
                  && proof.from == context.order.payer && proof.to == context.order.payTo
                  && proof.amount == context.order.amount)
  {
    if receipt.Some? { FirstPaymentExactlyWhen(receipt.value.logs, context.order); }
    hide FirstPayment, HasPayment;
  }

  /** A stored context once the chain was asked about its submitted transaction: a
      payment found there confirms it for good. */
  function Checked(context: Context, receipt: Option<Receipt>): Context {
    if context.proof.Some? || context.submitted.None? || receipt.None? then context
    else
      var proof := ProofFrom(context.order, context.submitted.value, receipt.value);
      if proof.None? then context
      else context.(order := context.order.(status := PaymentConfirmed), proof := proof)
  }

  // ---------------------------------------------------------------- the adapter

  /** What the reconciler will expect of an order created for this request. */
  function ExpectationOf(request: OrderRequest, orderId: string): Expectation {
    var c := request.capability;
    Expectation(c.chainId, c.token, request.payer, c.receiving, request.amount, orderId)
  }

  predicate IsOrderFor(order: Order, expected: Expectation) {
    && order.orderId == expected.orderId && order.chainId == expected.chainId && order.amount == expected.amount
    && SameAddress(order.token, expected.token)
    && SameAddress(order.payer, expected.payer)
    && SameAddress(order.payTo, expected.recipient)
  }

  /** A stored order is the one its capability gives. */
  predicate OrderHolds(context: Context) {
    && context.order.chainId == context.capability.chainId
    && SameAddress(context.order.token, context.capability.token)
    && SameAddress(context.order.payTo, context.capability.receiving)
  }

  predicate Matches(context: Context, request: OrderRequest) {
    && context.order.dappOrderId == request.dappOrderId
    && context.order.amount == request.amount
    && SameAddress(context.order.payer, request.payer)
    && context.capability.chainId == request.capability.chainId
    && SameAddress(context.capability.token, request.capability.token)
    && SameAddress(context.capability.receiving, request.capability.receiving)
  }

  /** What a repeated request is given back is an order for that very request. */
  lemma MatchesExactlyTheOrdersOwnRequest(context: Context, request: OrderRequest)
    requires OrderHolds(context) && context.order.dappOrderId == request.dappOrderId
    ensures Matches(context, request) <==> IsOrderFor(context.order, ExpectationOf(request, context.order.orderId))
  {
  }

  /** The configured capability can take the request. */
  predicate IsAcceptable(request: OrderRequest, chainId: nat) {
    && request.capability.directErc20 && request.capability.chainId == chainId
    && IsNumeral(request.amount)
    && request.capability.minimum <= ValueOf(request.amount) <= request.capability.maximum
    && request.capability.token.AddressText? && request.capability.receiving.AddressText?
  }

  /** `parseAddress`: the canonical spelling. */
  function Parsed(address: AddressText): AddressText
    requires address.AddressText?
  {
    AddressText(address.account, 0)
  }

  /** What a new order is stored as, unless the configured capability refuses it.
      Times are in milliseconds. */
  function NewContext(request: OrderRequest, chainId: nat, orderTtlSeconds: nat, now: int, freshId: string)
    : Result<Context, AdapterError>
  {
    var c := request.capability;
    if !c.directErc20 || c.chainId != chainId then Err(ForeignCapability)
    else if !IsNumeral(request.amount) || ValueOf(request.amount) < c.minimum || ValueOf(request.amount) > c.maximum
    then Err(AmountOutOfBounds)
    else if c.token.Unparsable? || c.receiving.Unparsable? then Err(InvalidAddress)
    else
      var order := Order(freshId, request.dappOrderId, CheckoutVerified, c.chainId, Parsed(c.token), request.amount,
                         request.payer, Parsed(c.receiving), now + orderTtlSeconds * 1000);
      Ok(Context(order, c, None, None))
  }

  class BotChainDirectMerchantAdapter {
    const chainId: nat
    const orderTtlSeconds: nat
    const store: InMemoryBotChainOrderContextStore
    /** The receipt that each stored proof was read from. */
    ghost var evidence: map<string, Receipt>

    ghost predicate Valid()
      reads this, store
    {
      && IsConsistent(store.State())
      && (forall id :: id in store.records ==> OrderHolds(store.records[id]))
      && (forall id :: id in store.records && store.records[id].proof.Some? ==> ProofHolds(id))
    }

    ghost predicate ProofHolds(id: string)
      requires id in store.records && store.records[id].proof.Some?
      reads this, store
    {
      var context := store.records[id];
      id in evidence && context.proof == ProofFrom(context.order, context.proof.value.hash, evidence[id])
    }

    constructor (chainId: nat, orderTtlSeconds: nat)
      ensures Valid() && fresh(store) && store.State() == Contexts(map[], map[])
      ensures this.chainId == chainId && this.orderTtlSeconds == orderTtlSeconds
    {
      this.chainId, this.orderTtlSeconds := chainId, orderTtlSeconds;
      store := new InMemoryBotChainOrderContextStore();
      evidence := map[];
    }

    /** `freshId` is the random id a new order gets. */
    method CreateOrder(request: OrderRequest, now: int, freshId: string) returns (order: Result<Order, AdapterError>)
      requires Valid() && freshId !in store.records
      modifies this, store
      ensures Valid()
      ensures order.Ok? ==>
                && order.value.orderId in store.records && store.records[order.value.orderId].order == order.value
                && order.value.dappOrderId == request.dappOrderId
                && (request.payer.AddressText? ==> IsOrderFor(order.value, ExpectationOf(request, order.value.orderId)))
      ensures order.Err? ==> store.State() == old(store.State())
      ensures var existing := ByDappOrderId(old(store.State()), request.dappOrderId);
              && (existing.Some? ==>
                    var stored := existing.value.order;
                    && (order.Ok? <==> IsOrderFor(stored, ExpectationOf(request, stored.orderId)))
                    && (order.Ok? ==> order.value == stored) && (order.Err? ==> order.error == IdempotencyConflict))
              && (existing.None? ==>
                    && (order.Ok? <==> IsAcceptable(request, chainId))
                    && (order.Ok? ==>
                          && order.value.orderId == freshId && order.value.status == CheckoutVerified
                          && order.value.payer == request.payer
                          && order.value.expiresAt == now + orderTtlSeconds * 1000))
      ensures var existing := ByDappOrderId(old(store.State()), request.dappOrderId);
              var created := NewContext(request, chainId, orderTtlSeconds, now, freshId);
              if existing.Some? then
                && order == (if Matches(existing.value, request) then Ok(existing.value.order) else Err(IdempotencyConflict))
                && store.State() == old(store.State())
              else if created.Ok? then
                && order == Ok(created.value.order)
                && PutContext(old(store.State()), created.value) == Ok(store.State())
              else order == Err(created.error)
    {
      var existing := store.GetByDappOrderId(request.dappOrderId);
      if existing.Some? {
        MatchesExactlyTheOrdersOwnRequest(existing.value, request);
        if !Matches(existing.value, request) { return Err(IdempotencyConflict); }
        return Ok(existing.value.order);
      }
      var capability := request.capability;
      if !capability.directErc20 || capability.chainId != chainId { return Err(ForeignCapability); }
      if !IsNumeral(request.amount) || ValueOf(request.amount) < capability.minimum
         || ValueOf(request.amount) > capability.maximum {
        return Err(AmountOutOfBounds);
      }
      if capability.token.Unparsable? || capability.receiving.Unparsable? { return Err(InvalidAddress); }
      var created := Order(freshId, request.dappOrderId, CheckoutVerified, capability.chainId, Parsed(capability.token),
                           request.amount, request.payer, Parsed(capability.receiving), now + orderTtlSeconds * 1000);
      var error := store.Put(Context(created, capability, None, None));
      return Ok(created);
    }

    method SubmitPaymentTransaction(orderId: string, hash: string) returns (error: Option<AdapterError>)
      requires Valid()
      modifies store
      ensures Valid()
      ensures orderId !in old(store.records) ==> error == Some(UnknownOrder) && store.State() == old(store.State())
      ensures orderId in old(store.records) ==>
                var context := old(store.records)[orderId];
                if context.proof.Some? && context.submitted != Some(hash)
                then error == Some(AlreadyConfirmed) && store.State() == old(store.State())
                else error.None? && store.records == old(store.records)[orderId := context.(submitted := Some(hash))]
    {
      var context := store.Get(orderId);
      if context.None? { return Some(UnknownOrder); }
      if context.value.proof.Some? && context.value.submitted != Some(hash) { return Some(AlreadyConfirmed); }
      PutBack(store.State(), context.value.(submitted := Some(hash)));
      hide ProofFrom, PutContext, IsConsistent, SameAddress;
      error := store.Put(context.value.(submitted := Some(hash)));
    }

    /** `receipt` is what the chain has for the submitted hash, if anything yet. */
    method GetOrderProof(orderId: string, receipt: Option<Receipt>) returns (proof: Result<Proof, AdapterError>)
      requires Valid()
      modifies this, store
      ensures Valid()
      ensures orderId !in old(store.records) ==> proof == Err(UnknownOrder) && store.State() == old(store.State())
      ensures orderId in old(store.records) ==>
                var checked := Checked(old(store.records)[orderId], receipt);
                && store.records == old(store.records)[orderId := checked]
                && proof == (if checked.proof.Some? then Ok(checked.proof.value) else Err(NotYetPaid))
                && (checked.proof.Some? ==> ProofHolds(orderId))
      ensures orderId in old(store.records) && old(store.records)[orderId].proof.None? ==>
                var context := old(store.records)[orderId];
                && (proof.Ok? <==> IsPaidBy(context, receipt))
                && (proof.Ok? ==>
                      && store.records[orderId].proof == Some(proof.value) && Some(proof.value.hash) == context.submitted
                      && store.records[orderId].order.status == PaymentConfirmed)
    {
      if orderId in store.records && store.records[orderId].proof.None? {
        ProofIsFoundExactlyWhenPaid(store.records[orderId], receipt);
      }
      hide HasPayment, FirstPayment;
      var context := store.Get(orderId);
      if context.None? { return Err(UnknownOrder); }
      if context.value.proof.Some? { return Ok(context.value.proof.value); }
      if context.value.submitted.None? || receipt.None? { return Err(NotYetPaid); }
      var verified := ProofFrom(context.value.order, context.value.submitted.value, receipt.value);
      if verified.None? { return Err(NotYetPaid); }
      Confirm(orderId, context.value, verified.value, receipt.value);
      return Ok(verified.value);
    }

    method Confirm(orderId: string, context: Context, proof: Proof, receipt: Receipt)
      requires Valid() && orderId in store.records && store.records[orderId] == context
      requires context.submitted.Some? && ProofFrom(context.order, context.submitted.value, receipt) == Some(proof)
      modifies this, store
      ensures Valid()
      ensures var confirmed := context.(order := context.order.(status := PaymentConfirmed), proof := Some(proof));
              store.records == old(store.records)[orderId := confirmed] && ProofHolds(orderId)
    {
      StatusDoesNotMatter(receipt.logs, context.order, PaymentConfirmed);
      assert ProofFrom(context.order.(status := PaymentConfirmed), context.submitted.value, receipt) == Some(proof);
      assert proof.hash == context.submitted.value;
      assert context.order.orderId == orderId;
      PutBack(store.State(), context.(order := context.order.(status := PaymentConfirmed), proof := Some(proof)));
      hide FirstPayment, ProofFrom, PutContext, IsConsistent, SameAddress;
      evidence := evidence[orderId := receipt];
      var error := store.Put(context.(order := context.order.(status := PaymentConfirmed), proof := Some(proof)));
    }

    /** A paid order is reported as confirmed, whenever it is asked for. */
    method GetOrderStatus(orderId: string, receipt: Option<Receipt>, now: int) returns (order: Result<Order, AdapterError>)
      requires Valid()
      modifies this, store
      ensures Valid()
      ensures orderId !in old(store.records) ==> order == Err(UnknownOrder)
      ensures orderId in old(store.records) ==>
                var checked := Checked(old(store.records)[orderId], receipt);
                && store.records == old(store.records)[orderId := checked]
                && order == Ok(checked.order.(status :=
                     if checked.proof.Some? then PaymentConfirmed
                     else if now > checked.order.expiresAt then Expired else CheckoutVerified))
      ensures orderId in old(store.records) ==>
                var context := old(store.records)[orderId];
                && order.value.status in {PaymentConfirmed, Expired, CheckoutVerified}
                && (order.value.status == PaymentConfirmed <==> context.proof.Some? || IsPaidBy(context, receipt))
                && (order.value.status == Expired ==> context.order.expiresAt < now)
                && (order.value.status == CheckoutVerified ==> now <= context.order.expiresAt)
    {
      hide HasPayment, FirstPayment, ProofFrom;
      var context := store.Get(orderId);
      if context.None? { return Err(UnknownOrder); }
      if context.value.proof.None? {
        var proof := GetOrderProof(orderId, receipt);
        if proof.Err? {
          return Ok(context.value.order.(status :=
            if now > context.value.order.expiresAt then Expired else CheckoutVerified));
        }
      }
      return Ok(store.records[orderId].order.(status := PaymentConfirmed));
    }
  }

  lemma {:induction false} StatusDoesNotMatter(logs: seq<Log>, order: Order, status: OrderStatus)
    ensures FirstPayment(logs, order.(status := status)) == FirstPayment(logs, order)
  {
    if logs != [] { StatusDoesNotMatter(logs[1..], order, status); }
  }

  // ---------------------------------------------------------------- confirmed orders settle

  predicate HasDistinctIndices(logs: seq<Log>) {
    forall i, j :: 0 <= i < j < |logs| ==> logs[i].index != logs[j].index
  }

  /** An order that the adapter confirmed, with the proof it gave, verifies against
      the expectation it was created from exactly when the first log carrying the
      proof's index is the payment itself. */
  lemma ConfirmedOrderVerifiesExactlyWhen(order: Order, hash: string, receipt: Receipt, expected: Expectation)
    requires IsOrderFor(order, expected) && ProofFrom(order, hash, receipt).Some?
    requires receipt.chainId == order.chainId && Lower(receipt.hash) == Lower(hash)
    ensures var proof := ProofFrom(order, hash, receipt).value;
            && LogAt(receipt.logs, proof.logIndex).Some?
            && (Verifies(order.(status := PaymentConfirmed), proof, receipt, expected)
                <==> MatchesTransferLog(LogAt(receipt.logs, proof.logIndex).value, expected))
  {
    var proof := ProofFrom(order, hash, receipt).value;
    FirstPaymentIsThere(receipt.logs, order, expected);
    var log := LogAt(receipt.logs, proof.logIndex).value;
    assert Fails(TransferLogMismatch, order.(status := PaymentConfirmed), proof, receipt, expected)
           <==> !MatchesTransferLog(log, expected);
  }

  lemma {:induction false} FirstPaymentIsThere(logs: seq<Log>, order: Order, expected: Expectation)
    requires IsOrderFor(order, expected) && FirstPayment(logs, order).Some?
    ensures LogAt(logs, FirstPayment(logs, order).value).Some?
    ensures HasDistinctIndices(logs) ==>
              MatchesTransferLog(LogAt(logs, FirstPayment(logs, order).value).value, expected)
  {
    if !IsOrderPayment(logs[0], order) {
      FirstPaymentIsThere(logs[1..], order, expected);
      FirstPaymentHasItsIndex(logs[1..], order);
    }
  }

  lemma {:induction false} FirstPaymentHasItsIndex(logs: seq<Log>, order: Order)
    requires FirstPayment(logs, order).Some?
    ensures exists k :: 0 <= k < |logs| && logs[k].index == FirstPayment(logs, order).value
  {
    if IsOrderPayment(logs[0], order) {
      assert logs[0].index == FirstPayment(logs, order).value;
    } else {
      FirstPaymentHasItsIndex(logs[1..], order);
      var k :| 0 <= k < |logs[1..]| && logs[1..][k].index == FirstPayment(logs[1..], order).value;
      assert logs[k + 1].index == FirstPayment(logs, order).value;
    }
  }

  /** With repeated indices a confirmed order can be rejected: the verifier looks at
      the first log that carries the index, the adapter at the first that pays. */
  lemma RepeatedIndexIsRejected(order: Order, hash: string, payment: Log, expected: Expectation)
    requires IsOrderFor(order, expected) && IsOrderPayment(payment, order)
    ensures var receipt := Receipt(order.chainId, hash, true, [payment.(transfer := None), payment]);
            var proof := ProofFrom(order, hash, receipt);
            && proof.Some?
            && !Verifies(order.(status := PaymentConfirmed), proof.value, receipt, expected)
  {
    var logs := [payment.(transfer := None), payment];
    var receipt := Receipt(order.chainId, hash, true, logs);
    assert logs[1..] == [payment];
    assert FirstPayment(logs, order) == FirstPayment([payment], order) == Some(payment.index);
    ConfirmedOrderVerifiesExactlyWhen(order, hash, receipt, expected);
  }

  /** A payer address that does not parse can never be matched: such an order is
      accepted, and never confirmed. */
  lemma {:induction false} UnparsablePayerIsNeverConfirmed(order: Order, hash: string, receipt: Receipt)
    requires order.payer.Unparsable?
    ensures ProofFrom(order, hash, receipt).None?
  {
    NoPaymentFromUnparsable(receipt.logs, order);
  }

  lemma {:induction false} NoPaymentFromUnparsable(logs: seq<Log>, order: Order)
    requires order.payer.Unparsable?
    ensures FirstPayment(logs, order).None?
  {
    if logs != [] { NoPaymentFromUnparsable(logs[1..], order); }
  }
}
