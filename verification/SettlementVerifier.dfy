/** Checking a customer's settlement: order, proof and receipt against what the
    quote expects. */
module SettlementVerifier {
  import opened Decimal
  import opened Texts
  import opened Wrappers

  /** An address as written. Spellings of one account are many; one that does not
      parse, or whose mixed case is a wrong checksum, equals nothing. */
  datatype AddressText = AddressText(account: nat, spelling: nat) | Unparsable(spelling: nat)

  predicate SameAddress(a: AddressText, b: AddressText) {
    a.AddressText? && b.AddressText? && a.account == b.account
  }

  datatype OrderStatus = CheckoutVerified | PaymentConfirmed | Invoiced | Expired | OtherStatus

  datatype Order = Order(
    orderId: string,
    dappOrderId: string,
    status: OrderStatus,
    chainId: nat,
    token: AddressText,
    amount: Text,
    payer: AddressText,
    payTo: AddressText,
    expiresAt: int)

  datatype Proof = Proof(
    orderId: string, hash: string, logIndex: nat, from: AddressText, to: AddressText, amount: Text, chainId: nat)

  /** A log, decoded if it is an ERC-20 transfer. */
  datatype Transfer = Transfer(from: AddressText, to: AddressText, value: nat)

  datatype Log = Log(address: AddressText, transfer: Option<Transfer>, index: nat)

  datatype Receipt = Receipt(chainId: nat, hash: string, succeeded: bool, logs: seq<Log>)

  datatype Expectation = Expectation(
    chainId: nat, token: AddressText, payer: AddressText, recipient: AddressText, amount: Text, orderId: string)

  function Lower(text: string): (lower: string)
    ensures |lower| == |text|
  {
    seq(|text|, i requires 0 <= i < |text| => if 'A' <= text[i] <= 'Z' then text[i] - 'A' + 'a' else text[i])
  }

  /** The log is a transfer of exactly `amount` of the token between the two. */
  predicate IsPayment(log: Log, token: AddressText, payer: AddressText, recipient: AddressText, amount: Text) {
    && SameAddress(log.address, token)
    && log.transfer.Some?
    && SameAddress(log.transfer.value.from, payer)
    && SameAddress(log.transfer.value.to, recipient)
    && IsNumeral(amount) && log.transfer.value.value == ValueOf(amount)
  }

  predicate MatchesTransferLog(log: Log, expected: Expectation) {
    IsPayment(log, expected.token, expected.payer, expected.recipient, expected.amount)
  }

  /** The first log that carries the index. */
  function LogAt(logs: seq<Log>, index: nat): Option<Log> {
    if logs == [] then None else if logs[0].index == index then Some(logs[0]) else LogAt(logs[1..], index)
  }

  datatype FailureCode =
    | OrderNotConfirmed | OrderMismatch | ChainMismatch | TokenMismatch | PayerMismatch | RecipientMismatch
    | AmountMismatch | TransactionReverted | TransactionHashMismatch | TransferLogMissing | TransferLogMismatch

  predicate Fails(code: FailureCode, order: Order, proof: Proof, receipt: Receipt, expected: Expectation) {
    match code
    case OrderNotConfirmed => order.status != PaymentConfirmed && order.status != Invoiced
    case OrderMismatch => order.orderId != expected.orderId || proof.orderId != expected.orderId
    case ChainMismatch =>
      order.chainId != expected.chainId || proof.chainId != expected.chainId || receipt.chainId != expected.chainId
    case TokenMismatch => !SameAddress(order.token, expected.token)
    case PayerMismatch => !SameAddress(order.payer, expected.payer) || !SameAddress(proof.from, expected.payer)
    case RecipientMismatch => !SameAddress(order.payTo, expected.recipient) || !SameAddress(proof.to, expected.recipient)
    case AmountMismatch => order.amount != expected.amount || proof.amount != expected.amount
    case TransactionReverted => !receipt.succeeded
    case TransactionHashMismatch => Lower(receipt.hash) != Lower(proof.hash)
    case TransferLogMissing => LogAt(receipt.logs, proof.logIndex).None?
    case TransferLogMismatch =>
      var log := LogAt(receipt.logs, proof.logIndex);
      log.Some? && !MatchesTransferLog(log.value, expected)
  }

  /** The order in which the checks report. */
  function Rank(code: FailureCode): nat {
    match code
    case OrderNotConfirmed => 0
    case OrderMismatch => 1
    case ChainMismatch => 2
    case TokenMismatch => 3
    case PayerMismatch => 4
    case RecipientMismatch => 5
    case AmountMismatch => 6
    case TransactionReverted => 7
    case TransactionHashMismatch => 8
    case TransferLogMissing => 9
    case TransferLogMismatch => 10
  }

  predicate IsInOrder(codes: seq<FailureCode>) {
    forall i, j :: 0 <= i < j < |codes| ==> Rank(codes[i]) < Rank(codes[j])
  }

  /** Exactly the failing checks with ranks from `low` up to `high`, in order. */
  ghost predicate Reports(codes: seq<FailureCode>, low: nat, high: nat,
                          order: Order, proof: Proof, receipt: Receipt, expected: Expectation)
  {
    && IsInOrder(codes)
    && forall code :: code in codes <==> low <= Rank(code) < high && Fails(code, order, proof, receipt, expected)
  }

  /** What the payment's proof hash is taken of. */
  function ProofMaterial(proof: Proof, expected: Expectation): string {
    Digits(expected.chainId) + ":" + (Lower(proof.hash) + ":" + (Digits(proof.logIndex) + ":" + expected.orderId))
  }

  method VerifySettlement(order: Order, proof: Proof, receipt: Receipt, expected: Expectation)
    returns (failures: seq<FailureCode>, material: string)
    ensures forall code :: code in failures <==> Fails(code, order, proof, receipt, expected)
    ensures OrderNotConfirmed in failures <==> order.status !in {PaymentConfirmed, Invoiced}
    ensures OrderMismatch in failures <==> !(order.orderId == proof.orderId == expected.orderId)
    ensures ChainMismatch in failures <==> !(order.chainId == proof.chainId == receipt.chainId == expected.chainId)
    ensures TokenMismatch in failures <==> !IsAccountOf(order.token, expected.token)
    ensures PayerMismatch in failures <==>
              !(IsAccountOf(order.payer, expected.payer) && IsAccountOf(proof.from, expected.payer))
    ensures RecipientMismatch in failures <==>
              !(IsAccountOf(order.payTo, expected.recipient) && IsAccountOf(proof.to, expected.recipient))
    ensures AmountMismatch in failures <==> !(order.amount == proof.amount == expected.amount)
    ensures TransactionReverted in failures <==> !receipt.succeeded
    ensures TransactionHashMismatch in failures <==> !IsSameButForCase(receipt.hash, proof.hash)
    ensures TransferLogMissing in failures <==>
              forall k :: 0 <= k < |receipt.logs| ==> receipt.logs[k].index != proof.logIndex
    ensures TransferLogMismatch in failures <==>
              && TransferLogMissing !in failures
              && forall k: nat :: !MovesTheMoney(receipt.logs, k, proof.logIndex, expected)
    ensures IsInOrder(failures)
    ensures failures == [] <==> Verifies(order, proof, receipt, expected)
    ensures material == ProofMaterial(proof, expected)
  {
    failures := AllFailures(order, proof, receipt, expected);
    hide Fails, IsAccountOf, IsSameButForCase, MovesTheMoney, IsInOrder;
    ReportSaysWhat(failures, order, proof, receipt, expected);
    material := ProofMaterial(proof, expected);
  }

  method AllFailures(order: Order, proof: Proof, receipt: Receipt, expected: Expectation)
    returns (failures: seq<FailureCode>)
    ensures forall code :: code in failures <==> Fails(code, order, proof, receipt, expected)
    ensures IsInOrder(failures)
    ensures failures == [] <==> Verifies(order, proof, receipt, expected)
  {
    var about := OrderFailures(order, proof, receipt, expected);
    var parties := PartyFailures(order, proof, receipt, expected);
    var amounts := PayeeFailures(order, proof, receipt, expected);
    var transaction := ReceiptFailures(order, proof, receipt, expected);
    var transfer := LogFailures(order, proof, receipt, expected);
    failures := about + parties + amounts + transaction + transfer;
    JoinReports(about, parties, 0, 3, 5, order, proof, receipt, expected);
    JoinReports(about + parties, amounts, 0, 5, 7, order, proof, receipt, expected);
    JoinReports(about + parties + amounts, transaction, 0, 7, 9, order, proof, receipt, expected);
    JoinReports(about + parties + amounts + transaction, transfer, 0, 9, 11, order, proof, receipt, expected);
    assert forall code :: code in failures <==> Fails(code, order, proof, receipt, expected);
    hide Fails;
    if failures != [] { assert failures[0] in failures; }
  }

  lemma JoinReports(a: seq<FailureCode>, b: seq<FailureCode>, low: nat, mid: nat, high: nat,
                    order: Order, proof: Proof, receipt: Receipt, expected: Expectation)
    requires low <= mid <= high
    requires Reports(a, low, mid, order, proof, receipt, expected) && Reports(b, mid, high, order, proof, receipt, expected)
    ensures Reports(a + b, low, high, order, proof, receipt, expected)
  {
    hide Fails, Rank;
    var all := a + b;
    forall i, j | 0 <= i < j < |all| ensures Rank(all[i]) < Rank(all[j]) {
      assert i < |a| ==> all[i] in a;
      assert j >= |a| ==> all[j] in b;
    }
  }

  /** Two payments have the same material only if they are the same transfer of the
      same chain for the same order. */
  lemma MaterialIdentifiesTransfer(proof: Proof, expected: Expectation, other: Proof, others: Expectation)
    requires ':' !in Lower(proof.hash) && ':' !in Lower(other.hash)
    ensures ProofMaterial(proof, expected) == ProofMaterial(other, others)
            <==> && expected.chainId == others.chainId && Lower(proof.hash) == Lower(other.hash)
                 && proof.logIndex == other.logIndex && expected.orderId == others.orderId
  {
    if ProofMaterial(proof, expected) == ProofMaterial(other, others) {
      DigitsAreDigits(expected.chainId);
      DigitsAreDigits(others.chainId);
      DigitsAreDigits(proof.logIndex);
      DigitsAreDigits(other.logIndex);
      var rest, index := Lower(proof.hash) + ":" + (Digits(proof.logIndex) + ":" + expected.orderId),
                         Digits(proof.logIndex) + ":" + expected.orderId;
      var otherRest, otherIndex := Lower(other.hash) + ":" + (Digits(other.logIndex) + ":" + others.orderId),
                                   Digits(other.logIndex) + ":" + others.orderId;
      SplitsAtColon(Digits(expected.chainId), rest, Digits(others.chainId), otherRest);
      SplitsAtColon(Lower(proof.hash), index, Lower(other.hash), otherIndex);
      SplitsAtColon(Digits(proof.logIndex), expected.orderId, Digits(other.logIndex), others.orderId);
      DigitsAreUnique(expected.chainId, others.chainId);
      DigitsAreUnique(proof.logIndex, other.logIndex);
    }
  }

  method OrderFailures(order: Order, proof: Proof, receipt: Receipt, expected: Expectation)
    returns (failures: seq<FailureCode>)
    ensures Reports(failures, 0, 3, order, proof, receipt, expected)
  {
    failures := [];
    if order.status != PaymentConfirmed && order.status != Invoiced { failures := failures + [OrderNotConfirmed]; }
    if order.orderId != expected.orderId || proof.orderId != expected.orderId { failures := failures + [OrderMismatch]; }
    if order.chainId != expected.chainId || proof.chainId != expected.chainId || receipt.chainId != expected.chainId {
      failures := failures + [ChainMismatch];
    }
  }

  method PartyFailures(order: Order, proof: Proof, receipt: Receipt, expected: Expectation)
    returns (failures: seq<FailureCode>)
    ensures Reports(failures, 3, 5, order, proof, receipt, expected)
  {
    failures := [];
    if !SameAddress(order.token, expected.token) { failures := failures + [TokenMismatch]; }
    if !SameAddress(order.payer, expected.payer) || !SameAddress(proof.from, expected.payer) {
      failures := failures + [PayerMismatch];
    }
  }

  method PayeeFailures(order: Order, proof: Proof, receipt: Receipt, expected: Expectation)
    returns (failures: seq<FailureCode>)
    ensures Reports(failures, 5, 7, order, proof, receipt, expected)
  {
    failures := [];
    if !SameAddress(order.payTo, expected.recipient) || !SameAddress(proof.to, expected.recipient) {
      failures := failures + [RecipientMismatch];
    }
    if order.amount != expected.amount || proof.amount != expected.amount { failures := failures + [AmountMismatch]; }
  }

  method ReceiptFailures(order: Order, proof: Proof, receipt: Receipt, expected: Expectation)
    returns (failures: seq<FailureCode>)
    ensures Reports(failures, 7, 9, order, proof, receipt, expected)
  {
    failures := [];
    if !receipt.succeeded { failures := failures + [TransactionReverted]; }
    if Lower(receipt.hash) != Lower(proof.hash) { failures := failures + [TransactionHashMismatch]; }
  }

  method LogFailures(order: Order, proof: Proof, receipt: Receipt, expected: Expectation)
    returns (failures: seq<FailureCode>)
    ensures Reports(failures, 9, 11, order, proof, receipt, expected)
  {
    failures := [];
    var log := FindLog(receipt.logs, proof.logIndex);
    if log.None? {
      failures := failures + [TransferLogMissing];
    } else if !MatchesTransferLog(log.value, expected) {
      failures := failures + [TransferLogMismatch];
    }
  }

  method FindLog(logs: seq<Log>, index: nat) returns (found: Option<Log>)
    ensures found == LogAt(logs, index)
  {
    for k := 0 to |logs|
      invariant LogAt(logs, index) == LogAt(logs[k..], index)
    {
      if logs[k].index == index { return Some(logs[k]); }
      assert logs[k..][1..] == logs[k + 1..];
    }
    return None;
  }

  predicate Verifies(order: Order, proof: Proof, receipt: Receipt, expected: Expectation) {
    forall code :: !Fails(code, order, proof, receipt, expected)
  }

  predicate IsSameButForCase(a: string, b: string) {
    |a| == |b| && forall i :: 0 <= i < |a| ==>
                     || a[i] == b[i]
                     || ('A' <= a[i] <= 'Z' && b[i] as int == a[i] as int + 32)
                     || ('A' <= b[i] <= 'Z' && a[i] as int == b[i] as int + 32)
  }

  lemma LowerIgnoresOnlyCase(a: string, b: string)
    ensures Lower(a) == Lower(b) <==> IsSameButForCase(a, b)
  {
    if Lower(a) == Lower(b) {
      forall i | 0 <= i < |a|
        ensures a[i] == b[i] || ('A' <= a[i] <= 'Z' && b[i] as int == a[i] as int + 32)
                || ('A' <= b[i] <= 'Z' && a[i] as int == b[i] as int + 32)
      {
        assert Lower(a)[i] == Lower(b)[i];
      }
    }
  }

  predicate IsAccountOf(a: AddressText, b: AddressText) {
    a.AddressText? && b.AddressText? && a.account == b.account
  }

  /** The order, the proof and the receipt speak of one confirmed payment, the
      expected one. */
  predicate SpeaksOf(order: Order, proof: Proof, receipt: Receipt, expected: Expectation) {
    && receipt.succeeded && IsSameButForCase(receipt.hash, proof.hash)
    && receipt.chainId == order.chainId == proof.chainId == expected.chainId
    && (order.status == PaymentConfirmed || order.status == Invoiced)
    && order.orderId == proof.orderId == expected.orderId && order.amount == proof.amount == expected.amount
    && IsAccountOf(order.token, expected.token)
    && IsAccountOf(order.payer, expected.payer) && IsAccountOf(proof.from, expected.payer)
    && IsAccountOf(order.payTo, expected.recipient) && IsAccountOf(proof.to, expected.recipient)
  }

  /** Log `k` is the first with the proof's index and moves exactly the expected
      amount of the token from the payer to the recipient. */
  predicate MovesTheMoney(logs: seq<Log>, k: nat, index: nat, expected: Expectation) {
    && k < |logs| && logs[k].index == index
    && (forall j :: 0 <= j < k ==> logs[j].index != index)
    && var log := logs[k];
       && IsAccountOf(log.address, expected.token)
       && log.transfer.Some?
       && IsAccountOf(log.transfer.value.from, expected.payer)
       && IsAccountOf(log.transfer.value.to, expected.recipient)
       && IsNumeral(expected.amount) && log.transfer.value.value == ValueOf(expected.amount)
  }

  lemma ReportSaysWhat(failures: seq<FailureCode>, order: Order, proof: Proof, receipt: Receipt, expected: Expectation)
    requires forall code :: code in failures <==> Fails(code, order, proof, receipt, expected)
    ensures OrderNotConfirmed in failures <==> order.status !in {PaymentConfirmed, Invoiced}
    ensures OrderMismatch in failures <==> !(order.orderId == proof.orderId == expected.orderId)
    ensures ChainMismatch in failures <==> !(order.chainId == proof.chainId == receipt.chainId == expected.chainId)
    ensures TokenMismatch in failures <==> !IsAccountOf(order.token, expected.token)
    ensures PayerMismatch in failures <==>
              !(IsAccountOf(order.payer, expected.payer) && IsAccountOf(proof.from, expected.payer))
    ensures RecipientMismatch in failures <==>
              !(IsAccountOf(order.payTo, expected.recipient) && IsAccountOf(proof.to, expected.recipient))
    ensures AmountMismatch in failures <==> !(order.amount == proof.amount == expected.amount)
    ensures TransactionReverted in failures <==> !receipt.succeeded
    ensures TransactionHashMismatch in failures <==> !IsSameButForCase(receipt.hash, proof.hash)
    ensures TransferLogMissing in failures <==>
              forall k :: 0 <= k < |receipt.logs| ==> receipt.logs[k].index != proof.logIndex
    ensures TransferLogMismatch in failures <==>
              && TransferLogMissing !in failures
              && forall k: nat :: !MovesTheMoney(receipt.logs, k, proof.logIndex, expected)
  {
    LowerIgnoresOnlyCase(receipt.hash, proof.hash);
    hide Lower, IsSameButForCase, IsNumeral, ValueOf;
    var log := LogAt(receipt.logs, proof.logIndex);
    if log.Some? {
      var k := LogAtIsThere(receipt.logs, proof.logIndex);
      assert MatchesTransferLog(log.value, expected) <==> MovesTheMoney(receipt.logs, k, proof.logIndex, expected);
      forall j: nat | MovesTheMoney(receipt.logs, j, proof.logIndex, expected) ensures j == k {
        LogAtIsFirst(receipt.logs, proof.logIndex, j);
      }
    } else {
      forall k | 0 <= k < |receipt.logs| ensures receipt.logs[k].index != proof.logIndex {
        MissingIsNowhere(receipt.logs, proof.logIndex, k);
      }
    }
  }

  lemma {:induction false} MissingIsNowhere(logs: seq<Log>, index: nat, k: nat)
    requires LogAt(logs, index).None? && k < |logs|
    ensures logs[k].index != index
  {
    if k > 0 { MissingIsNowhere(logs[1..], index, k - 1); }
  }

  /** A settlement verifies exactly when the payment is really in the receipt: the
      money moved, to the right place, in full, and the log named by the proof says
      so. */
  lemma VerifiedSettlementPaid(order: Order, proof: Proof, receipt: Receipt, expected: Expectation)
    ensures Verifies(order, proof, receipt, expected) <==>
              && SpeaksOf(order, proof, receipt, expected)
              && exists k: nat :: MovesTheMoney(receipt.logs, k, proof.logIndex, expected)
  {
    hide Lower;
    if Verifies(order, proof, receipt, expected) {
      VerifiedSpeaks(order, proof, receipt, expected);
      var k := LogAtIsThere(receipt.logs, proof.logIndex);
      assert MovesTheMoney(receipt.logs, k, proof.logIndex, expected);
    }
    if SpeaksOf(order, proof, receipt, expected) {
      LowerIgnoresOnlyCase(receipt.hash, proof.hash);
      if k: nat :| MovesTheMoney(receipt.logs, k, proof.logIndex, expected) {
        LogAtIsFirst(receipt.logs, proof.logIndex, k);
      }
    }
  }

  lemma VerifiedSpeaks(order: Order, proof: Proof, receipt: Receipt, expected: Expectation)
    requires Verifies(order, proof, receipt, expected)
    ensures SpeaksOf(order, proof, receipt, expected)
    ensures var log := LogAt(receipt.logs, proof.logIndex); log.Some? && MatchesTransferLog(log.value, expected)
  {
    assert !Fails(TransactionReverted, order, proof, receipt, expected) && !Fails(ChainMismatch, order, proof, receipt, expected);
    assert !Fails(OrderNotConfirmed, order, proof, receipt, expected) && !Fails(OrderMismatch, order, proof, receipt, expected);
    assert !Fails(AmountMismatch, order, proof, receipt, expected) && !Fails(PayerMismatch, order, proof, receipt, expected);
    assert !Fails(RecipientMismatch, order, proof, receipt, expected) && !Fails(TokenMismatch, order, proof, receipt, expected);
    assert !Fails(TransactionHashMismatch, order, proof, receipt, expected);
    LowerIgnoresOnlyCase(receipt.hash, proof.hash);
    assert !Fails(TransferLogMissing, order, proof, receipt, expected);
    assert !Fails(TransferLogMismatch, order, proof, receipt, expected);
  }

  lemma {:induction false} LogAtIsFirst(logs: seq<Log>, index: nat, k: nat)
    requires k < |logs| && logs[k].index == index && forall j :: 0 <= j < k ==> logs[j].index != index
    ensures LogAt(logs, index) == Some(logs[k])
  {
    if k > 0 {
      assert forall j :: 0 <= j < k - 1 ==> logs[1..][j] == logs[j + 1];
      LogAtIsFirst(logs[1..], index, k - 1);
    }
  }

  lemma {:induction false} LogAtIsThere(logs: seq<Log>, index: nat) returns (k: nat)
    requires LogAt(logs, index).Some?
    ensures k < |logs| && logs[k] == LogAt(logs, index).value && logs[k].index == index
    ensures forall j :: 0 <= j < k ==> logs[j].index != index
  {
    k := 0;
    if logs[0].index != index {
      var rest := LogAtIsThere(logs[1..], index);
      k := rest + 1;
      assert forall j :: 0 < j < k ==> logs[j] == logs[1..][j - 1];
    }
  }
}
