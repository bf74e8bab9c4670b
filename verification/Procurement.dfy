/** Buying the run's resource and refunding the rest, by any number of overlapping
    or crashed attempts at the same run. Attempts share the checkpoint row and one
    wallet; between any two awaits anything may happen. */
module Procurement {
  import opened Wrappers
  import opened Checkpoint
  import opened TestPlan
  import opened Texts
  import Decimal
  import X402 = ExactEvm

  /** A decoded x402 payment header. Encoding is injective, so the header and what
      it decodes to are the same thing here. */
  type SignedPayment = h: X402.Header | X402.IsDecoded(h)
    witness X402.Header(X402.EXACT, None, X402.Authorization(0, 0, [Decimal.ZERO], 0, 0, 0), X402.Garbage)

  /** What the payment moves when it settles. */
  function AmountOf(payment: SignedPayment): nat {
    Decimal.ValueOf(payment.authorization.value)
  }

  /** Transactions of the wallet that refunds are sent from. Other work of the
      same wallet competes for its nonces. */
  datatype Body = Refund(runId: string, value: int) | Unrelated(tag: nat)

  datatype Tx = Tx(nonce: nat, body: Body)

  /** Where one attempt stands. `seen` is the checkpoint it loaded at its start and
      never reloads; a crashed attempt is one that takes no further step. */
  datatype Attempt =
    | Started
    | Loaded(seen: Row<SignedPayment>)
    | Planned(seen: Row<SignedPayment>, ceiling: nat)
    | Signed(seen: Row<SignedPayment>, signed: SignedPayment)
    | Paid(seen: Row<SignedPayment>, payment: SignedPayment)
    | Reserved(seen: Row<SignedPayment>, payment: SignedPayment, nonce: nat)
    | Numbered(payment: SignedPayment, nonce: nat)
    | Cleared(payment: SignedPayment, nonce: nat)
    | Sent(payment: SignedPayment, nonce: nat)
    | Done(payment: SignedPayment)
    | Failed

  /** `budget` is the quote's refundable tool budget; `pool` holds every broadcast
      transaction, and `mined` the wallet's transactions on chain, by nonce. */
  datatype World = World(
    runId: string,
    budget: nat,
    mandatory: seq<string>,
    refunds: bool,
    row: Row<SignedPayment>,
    pool: set<Tx>,
    mined: seq<Tx>,
    attempts: map<nat, Attempt>)

  /** The target's terms, and the payer's account, random nonce and window. */
  datatype Offer = Offer(terms: X402.Terms, from: nat, nonce: nat, validAfter: nat, validBefore: nat)

  datatype Action =
    | Start(i: nat)
    | Load(i: nat)
    | MakePlan(i: nat, proposal: Plan)
    | Sign(i: nat, offer: Offer)
    | Resume(i: nat)
    | CheckpointPayment(i: nat)
    | SkipRefund(i: nat)
    | ReserveNonce(i: nat, pending: nat)
    | CheckpointNonce(i: nat)
    | CheckNonce(i: nat, pending: nat)
    | SendRefund(i: nat)
    | ConfirmRefund(i: nat, hash: string)
    | Fail(i: nat)
    | Mine(tx: Tx)
    | Broadcast(tx: Tx)

  function RefundAmount(w: World, payment: SignedPayment): int {
    w.budget - AmountOf(payment)
  }

  predicate OwesRefund(w: World, seen: Row<SignedPayment>, payment: SignedPayment) {
    w.refunds && RefundAmount(w, payment) > 0 && seen.refundHash.None?
  }

  function RefundTx(w: World, payment: SignedPayment, nonce: nat): Tx {
    Tx(nonce, Refund(w.runId, RefundAmount(w, payment)))
  }

  /** The payer's signature over exactly what was offered: from the payer to the
      target, the price as advertised, in the offer's window and under its nonce. */
  predicate IsSignedFor(payment: SignedPayment, offer: Offer) {
    && X402.IsSignable(offer.terms)
    && payment.network == offer.terms.network
    && payment.authorization == X402.Authorization(offer.from, offer.terms.payTo, offer.terms.amount,
                                                   offer.validAfter, offer.validBefore, offer.nonce)
    && X402.Recover(payment.signature, X402.DomainOf(offer.terms), X402.MessageOf(payment.authorization)) == Some(offer.from)
  }

  /** Nothing can be signed: the terms are not payable here, the price is above the
      ceiling, or the window is empty. */
  predicate IsRefused(offer: Offer, ceiling: nat) {
    || !X402.IsSignable(offer.terms)
    || Decimal.ValueOf(offer.terms.amount) > ceiling
    || offer.validBefore <= offer.validAfter
  }

  /** What the payer signs: the target's price, if it is within the ceiling. */
  function PaymentFor(offer: Offer, ceiling: nat): (payment: Option<SignedPayment>)
    ensures payment.None? <==> IsRefused(offer, ceiling)
    ensures payment.Some? ==> IsSignedFor(payment.value, offer) && AmountOf(payment.value) <= ceiling
  {
    if !X402.IsSignable(offer.terms) || Decimal.ValueOf(offer.terms.amount) > ceiling then None
    else
      var header := X402.SignAuthorization(offer.terms, offer.from, offer.nonce, offer.validAfter, offer.validBefore);
      if header.None? then None else Some(header.value)
  }

  function PaymentPatch(payment: SignedPayment): Row<SignedPayment> {
    Empty<SignedPayment>().(
    purchaseReceipt := Some(payment),
    paymentHash := Some(HashText(payment.authorization.nonce)),
    paymentHeaderName := Some(XPayment))
  }

  function Put(w: World, i: nat, attempt: Attempt): World {
    w.(attempts := w.attempts[i := attempt])
  }

  function At(w: World, i: nat): Attempt {
    if i in w.attempts then w.attempts[i] else Failed
  }

  /** An action that its attempt is not at does nothing. */
  function Step(w: World, a: Action): World {
    match a
    case Start(i) => if i in w.attempts then w else Put(w, i, Started)
    case Load(i) => if At(w, i).Started? then Put(w, i, Loaded(w.row)) else w
    case MakePlan(i, proposal) =>
      if !At(w, i).Loaded? then w
      else
        var seen := At(w, i).seen;
        if PlanOf(seen).Some? then Put(w, i, Planned(seen, PlanOf(seen).value.toolBudget))
        else
          // The attempt goes on with the plan it compiled, not with the row's.
          var plan := CompileTestPlan(proposal, w.mandatory, w.budget);
          if plan.None? then Put(w, i, Failed)
          else Put(w, i, Planned(seen, plan.value.toolBudget)).(row := Merged(w.row, PlanPatch(plan.value)))
    case Sign(i, offer) =>
      if !At(w, i).Planned? || At(w, i).seen.purchaseReceipt.Some? then w
      else
        var payment := PaymentFor(offer, At(w, i).ceiling);
        Put(w, i, if payment.None? then Failed else Signed(At(w, i).seen, payment.value))
    case Resume(i) =>
      if !At(w, i).Planned? || At(w, i).seen.purchaseReceipt.None? then w
      else Put(w, i, Paid(At(w, i).seen, At(w, i).seen.purchaseReceipt.value))
    case CheckpointPayment(i) =>
      if !At(w, i).Signed? then w
      else
        // The row may keep another attempt's payment; this attempt then uses that one.
        var kept := Merged(w.row, PaymentPatch(At(w, i).signed));
        if kept.purchaseReceipt.None? || kept.paymentHash.None? then Put(w, i, Failed).(row := kept)
        else Put(w, i, Paid(At(w, i).seen, kept.purchaseReceipt.value)).(row := kept)
    case SkipRefund(i) =>
      if At(w, i).Paid? && !OwesRefund(w, At(w, i).seen, At(w, i).payment) then Put(w, i, Done(At(w, i).payment)) else w
    case ReserveNonce(i, pending) =>
      if !At(w, i).Paid? || !OwesRefund(w, At(w, i).seen, At(w, i).payment) then w
      else if At(w, i).seen.refundNonce.Some? then Put(w, i, Numbered(At(w, i).payment, At(w, i).seen.refundNonce.value))
      else Put(w, i, Reserved(At(w, i).seen, At(w, i).payment, pending))
    case CheckpointNonce(i) =>
      if !At(w, i).Reserved? then w
      else
        var kept := Merged(w.row, Empty<SignedPayment>().(refundNonce := Some(At(w, i).nonce)));
        var nonce := if kept.refundNonce.Some? then kept.refundNonce.value else At(w, i).nonce;
        Put(w, i, Numbered(At(w, i).payment, nonce)).(row := kept)
    case CheckNonce(i, pending) =>
      if !At(w, i).Numbered? then w
      else if pending > At(w, i).nonce then Put(w, i, Failed)
      else Put(w, i, Cleared(At(w, i).payment, At(w, i).nonce))
    case SendRefund(i) =>
      if !At(w, i).Cleared? then w
      else Put(w, i, Sent(At(w, i).payment, At(w, i).nonce))
           .(pool := w.pool + {RefundTx(w, At(w, i).payment, At(w, i).nonce)})
    case ConfirmRefund(i, hash) =>
      if !At(w, i).Sent? || At(w, i).nonce >= |w.mined|
         || w.mined[At(w, i).nonce] != RefundTx(w, At(w, i).payment, At(w, i).nonce) then w
      else Put(w, i, Done(At(w, i).payment)).(row := Merged(w.row, Empty<SignedPayment>().(refundHash := Some(hash))))
    case Fail(i) => if i in w.attempts && !At(w, i).Done? then Put(w, i, Failed) else w
    case Mine(tx) =>
      if tx in w.pool && tx.nonce == |w.mined| then w.(mined := w.mined + [tx]) else w
    case Broadcast(tx) =>
      // The same wallet's other work: anything but this run's refund.
      if tx.body.Refund? && tx.body.runId == w.runId then w else w.(pool := w.pool + {tx})
  }

  function Execute(w: World, actions: seq<Action>): World {
    if actions == [] then w
    else Step(Execute(w, actions[..|actions| - 1]), actions[|actions| - 1])
  }

  lemma ExecuteOneMore(w: World, actions: seq<Action>, a: Action)
    ensures Execute(w, actions + [a]) == Step(Execute(w, actions), a)
  {
  }

  /** A run before anyone worked on it; the wallet may already have a history. */
  predicate IsInitial(w: World) {
    && w.row == Empty()
    && w.attempts == map[]
    && (forall k :: 0 <= k < |w.mined| ==> w.mined[k].nonce == k && IsUnrelated(w, w.mined[k]))
    && (forall tx :: tx in w.pool ==> IsUnrelated(w, tx))
  }

  predicate IsUnrelated(w: World, tx: Tx) {
    !(tx.body.Refund? && tx.body.runId == w.runId)
  }

  // ---------------------------------------------------------------- the invariant

  /** The payment an attempt has settled on, once it has. */
  function PaymentOf(attempt: Attempt): Option<SignedPayment> {
    match attempt
    case Paid(_, payment) => Some(payment)
    case Reserved(_, payment, _) => Some(payment)
    case Numbered(payment, _) => Some(payment)
    case Cleared(payment, _) => Some(payment)
    case Sent(payment, _) => Some(payment)
    case Done(payment) => Some(payment)
    case _ => None
  }

  /** The refund nonce an attempt goes by, once it has read it back. */
  function NonceOf(attempt: Attempt): Option<nat> {
    match attempt
    case Numbered(_, nonce) => Some(nonce)
    case Cleared(_, nonce) => Some(nonce)
    case Sent(_, nonce) => Some(nonce)
    case _ => None
  }

  function SeenBy(attempt: Attempt): Row<SignedPayment> {
    match attempt
    case Loaded(seen) => seen
    case Planned(seen, _) => seen
    case Signed(seen, _) => seen
    case Paid(seen, _) => seen
    case Reserved(seen, _, _) => seen
    case _ => Empty()
  }

  predicate RowHolds(w: World) {
    && (w.row.toolBudget.Some? ==> w.row.toolBudget.value <= w.budget)
    && (w.row.purchaseReceipt.Some? <==> w.row.paymentHash.Some?)
    && (w.row.purchaseReceipt.Some? <==> w.row.paymentHeaderName.Some?)
    && (w.row.purchaseReceipt.Some? ==>
          && AmountOf(w.row.purchaseReceipt.value) <= w.budget
          && w.row.paymentHash == Some(HashText(w.row.purchaseReceipt.value.authorization.nonce))
          && w.row.paymentHeaderName == Some(XPayment))
  }

  predicate AttemptHolds(w: World, attempt: Attempt) {
    && Extends(SeenBy(attempt), w.row)
    && (attempt.Planned? ==> attempt.ceiling <= w.budget)
    && (attempt.Signed? ==> AmountOf(attempt.signed) <= w.budget)
    && (PaymentOf(attempt).Some? ==> w.row.purchaseReceipt == PaymentOf(attempt))
    && (NonceOf(attempt).Some? ==> w.row.refundNonce == NonceOf(attempt) && RefundAmount(w, attempt.payment) > 0)
    && (attempt.Reserved? ==> RefundAmount(w, attempt.payment) > 0)
  }

  /** A refund of this run carries the row's nonce and the row's remainder. */
  predicate TxHolds(w: World, tx: Tx) {
    !IsUnrelated(w, tx) ==>
      && w.row.refundNonce == Some(tx.nonce)
      && w.row.purchaseReceipt.Some?
      && tx.body.value == RefundAmount(w, w.row.purchaseReceipt.value) > 0
  }

  predicate ChainHolds(w: World) {
    && (forall k :: 0 <= k < |w.mined| ==> w.mined[k].nonce == k && TxHolds(w, w.mined[k]))
    && (forall tx :: tx in w.pool ==> TxHolds(w, tx))
    && (w.row.refundHash.Some? ==>
          && w.row.refundNonce.Some?
          && w.row.refundNonce.value < |w.mined|
          && !IsUnrelated(w, w.mined[w.row.refundNonce.value]))
  }

  ghost predicate Holds(w: World) {
    && RowHolds(w)
    && ChainHolds(w)
    && (forall i :: i in w.attempts ==> AttemptHolds(w, w.attempts[i]))
  }

  lemma AttemptSurvives(before: World, after: World, attempt: Attempt)
    requires AttemptHolds(before, attempt) && Extends(before.row, after.row) && after == before.(row := after.row)
    ensures AttemptHolds(after, attempt)
  {
    ExtendsTransitively(SeenBy(attempt), before.row, after.row);
  }

  /** Everything said about attempts and transactions survives a merge that keeps
      the row's own facts. */
  lemma RowGrows(before: World, after: World)
    requires Holds(before) && RowHolds(after) && Extends(before.row, after.row)
    requires after == before.(row := after.row)
    requires after.row.refundHash.Some? ==> before.row.refundHash.Some?
    ensures Holds(after)
  {
    forall i | i in after.attempts ensures AttemptHolds(after, after.attempts[i]) {
      AttemptSurvives(before, after, after.attempts[i]);
    }
  }

  lemma PutHolds(w: World, i: nat, attempt: Attempt)
    requires Holds(w) && AttemptHolds(w, attempt)
    ensures Holds(Put(w, i, attempt))
  {
  }

  lemma MergeExtends(row: Row<SignedPayment>, patch: Row<SignedPayment>)
    ensures Extends(row, Merged(row, patch))
  {
  }

  predicate IsLocal(a: Action) {
    a.Sign? || a.Resume? || a.SkipRefund? || a.ReserveNonce? || a.CheckNonce?
  }

  /** The attempt goes on by itself, or stays where it is. */
  predicate MovesSoundly(w: World, a: Action)
    requires IsLocal(a)
  {
    a.i in Step(w, a).attempts && AttemptHolds(w, Step(w, a).attempts[a.i]) && Step(w, a) == Put(w, a.i, Step(w, a).attempts[a.i])
  }

  lemma SignMovesSoundly(w: World, a: Action)
    requires a.Sign? && a.i in w.attempts && AttemptHolds(w, w.attempts[a.i])
    ensures MovesSoundly(w, a)
  {
    hide PaymentFor;
    assert w.attempts[a.i := w.attempts[a.i]] == w.attempts;
  }

  lemma ResumeMovesSoundly(w: World, a: Action)
    requires a.Resume? && a.i in w.attempts && RowHolds(w) && AttemptHolds(w, w.attempts[a.i])
    ensures MovesSoundly(w, a)
  {
    assert w.attempts[a.i := w.attempts[a.i]] == w.attempts;
  }

  lemma ReserveMovesSoundly(w: World, a: Action)
    requires a.ReserveNonce? && a.i in w.attempts && AttemptHolds(w, w.attempts[a.i])
    ensures MovesSoundly(w, a)
  {
    assert w.attempts[a.i := w.attempts[a.i]] == w.attempts;
  }

  lemma RefundStepMovesSoundly(w: World, a: Action)
    requires (a.SkipRefund? || a.CheckNonce?) && a.i in w.attempts && AttemptHolds(w, w.attempts[a.i])
    ensures MovesSoundly(w, a)
  {
    assert w.attempts[a.i := w.attempts[a.i]] == w.attempts;
  }

  /** Steps that touch nothing but the attempt itself. */
  lemma LocalStepHolds(w: World, a: Action)
    requires Holds(w) && IsLocal(a)
    ensures Holds(Step(w, a))
  {
    if a.i in w.attempts {
      assert RowHolds(w) && AttemptHolds(w, w.attempts[a.i]);
      hide Step, Holds, AttemptHolds, RowHolds;
      if a.Sign? {
        SignMovesSoundly(w, a);
      } else if a.Resume? {
        ResumeMovesSoundly(w, a);
      } else if a.ReserveNonce? {
        ReserveMovesSoundly(w, a);
      } else {
        RefundStepMovesSoundly(w, a);
      }
      PutHolds(w, a.i, Step(w, a).attempts[a.i]);
    } else {
      assert Step(w, a) == w;
    }
  }

  lemma PoolHolds(w: World, tx: Tx)
    requires Holds(w) && TxHolds(w, tx)
    ensures Holds(w.(pool := w.pool + {tx}))
  {
    var after := w.(pool := w.pool + {tx});
    forall other | other in after.pool ensures TxHolds(after, other) {
      assert TxHolds(w, other);
    }
    hide RowHolds;
    forall k | 0 <= k < |after.mined| ensures TxHolds(after, after.mined[k]) {
      assert TxHolds(w, after.mined[k]);
    }
    forall i | i in after.attempts ensures AttemptHolds(after, after.attempts[i]) {
      assert AttemptHolds(w, after.attempts[i]);
    }
  }

  lemma SendHolds(w: World, i: nat)
    requires Holds(w)
    ensures Holds(Step(w, SendRefund(i)))
  {
    if At(w, i).Cleared? {
      var payment, nonce := At(w, i).payment, At(w, i).nonce;
      assert AttemptHolds(w, w.attempts[i]);
      assert TxHolds(w, RefundTx(w, payment, nonce));
      assert AttemptHolds(w, Sent(payment, nonce));
      hide Holds, AttemptHolds, TxHolds;
      PoolHolds(w, RefundTx(w, payment, nonce));
      PutHolds(w.(pool := w.pool + {RefundTx(w, payment, nonce)}), i, Sent(payment, nonce)) by {
        SameRowSameAttempt(w, w.(pool := w.pool + {RefundTx(w, payment, nonce)}), Sent(payment, nonce));
      }
    }
  }

  lemma SameRowSameAttempt(before: World, after: World, attempt: Attempt)
    requires AttemptHolds(before, attempt) && after == before.(pool := after.pool)
    ensures AttemptHolds(after, attempt)
  {
  }

  lemma MineHolds(w: World, tx: Tx)
    requires Holds(w)
    ensures Holds(Step(w, Mine(tx)))
  {
  }

  lemma PlanMergeHolds(w: World, plan: Plan)
    requires Holds(w) && plan.toolBudget <= w.budget
    ensures var merged := w.(row := Merged(w.row, PlanPatch(plan)));
            Holds(merged) && Extends(w.row, merged.row)
  {
    var merged := w.(row := Merged(w.row, PlanPatch(plan)));
    MergeExtends(w.row, PlanPatch(plan));
    RowGrows(w, merged);
  }

  lemma PlanHolds(w: World, i: nat, proposal: Plan)
    requires Holds(w)
    ensures Holds(Step(w, MakePlan(i, proposal)))
  {
    if At(w, i).Loaded? {
      var seen := At(w, i).seen;
      assert AttemptHolds(w, w.attempts[i]);
      if PlanOf(seen).Some? {
        PutHolds(w, i, Planned(seen, PlanOf(seen).value.toolBudget));
      } else if w.mandatory == [] {
        PutHolds(w, i, Failed);
      } else {
        FreshPlanHolds(w, i, proposal);
      }
    }
  }

  lemma FreshPlanHolds(w: World, i: nat, proposal: Plan)
    requires Holds(w) && At(w, i).Loaded? && PlanOf(At(w, i).seen).None? && w.mandatory != []
    ensures Holds(Step(w, MakePlan(i, proposal)))
  {
    var seen, plan := At(w, i).seen, CompileTestPlan(proposal, w.mandatory, w.budget).value;
    assert AttemptHolds(w, w.attempts[i]);
    assert plan.toolBudget <= w.budget;
    var merged := w.(row := Merged(w.row, PlanPatch(plan)));
    assert Step(w, MakePlan(i, proposal)) == Put(merged, i, Planned(seen, plan.toolBudget));
    hide CompileTestPlan;
    PlanMergeHolds(w, plan);
    ExtendsTransitively(seen, w.row, merged.row);
    PutHolds(merged, i, Planned(seen, plan.toolBudget));
  }

  lemma PaymentRowHolds(w: World, signed: SignedPayment)
    requires RowHolds(w) && AmountOf(signed) <= w.budget
    ensures var kept := Merged(w.row, PaymentPatch(signed));
            && RowHolds(w.(row := kept))
            && kept.purchaseReceipt.Some?
            && (kept.refundHash == w.row.refundHash)
  {
  }

  lemma PaymentHolds(w: World, i: nat)
    requires Holds(w)
    ensures Holds(Step(w, CheckpointPayment(i)))
  {
    if At(w, i).Signed? {
      assert AttemptHolds(w, w.attempts[i]);
      var patch := PaymentPatch(At(w, i).signed);
      MergeExtends(w.row, patch);
      PaymentRowHolds(w, At(w, i).signed);
      var after := w.(row := Merged(w.row, patch));
      RowGrows(w, after);
      ExtendsTransitively(At(w, i).seen, w.row, after.row);
      PutHolds(after, i, Paid(At(w, i).seen, after.row.purchaseReceipt.value));
    }
  }

  lemma NonceHolds(w: World, i: nat)
    requires Holds(w)
    ensures Holds(Step(w, CheckpointNonce(i)))
  {
    if At(w, i).Reserved? {
      assert AttemptHolds(w, w.attempts[i]);
      var patch := Empty<SignedPayment>().(refundNonce := Some(At(w, i).nonce));
      MergeExtends(w.row, patch);
      var after := w.(row := Merged(w.row, patch));
      RowGrows(w, after);
      PutHolds(after, i, Numbered(At(w, i).payment, after.row.refundNonce.value));
    }
  }

  lemma RefundMergeHolds(w: World, hash: string, nonce: nat)
    requires Holds(w) && w.row.refundNonce == Some(nonce)
    requires nonce < |w.mined| && !IsUnrelated(w, w.mined[nonce])
    ensures var merged := w.(row := Merged(w.row, Empty<SignedPayment>().(refundHash := Some(hash))));
            Holds(merged) && Extends(w.row, merged.row) && merged.row.purchaseReceipt == w.row.purchaseReceipt
  {
    var patch := Empty<SignedPayment>().(refundHash := Some(hash));
    var merged := w.(row := Merged(w.row, patch));
    MergeExtends(w.row, patch);
    RefundMergeKeeps(w.row, hash);
    assert RowHolds(merged) && ChainHolds(merged);
    hide RowHolds, ChainHolds, Merged, Extends;
    forall i | i in merged.attempts ensures AttemptHolds(merged, merged.attempts[i]) {
      AttemptSurvives(w, merged, merged.attempts[i]);
    }
  }

  lemma RefundMergeKeeps(row: Row<SignedPayment>, hash: string)
    ensures Merged(row, Empty<SignedPayment>().(refundHash := Some(hash)))
            == row.(refundHash := if row.refundHash.Some? then row.refundHash else Some(hash))
  {
  }

  lemma ConfirmHolds(w: World, i: nat, hash: string)
    requires Holds(w)
    ensures Holds(Step(w, ConfirmRefund(i, hash)))
  {
    var attempt := At(w, i);
    if attempt.Sent? && attempt.nonce < |w.mined| && w.mined[attempt.nonce] == RefundTx(w, attempt.payment, attempt.nonce) {
      assert AttemptHolds(w, w.attempts[i]);
      RefundMergeHolds(w, hash, attempt.nonce);
      PutHolds(w.(row := Merged(w.row, Empty<SignedPayment>().(refundHash := Some(hash)))), i, Done(attempt.payment));
    }
  }

  lemma StepHolds(w: World, a: Action)
    requires Holds(w)
    ensures Holds(Step(w, a))
  {
    hide Step, Holds;
    match a
    case MakePlan(i, proposal) => PlanHolds(w, i, proposal);
    case CheckpointPayment(i) => PaymentHolds(w, i);
    case CheckpointNonce(i) => NonceHolds(w, i);
    case SendRefund(i) => SendHolds(w, i);
    case ConfirmRefund(i, hash) => ConfirmHolds(w, i, hash);
    case Mine(tx) => MineHolds(w, tx);
    case _ =>
      if IsLocal(a) { LocalStepHolds(w, a); } else { PlainStepHolds(w, a); }
  }

  lemma PlainStepHolds(w: World, a: Action)
    requires Holds(w) && (a.Start? || a.Load? || a.Fail? || a.Broadcast?)
    ensures Holds(Step(w, a))
  {
    match a
    case Start(i) => PutHolds(w, i, Started);
    case Load(i) => PutHolds(w, i, Loaded(w.row));
    case Fail(i) => PutHolds(w, i, Failed);
    case Broadcast(tx) => if IsUnrelated(w, tx) { PoolHolds(w, tx); }
  }

  predicate IsSameRun(before: World, after: World) {
    after.runId == before.runId && after.budget == before.budget && after.refunds == before.refunds
  }

  lemma StepKeepsRun(w: World, a: Action)
    ensures IsSameRun(w, Step(w, a))
  {
  }

  lemma {:induction false} EveryScheduleHolds(w: World, actions: seq<Action>)
    requires Holds(w)
    ensures Holds(Execute(w, actions))
    ensures IsSameRun(w, Execute(w, actions))
  {
    if actions != [] {
      var init, last := actions[..|actions| - 1], actions[|actions| - 1];
      EveryScheduleHolds(w, init);
      StepHolds(Execute(w, init), last);
      StepKeepsRun(Execute(w, init), last);
    }
  }

  // ---------------------------------------------------------------- what every schedule guarantees

  /** Every attempt that gets past the purchase holds the one payment the row kept,
      even when several attempts signed different ones. */
  lemma AttemptsAgreeOnPayment(w: World, actions: seq<Action>, i: nat, j: nat)
    requires IsInitial(w)
    requires i in Execute(w, actions).attempts && j in Execute(w, actions).attempts
    requires PaymentOf(Execute(w, actions).attempts[i]).Some? && PaymentOf(Execute(w, actions).attempts[j]).Some?
    ensures var after := Execute(w, actions);
            && PaymentOf(after.attempts[i]) == PaymentOf(after.attempts[j]) == after.row.purchaseReceipt
            && after.row.paymentHash == Some(HashText(after.row.purchaseReceipt.value.authorization.nonce))
            && AmountOf(after.row.purchaseReceipt.value) <= w.budget
  {
    EveryScheduleHolds(w, actions);
    var after := Execute(w, actions);
    assert AttemptHolds(after, after.attempts[i]) && AttemptHolds(after, after.attempts[j]);
  }

  /** The row is write-once along the whole schedule, so the agreement also holds
      between attempts that finish at different times. */
  lemma {:induction false} RowOnlyGrows(w: World, actions: seq<Action>, n: nat)
    requires n <= |actions|
    ensures Extends(Execute(w, actions[..n]).row, Execute(w, actions).row)
    decreases |actions|
  {
    if n < |actions| {
      var init := actions[..|actions| - 1];
      RowOnlyGrows(w, init, n);
      assert init[..n] == actions[..n];
      StepGrowsRow(Execute(w, init), actions[|actions| - 1]);
      ExtendsTransitively(Execute(w, actions[..n]).row, Execute(w, init).row, Execute(w, actions).row);
    } else {
      assert actions[..n] == actions;
    }
  }

  /** The row only changes by merging something into it. */
  lemma StepMerges(w: World, a: Action) returns (patch: Row<SignedPayment>)
    ensures Step(w, a).row == w.row || Step(w, a).row == Merged(w.row, patch)
  {
    hide Merged, PlanPatch, PaymentPatch, PaymentFor, CompileTestPlan, OwesRefund, RefundTx;
    patch := Empty();
    match a
    case MakePlan(_, proposal) =>
      var plan := CompileTestPlan(proposal, w.mandatory, w.budget);
      if plan.Some? { patch := PlanPatch(plan.value); }
    case CheckpointPayment(i) => if At(w, i).Signed? { patch := PaymentPatch(At(w, i).signed); }
    case CheckpointNonce(i) =>
      if At(w, i).Reserved? { patch := Empty<SignedPayment>().(refundNonce := Some(At(w, i).nonce)); }
    case ConfirmRefund(_, hash) => patch := Empty<SignedPayment>().(refundHash := Some(hash));
    case _ =>
  }

  lemma StepGrowsRow(w: World, a: Action)
    ensures Extends(w.row, Step(w, a).row)
  {
    var patch := StepMerges(w, a);
    hide Step;
    MergeExtends(w.row, patch);
  }

  /** At most one refund of the run ever lands, its value is the budget less the
      stored payment, and payment and refund together are exactly the budget. */
  lemma AtMostOneRefundLands(w: World, actions: seq<Action>, i: nat, j: nat)
    requires IsInitial(w)
    requires i < |Execute(w, actions).mined| && !IsUnrelated(w, Execute(w, actions).mined[i])
    requires j < |Execute(w, actions).mined| && !IsUnrelated(w, Execute(w, actions).mined[j])
    ensures i == j
    ensures var after := Execute(w, actions);
            && after.row.refundNonce == Some(i)
            && after.row.purchaseReceipt.Some?
            && after.mined[i].body.value > 0
            && AmountOf(after.row.purchaseReceipt.value) + after.mined[i].body.value == w.budget
  {
    EveryScheduleHolds(w, actions);
    var after := Execute(w, actions);
    assert TxHolds(after, after.mined[i]) && TxHolds(after, after.mined[j]);
  }

  /** No two different refunds of the run are ever even broadcast: everything sent
      has the same nonce and the same value. */
  lemma BroadcastRefundsAreIdentical(w: World, actions: seq<Action>, a: Tx, b: Tx)
    requires IsInitial(w)
    requires a in Execute(w, actions).pool && !IsUnrelated(w, a)
    requires b in Execute(w, actions).pool && !IsUnrelated(w, b)
    ensures a == b
  {
    EveryScheduleHolds(w, actions);
    var after := Execute(w, actions);
    assert TxHolds(after, a) && TxHolds(after, b);
  }

  /** A checkpointed refund hash is honest: that refund is on chain. */
  lemma RecordedRefundLanded(w: World, actions: seq<Action>)
    requires IsInitial(w) && Execute(w, actions).row.refundHash.Some?
    ensures var after := Execute(w, actions);
            exists k :: 0 <= k < |after.mined| && !IsUnrelated(w, after.mined[k])
  {
    EveryScheduleHolds(w, actions);
    var after := Execute(w, actions);
    assert !IsUnrelated(w, after.mined[after.row.refundNonce.value]);
  }

  // ---------------------------------------------------------------- whom the payment pays

  /** Some attempt was handed these terms and signed this payment for them. */
  ghost predicate WasOffered(actions: seq<Action>, payment: SignedPayment) {
    exists k :: 0 <= k < |actions| && actions[k].Sign? && IsSignedFor(payment, actions[k].offer)
  }

  ghost predicate PaymentsWereOffered(w: World, actions: seq<Action>) {
    && (w.row.purchaseReceipt.Some? ==> WasOffered(actions, w.row.purchaseReceipt.value))
    && (forall i :: i in w.attempts && w.attempts[i].Signed? ==> WasOffered(actions, w.attempts[i].signed))
  }

  /** A payment enters the row only from an attempt that signed it. */
  lemma ReceiptComesFromSigner(w: World, a: Action)
    ensures var receipt := Step(w, a).row.purchaseReceipt;
            || receipt == w.row.purchaseReceipt
            || (a.CheckpointPayment? && At(w, a.i).Signed? && receipt == Some(At(w, a.i).signed))
  {
    hide PaymentFor, CompileTestPlan, OwesRefund, RefundTx;
  }

  lemma SignerSignsItsOffer(w: World, a: Action, i: nat)
    requires i in Step(w, a).attempts && Step(w, a).attempts[i].Signed?
    ensures (i in w.attempts && w.attempts[i] == Step(w, a).attempts[i])
            || (a.Sign? && IsSignedFor(Step(w, a).attempts[i].signed, a.offer))
  {
    hide IsSignedFor, CompileTestPlan, Merged, OwesRefund, RefundTx;
  }

  lemma OfferedOneMore(actions: seq<Action>, payment: SignedPayment)
    requires actions != [] && WasOffered(actions[..|actions| - 1], payment)
    ensures WasOffered(actions, payment)
  {
    var init := actions[..|actions| - 1];
    var k :| 0 <= k < |init| && init[k].Sign? && IsSignedFor(payment, init[k].offer);
    hide IsSignedFor;
    assert actions[k] == init[k];
  }

  lemma {:induction false} EveryPaymentWasOffered(w: World, actions: seq<Action>)
    requires IsInitial(w)
    ensures PaymentsWereOffered(Execute(w, actions), actions)
  {
    if actions != [] {
      var init, last := actions[..|actions| - 1], actions[|actions| - 1];
      var before, after := Execute(w, init), Execute(w, actions);
      EveryPaymentWasOffered(w, init);
      hide Step, Execute, IsSignedFor, WasOffered;
      ReceiptComesFromSigner(before, last);
      if after.row.purchaseReceipt.Some? { OfferedOneMore(actions, after.row.purchaseReceipt.value); }
      forall i | i in after.attempts && after.attempts[i].Signed? ensures WasOffered(actions, after.attempts[i].signed) {
        SignerSignsItsOffer(before, last, i);
        LastOrEarlier(actions, after.attempts[i].signed);
      }
    }
  }

  lemma LastOrEarlier(actions: seq<Action>, payment: SignedPayment)
    requires actions != []
    requires WasOffered(actions[..|actions| - 1], payment)
             || (actions[|actions| - 1].Sign? && IsSignedFor(payment, actions[|actions| - 1].offer))
    ensures WasOffered(actions, payment)
  {
    if WasOffered(actions[..|actions| - 1], payment) { OfferedOneMore(actions, payment); }
  }

  /** Over every schedule, the payment that the row keeps was signed for the terms
      that some attempt was handed, and the target that advertised them accepts it
      exactly inside the window it was signed for. */
  lemma StoredPaymentPaysItsTarget(w: World, actions: seq<Action>) returns (k: nat)
    requires IsInitial(w) && Execute(w, actions).row.purchaseReceipt.Some?
    ensures k < |actions| && actions[k].Sign? && IsSignedFor(Execute(w, actions).row.purchaseReceipt.value, actions[k].offer)
    ensures var payment, offer := Execute(w, actions).row.purchaseReceipt.value, actions[k].offer;
            X402.IsTerms(offer.terms) ==>
              forall now :: X402.Verifies(payment, offer.terms, now) <==> offer.validAfter <= now < offer.validBefore
  {
    EveryPaymentWasOffered(w, actions);
    var payment := Execute(w, actions).row.purchaseReceipt.value;
    k :| 0 <= k < |actions| && actions[k].Sign? && IsSignedFor(payment, actions[k].offer);
    if X402.IsTerms(actions[k].offer.terms) { SignedForVerifies(payment, actions[k].offer); }
  }

  lemma SignedForVerifies(payment: SignedPayment, offer: Offer)
    requires IsSignedFor(payment, offer) && X402.IsTerms(offer.terms)
    ensures forall now :: X402.Verifies(payment, offer.terms, now) <==> offer.validAfter <= now < offer.validBefore
  {
  }

  // ---------------------------------------------------------------- the customer is refunded

  /** The budget leaves something to refund after this payment. */
  predicate IsOwed(w: World, payment: SignedPayment) {
    w.refunds && RefundAmount(w, payment) > 0
  }

  /** The run's one refund is mined, for what the payment left of the budget, and
      its hash is on the row. */
  predicate IsRefunded(w: World, payment: SignedPayment) {
    && w.row.refundHash.Some? && w.row.refundNonce.Some? && w.row.refundNonce.value < |w.mined|
    && w.mined[w.row.refundNonce.value] == RefundTx(w, payment, w.row.refundNonce.value)
    && forall k :: 0 <= k < |w.mined| && k != w.row.refundNonce.value ==> IsUnrelated(w, w.mined[k])
  }

  predicate DoneHolds(w: World, attempt: Attempt) {
    attempt.Done? && IsOwed(w, attempt.payment) ==> w.row.refundHash.Some?
  }

  ghost predicate DoneHold(w: World) {
    forall i :: i in w.attempts ==> DoneHolds(w, w.attempts[i])
  }

  /** Only skipping or confirming ends an attempt. */
  lemma OnlyRefundStepsFinish(w: World, a: Action, i: nat)
    requires i in Step(w, a).attempts && Step(w, a).attempts[i].Done?
    ensures (i in w.attempts && w.attempts[i] == Step(w, a).attempts[i])
            || (a == SkipRefund(i) && At(w, i).Paid? && !OwesRefund(w, At(w, i).seen, At(w, i).payment)
                && Step(w, a) == Put(w, i, Done(At(w, i).payment)))
            || (a.ConfirmRefund? && Step(w, a).row.refundHash.Some?)
  {
    hide PaymentFor, CompileTestPlan;
  }

  lemma StepKeepsDone(w: World, a: Action)
    requires Holds(w) && DoneHold(w)
    ensures DoneHold(Step(w, a))
  {
    StepGrowsRow(w, a);
    StepKeepsRun(w, a);
    hide Step, OwesRefund, RowHolds, ChainHolds;
    forall i | i in Step(w, a).attempts ensures DoneHolds(Step(w, a), Step(w, a).attempts[i]) {
      if Step(w, a).attempts[i].Done? {
        OnlyRefundStepsFinish(w, a, i);
        if a == SkipRefund(i) && At(w, i).Paid? { SkippedBecauseRefunded(w, i); }
      }
    }
  }

  /** An attempt that skips an owed refund saw its hash on the row. */
  lemma SkippedBecauseRefunded(w: World, i: nat)
    requires Holds(w) && At(w, i).Paid?
    ensures !OwesRefund(w, At(w, i).seen, At(w, i).payment) && IsOwed(w, At(w, i).payment) ==> w.row.refundHash.Some?
  {
    assert AttemptHolds(w, w.attempts[i]);
  }

  lemma {:induction false} EveryDoneHolds(w: World, actions: seq<Action>)
    requires Holds(w) && DoneHold(w)
    ensures DoneHold(Execute(w, actions))
  {
    if actions != [] {
      var init := actions[..|actions| - 1];
      EveryDoneHolds(w, init);
      EveryScheduleHolds(w, init);
      StepKeepsDone(Execute(w, init), actions[|actions| - 1]);
    }
  }

  /** Whatever else happens, once any attempt of the run is done, the customer has
      been refunded what the payment left of the budget: exactly once, exactly that. */
  lemma DoneMeansRefunded(w: World, actions: seq<Action>, i: nat)
    requires IsInitial(w) && At(Execute(w, actions), i).Done?
    requires IsOwed(w, At(Execute(w, actions), i).payment)
    ensures IsRefunded(Execute(w, actions), At(Execute(w, actions), i).payment)
  {
    EveryScheduleHolds(w, actions);
    EveryDoneHolds(w, actions);
    RecordedIsRefunded(Execute(w, actions), i);
  }

  lemma RecordedIsRefunded(w: World, i: nat)
    requires Holds(w) && At(w, i).Done? && w.row.refundHash.Some?
    ensures IsRefunded(w, At(w, i).payment)
  {
    assert AttemptHolds(w, w.attempts[i]);
    var nonce := w.row.refundNonce.value;
    assert TxHolds(w, w.mined[nonce]) && w.mined[nonce].nonce == nonce;
    forall k | 0 <= k < |w.mined| && k != nonce ensures IsUnrelated(w, w.mined[k]) {
      assert TxHolds(w, w.mined[k]);
    }
  }
}
