/** How the two workers turn the outcome of a job into a way of finishing it. */
module JobHandlers {
  import opened Wrappers
  import opened LeasedQueue

  /** What running the orchestrator's pipeline for a job came to. `finalized` is
      whether the best-effort finalization went through; it changes nothing here. */
  datatype PipelineOutcome =
    | Delivered
    | RunNotReady
    | ProcurementDenied(codes: seq<ErrorCode>, finalized: bool)
    | PaymentSendAmbiguous
    | SettlementAmbiguous
    | BridgeDeliveryPending
    | PipelineFailed(transient: bool, finalized: bool)

  function RetryDelay(attempt: nat, cap: nat): nat
    requires attempt >= 1
  {
    var delay := 5_000 * Power2(attempt - 1);
    if delay < cap then delay else cap
  }

  function Power2(n: nat): (p: nat)
    ensures p >= 1
  {
    if n == 0 then 1 else 2 * Power2(n - 1)
  }

  function RetryReason(transient: bool, unclassified: ErrorCode): ErrorCode {
    if transient then TransientDependencyFailure else unclassified
  }

  function HandleOrchestrator(claim: Claim, outcome: PipelineOutcome): Finish
    requires claim.attempt >= 1
  {
    match outcome
    case Delivered => MarkCompleted
    case RunNotReady => MarkDeadLetter(UnexpectedRunState, [])
    case ProcurementDenied(codes, _) => MarkDeadLetter(ProcurementDeniedCode, codes)
    case PaymentSendAmbiguous => MarkDeadLetter(PaymentSendAmbiguousNeedsManualReconciliation, [])
    case SettlementAmbiguous => MarkDeadLetter(BnbSettlementAmbiguousNeedsManualReconciliation, [])
    case BridgeDeliveryPending => MarkWaiting(15_000, BridgeDeliveryPendingCode)
    case PipelineFailed(transient, _) =>
      if claim.attempt >= claim.maximumAttempts then MarkDeadLetter(PipelineRetriesExhausted, [])
      else MarkRetry(RetryDelay(claim.attempt, 60_000), RetryReason(transient, UnclassifiedOrchestrationFailure))
  }

  /** What reconciling a payment came to. An expired order is resolved by expiring
      the run, which is not a payment but completes the job. */
  datatype ReconcileOutcome =
    | Funded
    | OrderExpired
    | SettlementRejected(codes: seq<ErrorCode>)
    | PaymentNotReady
    | ReceiptNotYetAvailable
    | ReconcileFailed(transient: bool)

  function HandlePayment(claim: Claim, outcome: ReconcileOutcome): Finish
    requires claim.attempt >= 1
  {
    match outcome
    case Funded => MarkCompleted
    case OrderExpired => MarkCompleted
    case SettlementRejected(codes) => MarkDeadLetter(DeterministicSettlementRejection, codes)
    case PaymentNotReady => MarkWaiting(RetryDelay(claim.attempt, 30_000), PaymentNotReadyCode)
    case ReceiptNotYetAvailable => MarkWaiting(RetryDelay(claim.attempt, 30_000), ReceiptNotYetAvailableCode)
    case ReconcileFailed(transient) =>
      var reason := RetryReason(transient, UnclassifiedReconciliationFailure);
      if claim.attempt >= claim.maximumAttempts then MarkDeadLetter(reason, [])
      else MarkRetry(RetryDelay(claim.attempt, 30_000), reason)
  }

  /** One handled job of either worker. */
  datatype Handled = ByOrchestrator(pipeline: PipelineOutcome) | ByPaymentWorker(reconcile: ReconcileOutcome)

  function Handle(claim: Claim, handled: Handled): Finish
    requires claim.attempt >= 1
  {
    match handled
    case ByOrchestrator(outcome) => HandleOrchestrator(claim, outcome)
    case ByPaymentWorker(outcome) => HandlePayment(claim, outcome)
  }

  predicate HasErrorCodes(handled: Handled) {
    match handled
    case ByOrchestrator(ProcurementDenied(codes, _)) => forall c :: c in codes ==> IsErrorCode(c)
    case ByPaymentWorker(SettlementRejected(codes)) => forall c :: c in codes ==> IsErrorCode(c)
    case _ => true
  }

  /** The queue never refuses a handler's answer as malformed. */
  lemma HandlersAnswerWell(claim: Claim, handled: Handled)
    requires claim.attempt >= 1 && HasErrorCodes(handled)
    ensures IsFinish(Handle(claim, handled))
  {
  }

  /** One turn of a worker with nobody interfering: the first claimable job is
      leased, handled and finished, and the finish is never refused. */
  method ProcessNextJob(queue: JobQueue, worker: string, lease: int, now: int, handled: Handled, later: int)
    returns (processed: Result<bool, QueueError>)
    requires IsWorkerId(worker) && IsLease(lease) && HasErrorCodes(handled)
    requires "" !in queue.rows
    requires forall id :: id in queue.rows && queue.rows[id].status == Processing ==> queue.rows[id].attempts >= 1
    modifies queue
    ensures processed.Ok?
    ensures var swept := SweptRows(old(queue.rows), now, lease);
            if processed.value then
              exists id :: IsNext(swept, id, now, lease) &&
                var leased := Claimed(swept[id], worker, now);
                var claim := Claim(id, leased.attempts, leased.maximumAttempts, worker);
                claim.attempt >= 1 && queue.rows == swept[id := Finished(leased, Handle(claim, handled), later)]
            else
              queue.rows == swept && forall id :: id in swept ==> !IsClaimable(swept[id], now, lease)
  {
    ghost var swept := SweptRows(queue.rows, now, lease);
    var claimed := queue.ClaimNext(worker, lease, now);
    if claimed.value.None? { return Ok(false); }
    var claim := claimed.value.value;
    HandlersAnswerWell(claim, handled);
    var finished := queue.FinishLease(claim, Handle(claim, handled), later);
    assert IsNext(swept, claim.runId, now, lease);
    return Ok(true);
  }
}
