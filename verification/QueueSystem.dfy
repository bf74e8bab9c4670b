/** The queue and its workers interleaved: any number of workers, any of which
    may stall, crash or come back late with a claim that has been taken over. */
module QueueSystem {
  import opened Wrappers
  import opened LeasedQueue
  import opened JobHandlers

  /** `retries` counts the retries that took effect on a job since it was created
      or last rearmed; `claims` are all leases ever handed out, live or stale. */
  datatype Sys = Sys(rows: map<string, JobRow>, retries: map<string, nat>, claims: set<Claim>)

  datatype Action =
    | Enqueue(id: string, maximumAttempts: nat, now: int)
    | Sweep(now: int, lease: int)
    | Lease(id: string, worker: string, now: int, lease: int)
    | Finish(claim: Claim, handled: Handled, now: int)
    | Rearm(id: string, now: int)

  const Initial := Sys(map[], map[], {})

  /** Rows are created with at least one allowed attempt. The sweep and the claim
      are two statements, so other workers may act between them; a claim that skips
      rows others have locked may lease any claimable row. */
  function Step(s: Sys, a: Action): Sys {
    match a
    case Enqueue(id, maximumAttempts, now) =>
      if id in s.rows || maximumAttempts < 1 then s
      else s.(rows := s.rows[id := NewRow(maximumAttempts, now)], retries := s.retries[id := 0])
    case Sweep(now, lease) =>
      s.(rows := SweptRows(s.rows, now, lease))
    case Lease(id, worker, now, lease) =>
      if id !in s.rows || !IsClaimable(s.rows[id], now, lease) then s
      else
        var row := Claimed(s.rows[id], worker, now);
        s.(rows := s.rows[id := row],
           claims := s.claims + {Claim(id, row.attempts, row.maximumAttempts, worker)})
    case Finish(claim, handled, now) =>
      if claim !in s.claims || claim.attempt < 1 || !OwnsRow(s, claim) then s
      else
        var finish := Handle(claim, handled);
        s.(rows := s.rows[claim.runId := Finished(s.rows[claim.runId], finish, now)],
           retries := if finish.MarkRetry? && claim.runId in s.retries
           then s.retries[claim.runId := s.retries[claim.runId] + 1] else s.retries)
    case Rearm(id, now) =>
      if id !in s.rows || s.rows[id].status != DeadLetter then s
      else s.(rows := s.rows[id := Rearmed(s.rows[id], now)], retries := s.retries[id := 0])
  }

  predicate OwnsRow(s: Sys, claim: Claim) {
    claim.runId in s.rows && Owns(s.rows[claim.runId], claim)
  }

  function ExecuteFrom(s: Sys, actions: seq<Action>): Sys {
    if actions == [] then s
    else Step(ExecuteFrom(s, actions[..|actions| - 1]), actions[|actions| - 1])
  }

  function Execute(actions: seq<Action>): Sys { ExecuteFrom(Initial, actions) }

  // ---------------------------------------------------------------- the invariant

  predicate RowHolds(row: JobRow, retries: nat) {
    && row.attempts == retries + (if IsWaiting(row) then 0 else 1)
    && row.attempts <= row.maximumAttempts
    && 1 <= row.maximumAttempts
    && (IsWaiting(row) ==> row.attempts < row.maximumAttempts)
    && (row.status == Processing <==> row.lockedAt.Some?)
    && (row.status == Processing <==> row.lockedBy.Some?)
    && (row.status == Completed <==> row.completedAt.Some?)
  }

  ghost predicate Holds(s: Sys) {
    && s.retries.Keys == s.rows.Keys
    && (forall id :: id in s.rows ==> RowHolds(s.rows[id], s.retries[id]))
    && (forall c :: c in s.claims ==>
          && c.runId in s.rows
          && c.maximumAttempts == s.rows[c.runId].maximumAttempts
          && 1 <= c.attempt <= c.maximumAttempts)
  }

  lemma FinishedHolds(row: JobRow, retries: nat, claim: Claim, handled: Handled, now: int)
    requires RowHolds(row, retries) && Owns(row, claim) && claim.maximumAttempts == row.maximumAttempts
    ensures claim.attempt >= 1
    ensures var finish := Handle(claim, handled);
            RowHolds(Finished(row, finish, now), if finish.MarkRetry? then retries + 1 else retries)
  {
  }

  lemma SweepHolds(s: Sys, now: int, lease: int)
    requires Holds(s)
    ensures Holds(Step(s, Sweep(now, lease)))
  {
  }

  lemma LeaseHolds(s: Sys, id: string, worker: string, now: int, lease: int)
    requires Holds(s)
    ensures Holds(Step(s, Lease(id, worker, now, lease)))
  {
  }

  lemma StepHolds(s: Sys, a: Action)
    requires Holds(s)
    ensures Holds(Step(s, a))
  {
    match a
    case Enqueue(_, _, _) =>
    case Sweep(now, lease) => SweepHolds(s, now, lease);
    case Lease(id, worker, now, lease) => LeaseHolds(s, id, worker, now, lease);
    case Finish(claim, handled, now) =>
      if claim in s.claims && OwnsRow(s, claim) {
        FinishedHolds(s.rows[claim.runId], s.retries[claim.runId], claim, handled, now);
      }
    case Rearm(_, _) =>
  }

  lemma {:induction false} HoldsFrom(s: Sys, actions: seq<Action>)
    requires Holds(s)
    ensures Holds(ExecuteFrom(s, actions))
  {
    if actions != [] {
      HoldsFrom(s, actions[..|actions| - 1]);
      StepHolds(ExecuteFrom(s, actions[..|actions| - 1]), actions[|actions| - 1]);
    }
  }

  /** In every state that any schedule of workers reaches, a job's attempts are its
      retries so far, plus one while it is leased or finished; they never exceed
      the maximum; a waiting job is strictly below it; and the table's checks on
      lock and completion columns hold. */
  lemma AttemptsCountRetries(actions: seq<Action>, id: string)
    requires id in Execute(actions).rows
    ensures var s := Execute(actions);
            && id in s.retries
            && RowHolds(s.rows[id], s.retries[id])
            && s.retries[id] < s.rows[id].maximumAttempts
  {
    HoldsFrom(Initial, actions);
  }

  // ---------------------------------------------------------------- no job is stranded

  /** The moment from which a live row can be picked up again. */
  function DueAt(row: JobRow, lease: int): int {
    if row.status == Processing && row.lockedAt.Some? then row.lockedAt.value + lease * 1_000 else row.availableAt
  }

  /** Every live job is, once due, either claimable or dead-lettered by the sweep:
      none is unclaimable forever. */
  lemma LiveJobsAreClaimedOrSwept(actions: seq<Action>, id: string, now: int, lease: int)
    requires id in Execute(actions).rows && !IsFinished(Execute(actions).rows[id])
    requires now >= DueAt(Execute(actions).rows[id], lease)
    ensures var row := Execute(actions).rows[id];
            var swept := Step(Execute(actions), Sweep(now, lease)).rows[id];
            if row.attempts < row.maximumAttempts then swept == row && IsClaimable(swept, now, lease)
            else row.status == Processing && swept.status == DeadLetter
  {
    HoldsFrom(Initial, actions);
  }

  /** A rearmed job can be claimed at once, with all its attempts before it. */
  lemma RearmedJobIsDue(actions: seq<Action>, id: string, now: int, lease: int)
    requires id in Execute(actions).rows && Execute(actions).rows[id].status == DeadLetter
    ensures var s := Step(Execute(actions), Rearm(id, now));
            id in s.rows && s.rows[id].attempts == 0 == s.retries[id] && IsClaimable(s.rows[id], now, lease)
  {
    HoldsFrom(Initial, actions);
  }

  // ---------------------------------------------------------------- a lease excludes the others

  /** A waiting job is not leased before it is available. */
  lemma WaitingJobIsLeft(s: Sys, id: string, worker: string, now: int, lease: int)
    requires id in s.rows && (s.rows[id].status == Pending || s.rows[id].status == RetryScheduled)
    ensures now < s.rows[id].availableAt ==> Step(s, Lease(id, worker, now, lease)) == s
    ensures now >= s.rows[id].availableAt && s.rows[id].attempts < s.rows[id].maximumAttempts ==>
              var leased := Step(s, Lease(id, worker, now, lease)).rows[id];
              leased.status == Processing && leased.lockedBy == Some(worker) && leased.lockedAt == Some(now)
  {
  }

  /** The action leaves a lease that was taken at `t` its time, and is not the
      finish of its owner. */
  predicate LeavesLease(a: Action, id: string, owner: Claim, t: int) {
    match a
    case Sweep(now, lease) => now < t + lease * 1_000
    case Lease(other, _, now, lease) => other == id ==> now < t + lease * 1_000
    case Finish(claim, _, _) => claim.runId == id ==> claim.leaseOwner != owner.leaseOwner || claim.attempt != owner.attempt
    case _ => true
  }

  /** After the actions the row is as its owner leased it, and the owner can finish. */
  ghost predicate IsRespected(s: Sys, owner: Claim, actions: seq<Action>) {
    var after := ExecuteFrom(s, actions);
    && owner.attempt >= 1 && owner.runId in s.rows && owner.runId in after.rows
    && after.rows[owner.runId] == s.rows[owner.runId]
    && forall handled, now :: Step(after, Finish(owner, handled, now)).rows
         == after.rows[owner.runId := Finished(s.rows[owner.runId], Handle(owner, handled), now)]
  }

  /** While a lease has not run out by anybody's count, nobody else gets the job and
      no sweep ends it, and so its owner's finish goes through. */
  lemma {:induction false} LiveLeaseIsRespected(s: Sys, owner: Claim, t: int, actions: seq<Action>)
    requires owner.runId in s.rows && owner in s.claims
    requires var row := s.rows[owner.runId];
             && row.status == Processing && row.lockedBy == Some(owner.leaseOwner) && row.lockedAt == Some(t)
             && row.attempts == owner.attempt >= 1
    requires forall k :: 0 <= k < |actions| ==> LeavesLease(actions[k], owner.runId, owner, t)
    ensures IsRespected(s, owner, actions) && owner in ExecuteFrom(s, actions).claims
  {
    if actions != [] {
      LiveLeaseIsRespected(s, owner, t, actions[..|actions| - 1]);
      assert LeavesLease(actions[|actions| - 1], owner.runId, owner, t);
    }
  }

  predicate AllLeaveLease(actions: seq<Action>, owner: Claim, t: int) {
    forall k :: 0 <= k < |actions| ==> LeavesLease(actions[k], owner.runId, owner, t)
  }

  /** Every lease that is taken, in any state that any schedule reaches, is such a
      lease: what was free to take is now its worker's, from now on. */
  lemma TakenLeaseIsRespected(before: seq<Action>, id: string, worker: string, now: int, lease: int) returns (owner: Claim)
    requires Step(Execute(before), Lease(id, worker, now, lease)) != Execute(before)
    ensures var free, s := Execute(before), Step(Execute(before), Lease(id, worker, now, lease));
            && id in free.rows && id in s.rows && IsLeasedInTime(free.rows[id], s.rows[id], worker, now, lease)
            && owner.runId == id && owner.leaseOwner == worker && owner in s.claims && owner.attempt >= 1
            && forall actions :: AllLeaveLease(actions, owner, now) ==> IsRespected(s, owner, actions)
  {
    HoldsFrom(Initial, before);
    var s := Step(Execute(before), Lease(id, worker, now, lease));
    owner := Claim(id, s.rows[id].attempts, s.rows[id].maximumAttempts, worker);
    forall actions | AllLeaveLease(actions, owner, now) ensures IsRespected(s, owner, actions) {
      LiveLeaseIsRespected(s, owner, now, actions);
    }
  }

  // ---------------------------------------------------------------- what spends an attempt

  /** Outcomes that mean: not yet. */
  predicate IsNotYet(handled: Handled) {
    match handled
    case ByOrchestrator(outcome) => outcome.BridgeDeliveryPending?
    case ByPaymentWorker(outcome) => outcome.PaymentNotReady? || outcome.ReceiptNotYetAvailable?
  }

  /** Outcomes that may go away by themselves. */
  predicate IsRetryable(handled: Handled) {
    match handled
    case ByOrchestrator(outcome) => outcome.PipelineFailed?
    case ByPaymentWorker(outcome) => outcome.ReconcileFailed?
  }

  /** What one lease of a waiting job comes to. Waiting is free; a retryable failure
      costs an attempt and the last one dead-letters the job; everything else, and
      ambiguous money above all, ends it there and then. */
  lemma LeaseSpendsAnAttemptExactlyOnFailure(row: JobRow, id: string, worker: string, now: int, handled: Handled, later: int)
    requires IsWaiting(row) && row.attempts < row.maximumAttempts
    ensures var leased := Claimed(row, worker, now);
            var done := Finished(leased, Handle(Claim(id, leased.attempts, leased.maximumAttempts, worker), handled), later);
            && (IsNotYet(handled) ==>
                  && IsWaiting(done) && done.attempts == row.attempts
                  && done.availableAt == later + (if handled == ByOrchestrator(BridgeDeliveryPending) then 15_000
                                                  else RetryDelay(row.attempts + 1, 30_000)))
            && (IsRetryable(handled) ==>
                  && done.attempts == row.attempts + 1
                  && (IsWaiting(done) <==> done.attempts < row.maximumAttempts)
                  && (done.status == DeadLetter <==> done.attempts == row.maximumAttempts)
                  && (IsWaiting(done) ==>
                        done.availableAt
                          == later + RetryDelay(done.attempts, if handled.ByOrchestrator? then 60_000 else 30_000)))
            && (!IsNotYet(handled) && !IsRetryable(handled) ==> IsFinished(done))
            && (done.status == Completed <==>
                  handled in {ByOrchestrator(Delivered), ByPaymentWorker(Funded), ByPaymentWorker(OrderExpired)})
  {
  }

  /** The code left on a row tells the outcomes that need a human apart from all
      others, and a denial or rejection keeps the codes it came with. */
  lemma RowSaysWhy(row: JobRow, claim: Claim, handled: Handled, later: int)
    requires Owns(row, claim) && claim.attempt >= 1
    ensures var done := Finished(row, Handle(claim, handled), later);
            && (done.lastErrorCode == Some(PaymentSendAmbiguousNeedsManualReconciliation) <==>
                  handled == ByOrchestrator(PaymentSendAmbiguous))
            && (done.lastErrorCode == Some(BnbSettlementAmbiguousNeedsManualReconciliation) <==>
                  handled == ByOrchestrator(SettlementAmbiguous))
            && (done.lastErrorCode == Some(PipelineRetriesExhausted) <==>
                  handled.ByOrchestrator? && handled.pipeline.PipelineFailed? && claim.maximumAttempts <= claim.attempt)
            && (done.lastErrorCode == Some(UnexpectedRunState) <==> handled == ByOrchestrator(RunNotReady))
            && (done.lastErrorCode == Some(ProcurementDeniedCode) <==>
                  handled.ByOrchestrator? && handled.pipeline.ProcurementDenied? && done.failureCodes == handled.pipeline.codes)
            && (done.lastErrorCode == Some(DeterministicSettlementRejection) <==>
                  handled.ByPaymentWorker? && handled.reconcile.SettlementRejected?
                  && done.failureCodes == handled.reconcile.codes)
            && (done.lastErrorCode == Some(TransientDependencyFailure) ==>
                  (handled.ByOrchestrator? && handled.pipeline.PipelineFailed? && handled.pipeline.transient)
                  || (handled.ByPaymentWorker? && handled.reconcile.ReconcileFailed? && handled.reconcile.transient))
  {
  }

  /** Delays double from five seconds up to the cap. */
  lemma DelaysDouble(attempt: nat, cap: nat)
    requires attempt >= 1 && cap >= 5_000
    ensures RetryDelay(1, cap) == 5_000
    ensures var doubled := 2 * RetryDelay(attempt, cap);
            RetryDelay(attempt + 1, cap) == if doubled < cap then doubled else cap
  {
    assert Power2(attempt) == 2 * Power2(attempt - 1);
  }

  // ---------------------------------------------------------------- stale workers

  predicate LeasesTo(a: Action, id: string, worker: string) {
    a.Lease? && a.id == id && a.worker == worker
  }

  /** Once a row is not held by a worker id, it stays so until that id leases it
      again. */
  lemma {:induction false} OustedStaysOusted(s: Sys, actions: seq<Action>, id: string, worker: string)
    requires id in s.rows && s.rows[id].lockedBy != Some(worker)
    requires forall i :: 0 <= i < |actions| ==> !LeasesTo(actions[i], id, worker)
    ensures id in ExecuteFrom(s, actions).rows && ExecuteFrom(s, actions).rows[id].lockedBy != Some(worker)
  {
    if actions != [] {
      OustedStaysOusted(s, actions[..|actions| - 1], id, worker);
    }
  }

  /** A worker whose lease passed to a different worker id changes nothing when it
      finally finishes, whatever happened in between. */
  lemma OustedWorkerChangesNothing(
      s: Sys, taker: Action, between: seq<Action>, claim: Claim, handled: Handled, now: int)
    requires taker.Lease? && taker.id == claim.runId && taker.worker != claim.leaseOwner
    requires taker.id in s.rows && IsClaimable(s.rows[taker.id], taker.now, taker.lease)
    requires forall i :: 0 <= i < |between| ==> !LeasesTo(between[i], claim.runId, claim.leaseOwner)
    ensures var late := ExecuteFrom(Step(s, taker), between);
            Step(late, Finish(claim, handled, now)) == late
  {
    OustedStaysOusted(Step(s, taker), between, claim.runId, claim.leaseOwner);
  }

  /** Exactly which late finishes get through: the row is leased to the same worker
      id at the same attempt. Reclaiming does not consume an attempt, so a worker
      that restarts under its old id can finish on behalf of its earlier self. */
  lemma FinishesExactlyWhenOwner(s: Sys, claim: Claim, handled: Handled, now: int)
    requires Holds(s) && claim in s.claims
    ensures Step(s, Finish(claim, handled, now)) != s <==>
              && claim.runId in s.rows && s.rows[claim.runId].status == Processing
              && s.rows[claim.runId].lockedBy == Some(claim.leaseOwner) && s.rows[claim.runId].attempts == claim.attempt
  {
  }

  /** Such a finish is possible: after a reclaim under the same id, the claim from
      before the reclaim still finishes the job. */
  lemma SameIdFinishesForItsEarlierSelf()
    ensures var first := Step(Step(Initial, Enqueue("run_1", 8, 0)), Lease("run_1", "w", 0, 5));
            var reclaimed := Step(first, Lease("run_1", "w", 5_000, 5));
            var early := Claim("run_1", 1, 8, "w");
            && early in first.claims
            && reclaimed.rows["run_1"].lockedAt == Some(5_000)
            && Step(reclaimed, Finish(early, ByOrchestrator(Delivered), 5_001)).rows["run_1"].status == Completed
  {
  }
}
