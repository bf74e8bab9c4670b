/** A table of leased jobs, one per run: claim, reclaim, sweep, finish, rearm. The
    orchestrator's and the payment worker's queues are the same statements over
    two tables; only the payment queue is ever rearmed. */
module LeasedQueue {
  import opened Wrappers

  datatype JobStatus = Pending | Processing | RetryScheduled | Completed | DeadLetter

  datatype ErrorCode =
    | StaleLeaseAttemptsExhausted
    | UnexpectedRunState | ProcurementDeniedCode | PaymentSendAmbiguousNeedsManualReconciliation
    | BnbSettlementAmbiguousNeedsManualReconciliation | BridgeDeliveryPendingCode | PipelineRetriesExhausted
    | TransientDependencyFailure | UnclassifiedOrchestrationFailure
    | DeterministicSettlementRejection | UnclassifiedReconciliationFailure
    | PaymentNotReadyCode | ReceiptNotYetAvailableCode
    | Reported(text: string)

  datatype JobRow = JobRow(
    status: JobStatus,
    attempts: nat,
    maximumAttempts: nat,
    availableAt: int,
    createdAt: int,
    lockedAt: Option<int>,
    lockedBy: Option<string>,
    lastErrorCode: Option<ErrorCode>,
    failureCodes: seq<ErrorCode>,
    completedAt: Option<int>)

  datatype Claim = Claim(runId: string, attempt: nat, maximumAttempts: nat, leaseOwner: string)

  /** How a worker asks to finish its lease. */
  datatype Finish =
    | MarkCompleted
    | MarkRetry(delay: nat, reason: ErrorCode)
    | MarkWaiting(delay: nat, reason: ErrorCode)
    | MarkDeadLetter(reason: ErrorCode, codes: seq<ErrorCode>)

  datatype QueueError = InvalidInput | LeaseConflict

  // ---------------------------------------------------------------- input validation

  /** The system's own codes are upper-case words; a reported one has to be
      checked against the pattern. */
  predicate IsErrorCode(code: ErrorCode) {
    code.Reported? ==>
      && 1 <= |code.text| <= 100
      && forall c :: c in code.text ==> 'A' <= c <= 'Z' || '0' <= c <= '9' || c == '_'
  }

  predicate IsWorkerId(s: string) {
    && 1 <= |s| <= 200
    && forall c :: c in s ==>
         'a' <= c <= 'z' || 'A' <= c <= 'Z' || '0' <= c <= '9' || c in {':', '_', '-'}
  }

  predicate IsLease(seconds: int) { 5 <= seconds <= 600 }

  predicate IsDelay(milliseconds: int) { 0 <= milliseconds <= 3_600_000 }

  predicate IsFinish(finish: Finish) {
    match finish
    case MarkCompleted => true
    case MarkRetry(delay, reason) => IsErrorCode(reason) && IsDelay(delay)
    case MarkWaiting(delay, reason) => IsErrorCode(reason) && IsDelay(delay)
    case MarkDeadLetter(reason, codes) => IsErrorCode(reason) && forall c :: c in codes ==> IsErrorCode(c)
  }

  // ---------------------------------------------------------------- one row

  function NewRow(maximumAttempts: nat, now: int): JobRow {
    JobRow(Pending, 0, maximumAttempts, now, now, None, None, None, [], None)
  }

  predicate IsWaiting(row: JobRow) { row.status in {Pending, RetryScheduled} }

  predicate IsFinished(row: JobRow) { row.status in {Completed, DeadLetter} }

  predicate IsStale(row: JobRow, now: int, lease: int) {
    row.status == Processing && row.lockedAt.Some? && row.lockedAt.value <= now - lease * 1_000
  }

  predicate IsClaimable(row: JobRow, now: int, lease: int) {
    && row.attempts < row.maximumAttempts
    && ((IsWaiting(row) && row.availableAt <= now) || IsStale(row, now, lease))
  }

  /** A stale lease on the last allowed attempt is dead-lettered by the sweep. */
  function Swept(row: JobRow, now: int, lease: int): JobRow {
    if IsStale(row, now, lease) && row.attempts >= row.maximumAttempts
    then row.(status := DeadLetter, lockedAt := None, lockedBy := None, lastErrorCode := Some(StaleLeaseAttemptsExhausted))
    else row
  }

  /** Reclaiming a stale lease does not consume an attempt. */
  function Claimed(row: JobRow, worker: string, now: int): JobRow {
    row.(status := Processing,
         attempts := row.attempts + (if row.status == Processing then 0 else 1),
         lockedAt := Some(now),
         lockedBy := Some(worker))
  }

  predicate Owns(row: JobRow, claim: Claim) {
    row.status == Processing && row.lockedBy == Some(claim.leaseOwner) && row.attempts == claim.attempt
  }

  function Finished(row: JobRow, finish: Finish, now: int): JobRow {
    var released := row.(lockedAt := None, lockedBy := None);
    match finish
    case MarkCompleted =>
      released.(status := Completed, lastErrorCode := None, failureCodes := [], completedAt := Some(now))
    case MarkRetry(delay, reason) =>
      released.(status := RetryScheduled, availableAt := now + delay, lastErrorCode := Some(reason), failureCodes := [])
    case MarkWaiting(delay, reason) =>
      released.(status := RetryScheduled, attempts := if row.attempts == 0 then 0 else row.attempts - 1,
                availableAt := now + delay, lastErrorCode := Some(reason), failureCodes := [])
    case MarkDeadLetter(reason, codes) =>
      released.(status := DeadLetter, lastErrorCode := Some(reason), failureCodes := codes)
  }

  function Rearmed(row: JobRow, now: int): JobRow {
    if row.status == DeadLetter
    then row.(status := Pending, attempts := 0, availableAt := now, lockedAt := None, lockedBy := None,
              lastErrorCode := None, failureCodes := [], completedAt := None)
    else row
  }

  // ---------------------------------------------------------------- the whole table

  function SweptRows(rows: map<string, JobRow>, now: int, lease: int): map<string, JobRow> {
    map id | id in rows :: Swept(rows[id], now, lease)
  }

  /** `id` is a claimable row that no claimable row precedes in the claim order. */
  predicate IsNext(rows: map<string, JobRow>, id: string, now: int, lease: int) {
    && id in rows
    && IsClaimable(rows[id], now, lease)
    && forall other :: other in rows && IsClaimable(rows[other], now, lease) ==> !Precedes(rows[other], rows[id])
  }

  predicate Precedes(a: JobRow, b: JobRow) {
    a.availableAt < b.availableAt || (a.availableAt == b.availableAt && a.createdAt < b.createdAt)
  }

  predicate IsNoLater(a: JobRow, b: JobRow) {
    a.availableAt <= b.availableAt && (a.availableAt == b.availableAt ==> a.createdAt <= b.createdAt)
  }

  /** A non-empty set of rows has one that none of the others precedes. */
  lemma {:induction false} FirstExists(rows: map<string, JobRow>, ids: set<string>) returns (first: string)
    requires ids != {} && ids <= rows.Keys
    ensures first in ids && forall other :: other in ids ==> !Precedes(rows[other], rows[first])
    decreases ids
  {
    var id :| id in ids;
    if ids == {id} {
      first := id;
    } else {
      var rest := FirstExists(rows, ids - {id});
      first := if Precedes(rows[id], rows[rest]) then id else rest;
      assert forall other :: other in ids ==> other == id || other in ids - {id};
    }
  }

  /** Only what waited until it was available, or what was leased long enough ago,
      is leased, and from now on. */
  predicate IsLeasedInTime(before: JobRow, after: JobRow, worker: string, now: int, lease: int) {
    && before.attempts < before.maximumAttempts
    && (before.status == Pending || before.status == RetryScheduled ==>
          before.availableAt <= now && after.attempts == before.attempts + 1)
    && (before.status == Processing ==>
          && before.lockedAt.Some? && before.lockedAt.value + lease * 1_000 <= now
          && after.attempts == before.attempts)
    && before.status != Completed && before.status != DeadLetter
    && after.status == Processing && after.lockedBy == Some(worker) && after.lockedAt == Some(now)
  }

  /** Only a lease that has run out on the last allowed attempt is ended by a sweep. */
  predicate IsSweptInTime(before: JobRow, after: JobRow, now: int, lease: int) {
    if before.status == Processing && before.lockedAt.Some? && before.lockedAt.value + lease * 1_000 <= now
       && before.maximumAttempts <= before.attempts
    then
      && after.status == DeadLetter && after.lastErrorCode == Some(StaleLeaseAttemptsExhausted)
      && after.lockedAt.None? && after.lockedBy.None?
      && after.attempts == before.attempts && after.availableAt == before.availableAt
    else after == before
  }

  lemma SweepIsInTime(rows: map<string, JobRow>, now: int, lease: int)
    ensures forall id :: id in rows ==> IsSweptInTime(rows[id], SweptRows(rows, now, lease)[id], now, lease)
  {
  }

  lemma NextIsNoLater(rows: map<string, JobRow>, id: string, now: int, lease: int)
    requires IsNext(rows, id, now, lease)
    ensures forall other :: other in rows && IsClaimable(rows[other], now, lease) ==> IsNoLater(rows[id], rows[other])
  {
  }

  lemma LeaseIsInTime(row: JobRow, worker: string, now: int, lease: int)
    requires IsClaimable(Swept(row, now, lease), now, lease)
    ensures IsLeasedInTime(row, Claimed(Swept(row, now, lease), worker, now), worker, now, lease)
  {
  }

  /** Every finish gives the lease back. A completed job records when, a retry and a
      wait come due after their delay, a wait gives the attempt back, and whatever
      did not complete says why. */
  predicate IsFinishedAs(before: JobRow, after: JobRow, finish: Finish, now: int) {
    && after.lockedAt.None? && after.lockedBy.None?
    && after.maximumAttempts == before.maximumAttempts && after.createdAt == before.createdAt
    && after.attempts == (if finish.MarkWaiting? && before.attempts > 0 then before.attempts - 1 else before.attempts)
    && after.availableAt == (if finish.MarkRetry? || finish.MarkWaiting? then now + finish.delay else before.availableAt)
    && after.lastErrorCode == (if finish.MarkCompleted? then None else Some(finish.reason))
    && after.failureCodes == (if finish.MarkDeadLetter? then finish.codes else [])
    && (finish.MarkCompleted? ==> after.status == Completed && after.completedAt == Some(now))
    && (finish.MarkRetry? || finish.MarkWaiting? ==> after.status == RetryScheduled)
    && (finish.MarkDeadLetter? ==> after.status == DeadLetter)
    && (!finish.MarkCompleted? ==> after.completedAt == before.completedAt)
  }

  class JobQueue {
    var rows: map<string, JobRow>

    constructor ()
      ensures rows == map[]
    {
      rows := map[];
    }

    /** Inserting a job for a run that has one does nothing. */
    method Enqueue(id: string, maximumAttempts: nat, now: int)
      modifies this
      ensures rows == if id in old(rows) then old(rows) else old(rows)[id := NewRow(maximumAttempts, now)]
    {
      if id !in rows {
        rows := rows[id := NewRow(maximumAttempts, now)];
      }
    }

    /** Sweeps, then leases the first claimable row. Nothing is leased exactly when
        nothing was claimable. */
    method ClaimNext(worker: string, lease: int, now: int) returns (claim: Result<Option<Claim>, QueueError>)
      modifies this
      ensures !IsWorkerId(worker) || lease < 5 || 600 < lease ==> claim == Err(InvalidInput) && rows == old(rows)
      ensures rows.Keys == old(rows).Keys
      ensures IsWorkerId(worker) && 5 <= lease <= 600 ==>
                forall id :: id in rows && !(claim.Ok? && claim.value.Some? && claim.value.value.runId == id) ==>
                  IsSweptInTime(old(rows)[id], rows[id], now, lease)
      ensures IsWorkerId(worker) && 5 <= lease <= 600 ==>
                var swept := SweptRows(old(rows), now, lease);
                && claim.Ok?
                && (claim.value.None? ==>
                      && rows == swept
                      && (forall id :: id in swept ==> !IsClaimable(swept[id], now, lease))
                      && forall id :: id in rows && rows[id].attempts < rows[id].maximumAttempts ==>
                           && (rows[id].status == Pending || rows[id].status == RetryScheduled ==> now < rows[id].availableAt)
                           && (rows[id].status == Processing && rows[id].lockedAt.Some? ==>
                                 now < rows[id].lockedAt.value + lease * 1_000))
                && (claim.value.Some? ==>
                      var id := claim.value.value.runId;
                      && IsNext(swept, id, now, lease)
                      && rows == swept[id := Claimed(swept[id], worker, now)]
                      && claim.value.value == Claim(id, rows[id].attempts, rows[id].maximumAttempts, worker)
                      && Owns(rows[id], claim.value.value)
                      && IsLeasedInTime(old(rows)[id], rows[id], worker, now, lease)
                      && forall other :: other in swept && IsClaimable(swept[other], now, lease) ==>
                           IsNoLater(swept[id], swept[other]))
    {
      if !IsWorkerId(worker) || !IsLease(lease) { return Err(InvalidInput); }
      hide IsSweptInTime, IsNoLater, IsLeasedInTime;
      SweepIsInTime(rows, now, lease);
      rows := SweptRows(rows, now, lease);
      var candidates := set id | id in rows && IsClaimable(rows[id], now, lease);
      if candidates == {} {
        assert forall id :: id in rows && IsClaimable(rows[id], now, lease) ==> id in candidates;
        return Ok(None);
      }
      ghost var first := FirstExists(rows, candidates);
      assert IsNext(rows, first, now, lease);
      var id :| id in rows && IsNext(rows, id, now, lease);
      NextIsNoLater(rows, id, now, lease);
      LeaseIsInTime(old(rows)[id], worker, now, lease);
      rows := rows[id := Claimed(rows[id], worker, now)];
      return Ok(Some(Claim(id, rows[id].attempts, rows[id].maximumAttempts, worker)));
    }

    /** Every finish goes through the lease guard; a finish that does not own the
        row changes nothing and reports the conflict. */
    method FinishLease(claim: Claim, finish: Finish, now: int) returns (outcome: Result<(), QueueError>)
      modifies this
      ensures !IsFinish(finish) || !IsWorkerId(claim.leaseOwner) || claim.runId == "" || claim.attempt < 1 ==>
                outcome == Err(InvalidInput) && rows == old(rows)
      ensures (finish.MarkRetry? || finish.MarkWaiting?) && finish.delay > 3_600_000 ==> outcome == Err(InvalidInput)
      ensures IsFinish(finish) && IsWorkerId(claim.leaseOwner) && claim.runId != "" && claim.attempt >= 1 ==>
                if claim.runId in old(rows) && old(rows)[claim.runId].status == Processing
                   && old(rows)[claim.runId].lockedBy == Some(claim.leaseOwner)
                   && old(rows)[claim.runId].attempts == claim.attempt
                then
                  && outcome.Ok? && rows == old(rows)[claim.runId := Finished(old(rows)[claim.runId], finish, now)]
                  && IsFinishedAs(old(rows)[claim.runId], rows[claim.runId], finish, now)
                else outcome == Err(LeaseConflict) && rows == old(rows)
    {
      if !IsFinish(finish) || !IsWorkerId(claim.leaseOwner) || claim.runId == "" || claim.attempt < 1 {
        return Err(InvalidInput);
      }
      if claim.runId !in rows || !Owns(rows[claim.runId], claim) { return Err(LeaseConflict); }
      rows := rows[claim.runId := Finished(rows[claim.runId], finish, now)];
      return Ok(());
    }

    /** Only a dead-lettered job comes back, as good as new: due at once with all its
        attempts before it. Everything else stays as it was. */
    method Rearm(id: string, now: int)
      modifies this
      ensures rows.Keys == old(rows).Keys
      ensures forall other :: other in rows && !(other == id && old(rows)[id].status == DeadLetter) ==>
                rows[other] == old(rows)[other]
      ensures id in old(rows) && old(rows)[id].status == DeadLetter ==>
                && rows[id] == NewRow(old(rows)[id].maximumAttempts, now).(createdAt := old(rows)[id].createdAt)
                && (rows[id].maximumAttempts > 0 ==> forall lease :: IsClaimable(rows[id], now, lease))
    {
      if id in rows {
        rows := rows[id := Rearmed(rows[id], now)];
      }
    }
  }
}
