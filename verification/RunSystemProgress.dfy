/** What a writer achieves when nobody comes in between, from any state that any
    interleaving reaches. */
module RunSystemProgress {
  import opened Wrappers
  import opened RunDomain
  import opened RunStore
  import opened RunSystem
  import opened RunSystemProofs

  /** A request creates its run, quoted, exactly if neither its id nor its own key was
      used before. */
  lemma FreshRequestIsQuoted(actions: seq<Action>, id: string, clientKey: string, now: int)
    requires id != "" && clientKey != ""
    ensures var db, after := Execute(actions).db, Step(Execute(actions), CreateRun(id, clientKey, now)).db;
            if id in db.runs || exists other :: other in db.runs && db.runs[other].requestKey == clientKey
            then after == db
            else
              && after.runs == db.runs[id := RunRow(clientKey, Quoted, None, 1, now, now, None, None)]
              && id in after.events && |after.events[id]| == 1 && after.outbox == db.outbox + after.events[id]
              && after.events[id][0] == Event(id, Draft, Quoted, QuoteEngine, 1, clientKey + ":quoted", now)
              && after.receipts == db.receipts && after.paymentJobs == db.paymentJobs
              && after.orchestratorJobs == db.orchestratorJobs
  {
    var key := QuotedKey(clientKey);
    assert |key| >= 8;
    assert TransitionRun(DraftRun(id, now), QuotedCommand(clientKey, now)).Ok?;
  }

  /** A save that the machine accepts, decided on the stored run, is stored: row, log,
      outbox and the session's own copy, and a payment job on entering PAYMENT_REQUIRED. */
  lemma CurrentSaveIsStored(actions: seq<Action>, session: nat, caller: Caller, now: int, next: Run, e: Event)
    requires session in Execute(actions).held && !(caller.Worker? && caller.to == Funded)
    requires var s, run := Execute(actions), Execute(actions).held[session];
             && run.id in s.db.runs && run.revision == s.db.runs[run.id].revision
             && TransitionRun(run, CallerCommand(run, caller, now)) == Ok(Transitioned(next, Some(e)))
    ensures var s, after := Execute(actions), Step(Execute(actions), SaveStep(session, caller, now));
            IsSaved(s.db, next, e, after.db) && after.held == s.held[session := next]
  {
    hide Execute, DbHolds, IsSnapshot, TransitionRun, SaveResult, IsSaved;
    EveryInterleavingHolds(actions);
    var s := Execute(actions);
    SaveGoesThrough(s.db, s.held[session], caller, now, next, e);
  }

  predicate IsSaved(db: Db, next: Run, e: Event, after: Db) {
    && Known(db, next.id) && Known(after, next.id) && LoadRun(after, next.id) == next
    && after.events == db.events[next.id := db.events[next.id] + [e]] && after.outbox == db.outbox + [e]
    && (next.status == PaymentRequired ==> next.id in after.paymentJobs)
  }

  lemma SaveGoesThrough(db: Db, run: Run, caller: Caller, now: int, next: Run, e: Event)
    requires DbHolds(db) && IsSnapshot(db, run) && run.revision == db.runs[run.id].revision
    requires !(caller.Worker? && caller.to == Funded)
    requires TransitionRun(run, CallerCommand(run, caller, now)) == Ok(Transitioned(next, Some(e)))
    ensures SaveResult(db, next, e, run.revision).Ok? && IsSaved(db, next, e, SaveResult(db, next, e, run.revision).value)
  {
    TransitionKeepsId(run, CallerCommand(run, caller, now));
    assert e.to == next.status;
    hide DbHolds, KeyFits, TransitionRun, Fold, CallerKey;
    CallerKeyFits(run.id, caller);
    SaveHolds(db, run, CallerCommand(run, caller, now), next, e);
    SaveIsInserted(db, run, next, e);
  }

  lemma SaveIsInserted(db: Db, run: Run, next: Run, e: Event)
    requires Known(db, run.id) && e.runId == next.id == run.id
    requires SaveResult(db, next, e, run.revision).Ok?
    ensures var after := SaveResult(db, next, e, run.revision).value;
            && after.events == db.events[next.id := db.events[next.id] + [e]] && after.outbox == db.outbox + [e]
            && (e.to == PaymentRequired ==> next.id in after.paymentJobs)
  {
  }

  // ---------------------------------------------------------------- payment

  /** A worker that loads a run waiting for payment and commits a new payment for it
      funds it and completes its job. */
  lemma WaitingRunIsFunded(actions: seq<Action>, id: string, session: nat, payment: Payment, now: int)
    requires id in Execute(actions).db.runs && Execute(actions).db.runs[id].status == PaymentRequired
    requires payment.amount > 0 && IsNewPayment(Execute(actions).db, id, payment)
    requires Execute(actions).db.runs[id].updatedAt <= now
    ensures var s := Execute(actions);
            var paid := Step(Step(s, LoadPayment(session, id)), CommitPayment(session, payment, now));
            var after := Step(paid, CompleteJob(session)).db;
            IsFundedBy(s.db, id, payment, paid.db) && after == paid.db.(paymentJobs := s.db.paymentJobs[id := Completed])
  {
    hide Execute, DbHolds, IsNewPayment, TransitionRun, CommitFundedResult, IsFundedBy;
    EveryInterleavingHolds(actions);
    var s := Execute(actions);
    JobIsThere(s.db, id);
    var next, e := PaymentGoesThrough(s.db, id, payment, now);
    var loaded := Step(s, LoadPayment(session, id));
    var paid := Step(loaded, CommitPayment(session, payment, now));
    JobStays(s.db, id, payment, paid.db);
  }

  /** Receipt, row and orchestrator job are there, one revision on. */
  predicate IsFundedBy(db: Db, id: string, payment: Payment, after: Db) {
    && id in db.runs && id in after.runs && after.runs[id].status == Funded
    && after.runs[id].revision == db.runs[id].revision + 1
    && after.runs[id].paymentAtomic == Some(payment.amount)
    && after.runs[id].paymentProofHash == Some(payment.proofHash)
    && after.receipts == db.receipts[id := payment]
    && after.orchestratorJobs == db.orchestratorJobs + {id} && after.paymentJobs == db.paymentJobs
  }

  lemma JobStays(db: Db, id: string, payment: Payment, after: Db)
    requires IsFundedBy(db, id, payment, after)
    ensures after.paymentJobs == db.paymentJobs
  {
  }

  lemma JobIsThere(db: Db, id: string)
    requires DbHolds(db) && id in db.runs && db.runs[id].status == PaymentRequired
    ensures Known(db, id) && id in db.paymentJobs
  {
    assert RunHolds(db, id);
  }

  lemma PaymentGoesThrough(db: Db, id: string, payment: Payment, now: int) returns (next: Run, e: Event)
    requires DbHolds(db) && Known(db, id) && db.runs[id].status == PaymentRequired && db.runs[id].updatedAt <= now
    requires payment.amount > 0 && IsNewPayment(db, id, payment)
    ensures TransitionRun(LoadRun(db, id), PaymentCommand(LoadRun(db, id), payment, now)) == Ok(Transitioned(next, Some(e)))
    ensures e.runId == next.id == id
    ensures var committed := CommitFundedResult(db, db.runs[id].revision, next, e, payment);
            committed.Ok? && IsFundedBy(db, id, payment, committed.value)
  {
    hide DbHolds, IsNewPayment, TransitionRun, PaymentKey, Fold;
    var run := LoadRun(db, id);
    LoadIsSnapshot(db, id);
    PaymentIsNoReplay(db, run, payment);
    PaymentIsAccepted(run, payment, now);
    var decided := TransitionRun(run, PaymentCommand(run, payment, now)).value;
    next, e := decided.run, decided.event.value;
    FundsExactlyWhen(db, run, payment, now, next, e);
    FundingInserts(db, run, next, e, payment);
  }

  lemma PaymentIsAccepted(run: Run, payment: Payment, now: int)
    requires run.status == PaymentRequired && run.updatedAt <= now && PaymentKey(payment) !in run.appliedKeys
    ensures var decided := TransitionRun(run, PaymentCommand(run, payment, now));
            && decided.Ok? && decided.value.event.Some?
            && decided.value.event.value.runId == decided.value.run.id == run.id
            && decided.value.event.value.to == decided.value.run.status == Funded
            && decided.value.run.revision == run.revision + 1
  {
    assert |PaymentKey(payment)| >= |CUSTOMER_PAYMENT|;
  }

  lemma FundingInserts(db: Db, run: Run, next: Run, e: Event, payment: Payment)
    requires Known(db, run.id) && e.runId == next.id == run.id && e.to == Funded
    requires next.revision == db.runs[run.id].revision + 1
    requires CommitFundedResult(db, run.revision, next, e, payment).Ok?
    ensures IsFundedBy(db, run.id, payment, CommitFundedResult(db, run.revision, next, e, payment).value)
  {
  }

  // ---------------------------------------------------------------- expiry

  /** A sweep that has loaded an unpaid run closes it out, whatever its clock says. */
  lemma UnpaidRunIsSwept(actions: seq<Action>, id: string, session: nat, deadline: string, now: int)
    requires id in Execute(actions).db.runs && IsDeadline(deadline)
    requires Execute(actions).db.runs[id].status in {Draft, Quoted, PaymentRequired}
    ensures var s := Execute(actions);
            IsExpired(s.db, id, now, Step(Step(s, Load(session, id)), SweepExpired(session, deadline, now)).db)
  {
    hide Execute, DbHolds, IsDeadline, TransitionRun, CommitExpiredResult, IsExpired, DeadlineKey;
    EveryInterleavingHolds(actions);
    var s := Execute(actions);
    RunIsKnown(s.db, id);
    ExpiryKeysAreExpiryKeys("", deadline);
    var next, e := ExpiryGoesThrough(s.db, id, DeadlineKey(deadline), now);
  }

  /** One revision on, at least a second after the last change and not before the
      sweep, with no money touched. */
  predicate IsExpired(db: Db, id: string, now: int, after: Db) {
    && id in db.runs && id in after.runs && after.runs[id].status == Expired
    && after.runs[id].revision == db.runs[id].revision + 1
    && db.runs[id].updatedAt + 1_000 <= after.runs[id].updatedAt && now <= after.runs[id].updatedAt
    && after.receipts == db.receipts && after.orchestratorJobs == db.orchestratorJobs
  }

  lemma RunIsKnown(db: Db, id: string)
    requires DbHolds(db) && id in db.runs
    ensures Known(db, id)
  {
  }

  lemma ExpiryGoesThrough(db: Db, id: string, key: string, now: int) returns (next: Run, e: Event)
    requires DbHolds(db) && Known(db, id) && db.runs[id].status in {Draft, Quoted, PaymentRequired} && IsExpiryKey(key)
    ensures TransitionRun(LoadRun(db, id), ExpireCommand(LoadRun(db, id), key, now)) == Ok(Transitioned(next, Some(e)))
    ensures e.runId == next.id == id
    ensures var committed := CommitExpiredResult(db, db.runs[id].revision, next, e);
            committed.Ok? && IsExpired(db, id, now, committed.value)
  {
    ExpiryKeysAreLong(key);
    hide DbHolds, IsExpiryKey, TransitionRun, Fold;
    var run := LoadRun(db, id);
    LoadIsSnapshot(db, id);
    ExpiryIsNoReplay(db, run, key);
    ExpiryKeyFits(id, key);
    ExpiryIsAccepted(run, key, now);
    var decided := TransitionRun(run, ExpireCommand(run, key, now)).value;
    next, e := decided.run, decided.event.value;
    ExpireHolds(db, run, ExpireCommand(run, key, now), next, e);
    ExpiryInserts(db, run, next, e, now);
  }

  lemma ExpiryKeysAreLong(key: string)
    requires IsExpiryKey(key)
    ensures IsSystemExpiryKey(key) && |key| >= 8
  {
    assert |ORDER_EXPIRED| >= 8 && |DEADLINE_PASSED| >= 8;
  }

  lemma ExpiryIsAccepted(run: Run, key: string, now: int)
    requires run.status in {Draft, Quoted, PaymentRequired} && key !in run.appliedKeys && |key| >= 8
    ensures var decided := TransitionRun(run, ExpireCommand(run, key, now));
            && decided.Ok? && decided.value.event.Some?
            && decided.value.event.value.runId == decided.value.run.id == run.id
            && decided.value.event.value.to == decided.value.run.status == Expired
            && decided.value.run.revision == run.revision + 1
            && run.updatedAt + 1_000 <= decided.value.run.updatedAt && now <= decided.value.run.updatedAt
  {
  }

  lemma ExpiryInserts(db: Db, run: Run, next: Run, e: Event, now: int)
    requires Known(db, run.id) && e.runId == next.id == run.id
    requires next.revision == db.runs[run.id].revision + 1
    requires db.runs[run.id].updatedAt + 1_000 <= next.updatedAt && now <= next.updatedAt
    requires CommitExpiredResult(db, run.revision, next, e).Ok?
    ensures IsExpired(db, run.id, now, CommitExpiredResult(db, run.revision, next, e).value)
  {
  }
}
