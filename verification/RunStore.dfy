/** The rows behind a run, and the transactions that write them. Every writer
    commits an aggregate it loaded earlier, guarded by the revision it saw. */
module RunStore {
  import opened Wrappers
  import opened RunDomain

  /** A verified customer transfer, as `payment_receipts` stores it. */
  datatype Payment = Payment(
    chainId: nat,
    transactionHash: string,
    logIndex: nat,
    amount: nat,
    proofHash: string)

  datatype RunRow = RunRow(
    requestKey: string,
    status: Status,
    result: Option<RunResult>,
    revision: nat,
    createdAt: int,
    updatedAt: int,
    paymentAtomic: Option<nat>,
    paymentProofHash: Option<string>)

  datatype JobState = Open | Completed

  /** The tables. `events` holds each run's rows of `run_events` by revision. */
  datatype Db = Db(
    runs: map<string, RunRow>,
    events: map<string, seq<Event>>,
    outbox: seq<Event>,
    receipts: map<string, Payment>,
    paymentJobs: map<string, JobState>,
    orchestratorJobs: set<string>)

  datatype StoreError = Misaligned | StaleRevision | UniqueViolation | CheckViolation

  const EmptyDb := Db(map[], map[], [], map[], map[], {})

  predicate Known(db: Db, id: string) {
    id in db.runs && id in db.events
  }

  /** What a reader sees: the row, with the applied keys read off the events. */
  function LoadRun(db: Db, id: string): Run
    requires Known(db, id)
  {
    var row := db.runs[id];
    Run(id, row.status, row.result, row.revision, row.createdAt, row.updatedAt, Keys(db.events[id]))
  }

  predicate ResultMatchesStatus(status: Status, result: Option<RunResult>) {
    IsDelivered(status) <==> result.Some?
  }

  // ---------------------------------------------------------------- transactions on values

  /** Appends to the log and the outbox; entering PaymentRequired also enqueues
      the payment job once. `(run, revision)` and `(run, key)` are unique. */
  function InsertEvent(db: Db, e: Event): Result<Db, StoreError>
    requires e.runId in db.events
  {
    var log := db.events[e.runId];
    if exists i :: 0 <= i < |log| && (log[i].revision == e.revision || log[i].key == e.key) then
      Err(UniqueViolation)
    else
      Ok(db.(
           events := db.events[e.runId := log + [e]],
           outbox := db.outbox + [e],
           paymentJobs := if e.to == PaymentRequired && e.runId !in db.paymentJobs
           then db.paymentJobs[e.runId := Open] else db.paymentJobs))
  }

  function SaveNewResult(db: Db, requestKey: string, run: Run, e: Event): Result<Db, StoreError> {
    if e.runId != run.id || e.revision != run.revision then Err(Misaligned)
    else if run.id in db.runs || (exists id :: id in db.runs && db.runs[id].requestKey == requestKey) then
      Err(UniqueViolation)
    else if !ResultMatchesStatus(run.status, run.result) then Err(CheckViolation)
    else
      InsertEvent(
        db.(runs := db.runs[run.id := RunRow(requestKey, run.status, run.result, run.revision, run.createdAt,
                                             run.updatedAt, None, None)],
            events := db.events[run.id := []]),
        e)
  }

  function SaveResult(db: Db, run: Run, e: Event, expected: nat): Result<Db, StoreError> {
    if e.runId != run.id || e.revision != run.revision then Err(Misaligned)
    else if !Known(db, run.id) || db.runs[run.id].revision != expected then Err(StaleRevision)
    else if !ResultMatchesStatus(run.status, run.result) then Err(CheckViolation)
    else
      InsertEvent(
        db.(runs := db.runs[run.id := db.runs[run.id].(status := run.status, result := run.result,
                                                       revision := run.revision, updatedAt := run.updatedAt)]),
        e)
  }

  predicate ReceiptTaken(db: Db, id: string, payment: Payment) {
    || id in db.receipts
    || exists other :: other in db.receipts &&
         ( || SameTransfer(db.receipts[other], payment)
           || db.receipts[other].proofHash == payment.proofHash)
  }

  predicate SameTransfer(a: Payment, b: Payment) {
    a.chainId == b.chainId && a.transactionHash == b.transactionHash && a.logIndex == b.logIndex
  }

  function CommitFundedResult(db: Db, previousRevision: nat, run: Run, e: Event, payment: Payment)
    : Result<Db, StoreError>
    requires e.runId == run.id
  {
    if payment.amount == 0 then Err(CheckViolation)
    else if ReceiptTaken(db, run.id, payment) then Err(UniqueViolation)
    else if !Known(db, run.id) || db.runs[run.id].revision != previousRevision
            || db.runs[run.id].status != PaymentRequired then Err(StaleRevision)
    else
      var funded := db.(
        receipts := db.receipts[run.id := payment],
        runs := db.runs[run.id := db.runs[run.id].(
            status := Funded, revision := run.revision, updatedAt := run.updatedAt,
            paymentAtomic := Some(payment.amount), paymentProofHash := Some(payment.proofHash))],
        orchestratorJobs := db.orchestratorJobs + {run.id});
      InsertEvent(funded, e)
  }

  function CommitExpiredResult(db: Db, previousRevision: nat, run: Run, e: Event): Result<Db, StoreError>
    requires e.runId == run.id
  {
    if !Known(db, run.id) || db.runs[run.id].revision != previousRevision
       || db.runs[run.id].status !in {Draft, Quoted, PaymentRequired} then Err(StaleRevision)
    else
      InsertEvent(
        db.(runs := db.runs[run.id := db.runs[run.id].(status := Expired, revision := run.revision,
                                                       updatedAt := run.updatedAt)]),
        e)
  }

  // ---------------------------------------------------------------- the store object

  /** The tables as they are updated in place. A failed statement rolls the whole
      transaction back. */
  class PostgresStore {
    var runs: map<string, RunRow>
    var events: map<string, seq<Event>>
    var outbox: seq<Event>
    var receipts: map<string, Payment>
    var paymentJobs: map<string, JobState>
    var orchestratorJobs: set<string>

    function View(): Db
      reads this
    {
      Db(runs, events, outbox, receipts, paymentJobs, orchestratorJobs)
    }

    /** The transaction's outcome: committed exactly as specified, or no change. */
    predicate Committed(before: Db, expected: Result<Db, StoreError>, outcome: Result<(), StoreError>)
      reads this
    {
      match expected
      case Ok(db) => outcome.Ok? && View() == db
      case Err(error) => outcome == Err(error) && View() == before
    }

    constructor ()
      ensures View() == EmptyDb
    {
      runs, events, outbox, receipts, paymentJobs, orchestratorJobs := map[], map[], [], map[], map[], {};
    }

    method Rollback(before: Db)
      modifies this
      ensures View() == before
    {
      runs, events, outbox := before.runs, before.events, before.outbox;
      receipts, paymentJobs, orchestratorJobs := before.receipts, before.paymentJobs, before.orchestratorJobs;
    }

    method InsertEventAndOutbox(e: Event) returns (outcome: Result<(), StoreError>)
      requires e.runId in events
      modifies this
      ensures Committed(old(View()), InsertEvent(old(View()), e), outcome)
    {
      var log := events[e.runId];
      if exists i :: 0 <= i < |log| && (log[i].revision == e.revision || log[i].key == e.key) {
        return Err(UniqueViolation);
      }
      events := events[e.runId := log + [e]];
      outbox := outbox + [e];
      if e.to == PaymentRequired && e.runId !in paymentJobs {
        paymentJobs := paymentJobs[e.runId := Open];
      }
      return Ok(());
    }

    method SaveNew(requestKey: string, run: Run, e: Event) returns (outcome: Result<(), StoreError>)
      modifies this
      ensures Committed(old(View()), SaveNewResult(old(View()), requestKey, run, e), outcome)
    {
      if e.runId != run.id || e.revision != run.revision { return Err(Misaligned); }
      var before := View();
      if run.id in runs || exists id :: id in runs && runs[id].requestKey == requestKey {
        return Err(UniqueViolation);
      }
      if !ResultMatchesStatus(run.status, run.result) { return Err(CheckViolation); }
      runs := runs[run.id := RunRow(requestKey, run.status, run.result, run.revision, run.createdAt, run.updatedAt,
                                    None, None)];
      events := events[run.id := []];
      outcome := InsertEventAndOutbox(e);
      if outcome.Err? { Rollback(before); }
    }

    method Save(run: Run, e: Event, expected: nat) returns (outcome: Result<(), StoreError>)
      modifies this
      ensures Committed(old(View()), SaveResult(old(View()), run, e, expected), outcome)
    {
      if e.runId != run.id || e.revision != run.revision { return Err(Misaligned); }
      var before := View();
      if run.id !in runs || run.id !in events || runs[run.id].revision != expected {
        return Err(StaleRevision);
      }
      if !ResultMatchesStatus(run.status, run.result) { return Err(CheckViolation); }
      runs := runs[run.id := runs[run.id].(status := run.status, result := run.result, revision := run.revision,
                                           updatedAt := run.updatedAt)];
      outcome := InsertEventAndOutbox(e);
      if outcome.Err? { Rollback(before); }
    }

    method CommitFundedRun(previousRevision: nat, run: Run, e: Event, payment: Payment)
      returns (outcome: Result<(), StoreError>)
      requires e.runId == run.id
      modifies this
      ensures Committed(old(View()), CommitFundedResult(old(View()), previousRevision, run, e, payment), outcome)
    {
      var before := View();
      if payment.amount == 0 { return Err(CheckViolation); }
      if ReceiptTaken(before, run.id, payment) { return Err(UniqueViolation); }
      receipts := receipts[run.id := payment];
      if run.id !in runs || run.id !in events || runs[run.id].revision != previousRevision
         || runs[run.id].status != PaymentRequired {
        Rollback(before);
        return Err(StaleRevision);
      }
      runs := runs[run.id := runs[run.id].(
          status := Funded, revision := run.revision, updatedAt := run.updatedAt,
          paymentAtomic := Some(payment.amount), paymentProofHash := Some(payment.proofHash))];
      outcome := InsertEventAndOutbox(e);
      if outcome.Err? {
        Rollback(before);
        return;
      }
      orchestratorJobs := orchestratorJobs + {run.id};
    }

    method CommitExpiredRun(previousRevision: nat, run: Run, e: Event) returns (outcome: Result<(), StoreError>)
      requires e.runId == run.id
      modifies this
      ensures Committed(old(View()), CommitExpiredResult(old(View()), previousRevision, run, e), outcome)
    {
      var before := View();
      if run.id !in runs || run.id !in events || runs[run.id].revision != previousRevision
         || runs[run.id].status !in {Draft, Quoted, PaymentRequired} {
        return Err(StaleRevision);
      }
      runs := runs[run.id := runs[run.id].(status := Expired, revision := run.revision, updatedAt := run.updatedAt)];
      outcome := InsertEventAndOutbox(e);
      if outcome.Err? { Rollback(before); }
    }
  }
}
