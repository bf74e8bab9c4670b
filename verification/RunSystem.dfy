/** Every process that writes runs, interleaved: the API, the payment worker, the
    expiry sweep and the orchestrator workers each load an aggregate, decide on
    it, and commit later, while the others do the same. */
module RunSystem {
  import opened Wrappers
  import opened RunDomain
  import opened RunStore
  import opened Texts

  /** What the payment worker loads: the run with its recorded payment. */
  datatype Fundable = Fundable(run: Run, proofHash: Option<string>, payment: Option<Payment>)

  /** `held` and `paying` are the snapshots that sessions loaded at some earlier
      moment; `resolved` marks the payment jobs whose handler returned an outcome
      that completes the job. A crashed session is one that never acts again. */
  datatype Sys = Sys(
    db: Db,
    held: map<nat, Run>,
    paying: map<nat, Fundable>,
    resolved: map<nat, string>)

  /** A writer that goes through `save`: the payment gateway, or any step of the
      orchestrator. Funding never goes through `save`. */
  datatype Caller = Gateway(orderId: string) | Worker(actor: Actor, to: Status)

  datatype Action =
    | CreateRun(id: string, clientKey: string, now: int)
    | Load(session: nat, id: string)
    | SaveStep(session: nat, caller: Caller, now: int)
    | SweepExpired(session: nat, deadline: string, now: int)
    | LoadPayment(session: nat, id: string)
    | CommitPayment(session: nat, payment: Payment, now: int)
    | AcknowledgeFunded(session: nat)
    | ExpireOrder(session: nat, orderId: string, now: int)
    | LeaveUnexpired(session: nat)
    | CompleteJob(session: nat)

  const Initial := Sys(EmptyDb, map[], map[], map[])

  // ---------------------------------------------------------------- idempotency keys

  const ORDER_EXPIRED := "payment-order-expired:"
  const DEADLINE_PASSED := "payment-deadline-passed:"
  const CUSTOMER_PAYMENT := "customer-payment:"

  predicate HasPrefix(s: string, prefix: string) {
    |prefix| <= |s| && s[..|prefix|] == prefix
  }

  function StatusName(status: Status): string {
    match status
    case Draft => "DRAFT"
    case Quoted => "QUOTED"
    case PaymentRequired => "PAYMENT_REQUIRED"
    case Funded => "FUNDED"
    case Analyzing => "ANALYZING"
    case PlanCompiled => "PLAN_COMPILED"
    case Procuring => "PROCURING"
    case Executing => "EXECUTING"
    case Replanning => "REPLANNING"
    case EvidenceBuilding => "EVIDENCE_BUILDING"
    case Attesting => "ATTESTING"
    case DeliveredPass => "DELIVERED_PASS"
    case DeliveredConditional => "DELIVERED_CONDITIONAL"
    case DeliveredFail => "DELIVERED_FAIL"
    case DeliveredInconclusive => "DELIVERED_INCONCLUSIVE"
    case Cancelled => "CANCELLED"
    case Expired => "EXPIRED"
  }

  function QuotedKey(clientKey: string): string { clientKey + ":quoted" }

  function CallerKey(runId: string, caller: Caller): string {
    match caller
    case Gateway(orderId) => "payment-order:" + orderId
    case Worker(_, to) => "orchestrator:" + runId + ":" + StatusName(to)
  }

  function PaymentKey(payment: Payment): string {
    CUSTOMER_PAYMENT + payment.transactionHash + ":" + Digits(payment.logIndex)
  }

  /** The key under which the orchestrator takes a run to `to`, whoever acts. */
  function StepKey(id: string, to: Status): string {
    CallerKey(id, Worker(System, to))
  }

  function DeadlineKey(deadline: string): string { DEADLINE_PASSED + deadline }

  function OrderExpiredKey(orderId: string): string { ORDER_EXPIRED + orderId }

  /** The key of an expiry, as opposed to a client's key that merely starts like
      one. */
  predicate IsExpiryKey(key: string) {
    || (HasPrefix(key, ORDER_EXPIRED) && IsOrderId(key[|ORDER_EXPIRED|..]))
    || (HasPrefix(key, DEADLINE_PASSED) && IsDeadline(key[|DEADLINE_PASSED|..]))
  }

  /** Order ids are issued by the merchant side; they are long and have no colon. */
  predicate IsOrderId(orderId: string) {
    |orderId| >= 7 && ':' !in orderId
  }

  /** Deadlines are instants in UTC, so they end in Z. */
  predicate IsDeadline(deadline: string) {
    |deadline| > 0 && deadline[|deadline| - 1] == 'Z'
  }

  /** The key of a payment: it ends in the digits of a log index, as a client's key
      that merely starts like one does not. */
  predicate IsPaymentKey(key: string) {
    HasPrefix(key, CUSTOMER_PAYMENT) && '0' <= key[|key| - 1] <= '9'
  }

  /** Past funding only the orchestrator moves a run. */
  predicate IsWorked(status: Status) {
    4 <= Level(status) <= 9
  }

  /** A key says what its event was for: expiry keys expire, payment keys fund, a
      step's key is only ever used for that step, and the orchestrator uses no other
      keys. */
  predicate KeyFits(id: string, key: string, to: Status) {
    && (IsExpiryKey(key) ==> to == Expired)
    && (IsPaymentKey(key) ==> to == Funded)
    && (forall other :: key == StepKey(id, other) ==> other == to)
    && (IsWorked(to) ==> key == StepKey(id, to))
  }

  // ---------------------------------------------------------------- one atomic step

  function Max(a: int, b: int): int { if a < b then b else a }

  function QuotedCommand(clientKey: string, now: int): Command {
    Command(QuoteEngine, 0, QuotedKey(clientKey), Some(now), Quoted)
  }

  function CallerCommand(run: Run, caller: Caller, now: int): Command {
    match caller
    case Gateway(_) =>
      Command(MerchantGateway, run.revision, CallerKey(run.id, caller), Some(now), PaymentRequired)
    case Worker(actor, to) =>
      Command(actor, run.revision, CallerKey(run.id, caller), Some(now), to)
  }

  function PaymentCommand(run: Run, payment: Payment, now: int): Command {
    Command(PaymentReconciler, run.revision, PaymentKey(payment), Some(now), Funded)
  }

  /** Expiry is never dated before the run's own last event. */
  function ExpireCommand(run: Run, key: string, now: int): Command {
    Command(System, run.revision, key, Some(Max(now, run.updatedAt + 1_000)), Expired)
  }

  /** A transaction that fails leaves the tables as they were. */
  function After(db: Db, outcome: Result<Db, StoreError>): Db {
    if outcome.Ok? then outcome.value else db
  }

  function Expiry(db: Db, run: Run, key: string, now: int): Result<Db, StoreError> {
    var decided := TransitionRun(run, ExpireCommand(run, key, now));
    if decided.Err? then Err(CheckViolation)
    else if decided.value.event.None? then Ok(db)
    else CommitExpiredResult(db, run.revision, decided.value.run, decided.value.event.value)
  }

  function StepCreate(s: Sys, a: Action): Sys
    requires a.CreateRun?
  {
    var draft := CreateDraft(a.id, Some(a.now));
    if draft.Err? then s
    else
      var quoted := TransitionRun(draft.value, QuotedCommand(a.clientKey, a.now));
      if quoted.Err? || quoted.value.event.None? then s
      else s.(db := After(s.db, SaveNewResult(s.db, a.clientKey, quoted.value.run, quoted.value.event.value)))
  }

  function StepSave(s: Sys, a: Action): Sys
    requires a.SaveStep?
  {
    if a.session !in s.held || (a.caller.Worker? && a.caller.to == Funded) then s
    else
      var run := s.held[a.session];
      var decided := TransitionRun(run, CallerCommand(run, a.caller, a.now));
      if decided.Err? || decided.value.event.None? then s
      else
        var saved := SaveResult(s.db, decided.value.run, decided.value.event.value, run.revision);
        if saved.Err? then s
        else s.(db := saved.value, held := s.held[a.session := decided.value.run])
  }

  function StepSweep(s: Sys, a: Action): Sys
    requires a.SweepExpired?
  {
    if a.session !in s.held then s
    else s.(db := After(s.db, Expiry(s.db, s.held[a.session], DeadlineKey(a.deadline), a.now)))
  }

  function StepCommitPayment(s: Sys, a: Action): Sys
    requires a.CommitPayment?
  {
    if a.session !in s.paying || s.paying[a.session].run.status != PaymentRequired then s
    else
      var run := s.paying[a.session].run;
      var decided := TransitionRun(run, PaymentCommand(run, a.payment, a.now));
      if decided.Err? || decided.value.event.None? then s
      else
        var committed := CommitFundedResult(s.db, run.revision, decided.value.run, decided.value.event.value, a.payment);
        if committed.Err? then s
        else s.(db := committed.value, resolved := s.resolved[a.session := run.id])
  }

  function StepExpireOrder(s: Sys, a: Action): Sys
    requires a.ExpireOrder?
  {
    if a.session !in s.paying || s.paying[a.session].run.status != PaymentRequired || !IsOrderId(a.orderId) then s
    else
      var run := s.paying[a.session].run;
      var expired := Expiry(s.db, run, OrderExpiredKey(a.orderId), a.now);
      if expired.Err? then s
      else s.(db := expired.value, resolved := s.resolved[a.session := run.id])
  }

  function Step(s: Sys, a: Action): Sys {
    match a
    case CreateRun(_, _, _) => StepCreate(s, a)
    case Load(session, id) =>
      if !Known(s.db, id) then s else s.(held := s.held[session := LoadRun(s.db, id)])
    case SaveStep(_, _, _) => StepSave(s, a)
    case SweepExpired(_, _, _) => StepSweep(s, a)
    case LoadPayment(session, id) =>
      // A payment worker only loads the run of a job it claimed.
      if !Known(s.db, id) || id !in s.db.paymentJobs then s
      else
        var row := s.db.runs[id];
        s.(paying := s.paying[session := Fundable(
                                  LoadRun(s.db, id), row.paymentProofHash,
                                  if id in s.db.receipts then Some(s.db.receipts[id]) else None)])
    case CommitPayment(_, _, _) => StepCommitPayment(s, a)
    case AcknowledgeFunded(session) =>
      if session in s.paying && IsAcknowledgeable(s.paying[session])
      then s.(resolved := s.resolved[session := s.paying[session].run.id]) else s
    case ExpireOrder(_, _, _) => StepExpireOrder(s, a)
    case LeaveUnexpired(session) =>
      if session in s.paying && s.paying[session].run.status != PaymentRequired
      then s.(resolved := s.resolved[session := s.paying[session].run.id]) else s
    case CompleteJob(session) =>
      if session in s.resolved && s.resolved[session] in s.db.paymentJobs
      then s.(db := s.db.(paymentJobs := s.db.paymentJobs[s.resolved[session] := Completed])) else s
  }

  /** A funded run is acknowledged when its stored payment is the one on its row. */
  predicate IsAcknowledgeable(fundable: Fundable) {
    && fundable.run.status == Funded
    && fundable.proofHash.Some?
    && fundable.payment.Some?
    && fundable.payment.value.proofHash == fundable.proofHash.value
  }

  function Execute(actions: seq<Action>): Sys {
    if actions == [] then Initial
    else Step(Execute(actions[..|actions| - 1]), actions[|actions| - 1])
  }

  // ---------------------------------------------------------------- what holds in every state

  function ForRun(outbox: seq<Event>, id: string): seq<Event> {
    if outbox == [] then []
    else
      var rest := ForRun(outbox[..|outbox| - 1], id);
      if Last(outbox).runId == id then rest + [Last(outbox)] else rest
  }

  predicate KeysFit(id: string, log: seq<Event>) {
    forall i :: 0 <= i < |log| ==> KeyFits(id, log[i].key, log[i].to)
  }

  ghost predicate LogHolds(db: Db, id: string)
    requires id in db.runs
  {
    && id in db.events
    && WellFormedLog(id, db.runs[id].createdAt, db.events[id])
    && LoadRun(db, id) == Fold(id, db.runs[id].createdAt, db.events[id])
    && ForRun(db.outbox, id) == db.events[id]
    && KeysFit(id, db.events[id])
  }

  ghost predicate MoneyHolds(db: Db, id: string)
    requires id in db.runs
  {
    var row := db.runs[id];
    && (IsPaid(row.status) <==> id in db.receipts)
    && (id in db.receipts <==> row.paymentProofHash.Some?)
    && (id in db.receipts <==> id in db.orchestratorJobs)
    && (id in db.receipts ==>
          && row.paymentProofHash == Some(db.receipts[id].proofHash)
          && row.paymentAtomic == Some(db.receipts[id].amount)
          && db.receipts[id].amount > 0)
  }

  ghost predicate JobHolds(db: Db, id: string)
    requires id in db.runs && id in db.events
  {
    && (id in db.paymentJobs <==> Visits(db.events[id], PaymentRequired) > 0)
    && (id in db.paymentJobs && db.paymentJobs[id] == Completed ==> Level(db.runs[id].status) > 2)
  }

  ghost predicate RunHolds(db: Db, id: string)
    requires id in db.runs
  {
    LogHolds(db, id) && MoneyHolds(db, id) && JobHolds(db, id)
  }

  ghost predicate UniqueMoney(db: Db) {
    forall a, b :: a in db.receipts && b in db.receipts && a != b ==>
      !SameTransfer(db.receipts[a], db.receipts[b]) && db.receipts[a].proofHash != db.receipts[b].proofHash
  }

  ghost predicate UniqueRequests(db: Db) {
    forall a, b :: a in db.runs && b in db.runs && a != b ==> db.runs[a].requestKey != db.runs[b].requestKey
  }

  ghost predicate TablesHold(db: Db) {
    && db.events.Keys == db.runs.Keys
    && db.receipts.Keys <= db.runs.Keys
    && db.paymentJobs.Keys <= db.runs.Keys
    && db.orchestratorJobs <= db.runs.Keys
    && UniqueMoney(db)
    && UniqueRequests(db)
    && (forall i :: 0 <= i < |db.outbox| ==> db.outbox[i].runId in db.runs)
  }

  ghost predicate DbHolds(db: Db) {
    && TablesHold(db)
    && (forall id {:trigger RunHolds(db, id)} :: id in db.runs ==> RunHolds(db, id))
  }

  /** A snapshot is the fold of some prefix of the run's log. */
  ghost predicate IsSnapshot(db: Db, run: Run) {
    && Known(db, run.id)
    && run.revision <= |db.events[run.id]|
    && run == Fold(run.id, db.runs[run.id].createdAt, db.events[run.id][..run.revision])
  }

  ghost predicate IsFundableSnapshot(db: Db, fundable: Fundable) {
    && IsSnapshot(db, fundable.run)
    && Level(fundable.run.status) >= 2
    && fundable.run.id in db.paymentJobs
    && (fundable.run.status == Funded ==> IsAcknowledgeable(fundable))
  }

  ghost predicate IsResolved(db: Db, id: string) {
    id in db.runs && id in db.paymentJobs && Level(db.runs[id].status) > 2
  }

  ghost predicate Holds(s: Sys) {
    && DbHolds(s.db)
    && (forall n :: n in s.held ==> IsSnapshot(s.db, s.held[n]))
    && (forall n :: n in s.paying ==> IsFundableSnapshot(s.db, s.paying[n]))
    && (forall n :: n in s.resolved ==> IsResolved(s.db, s.resolved[n]))
  }
}
