/** Why every interleaving keeps the rows, the logs, the receipts and the jobs
    consistent, and what follows for a single run. */
module RunSystemProofs {
  import opened Wrappers
  import opened RunDomain
  import opened RunStore
  import opened RunSystem
  import opened Texts

  /** `after` is `before` with event `e` committed on run `id`; the money columns
      of that one run may change too. */
  ghost predicate Appends(before: Db, after: Db, id: string, e: Event) {
    && id in before.events
    && after.events == before.events[id := before.events[id] + [e]]
    && after.outbox == before.outbox + [e]
    && after.paymentJobs == (if e.to == PaymentRequired && id !in before.paymentJobs
                             then before.paymentJobs[id := Open] else before.paymentJobs)
    && after.runs.Keys == before.runs.Keys + {id}
    && (id in before.runs ==> after.runs[id].createdAt == before.runs[id].createdAt)
    && (forall other :: other in before.runs && other != id ==> after.runs[other] == before.runs[other])
    && (forall other :: other != id ==> (other in after.receipts <==> other in before.receipts))
    && (forall other :: other != id && other in before.receipts ==> after.receipts[other] == before.receipts[other])
    && (forall other :: other != id ==> (other in after.orchestratorJobs <==> other in before.orchestratorJobs))
  }

  lemma OthersHold(before: Db, after: Db, id: string, e: Event, other: string)
    requires other in before.runs && other != id && RunHolds(before, other)
    requires Appends(before, after, id, e) && e.runId == id
    ensures RunHolds(after, other)
  {
  }

  lemma KeysFitAppend(id: string, log: seq<Event>, e: Event)
    requires KeysFit(id, log) && KeyFits(id, e.key, e.to)
    ensures KeysFit(id, log + [e])
  {
    hide KeyFits;
  }

  lemma ForRunAppend(outbox: seq<Event>, e: Event)
    ensures ForRun(outbox + [e], e.runId) == ForRun(outbox, e.runId) + [e]
  {
    assert (outbox + [e])[..|outbox|] == outbox;
  }

  lemma LogAppendHolds(before: Db, after: Db, id: string, command: Command, next: Run, e: Event)
    requires id in before.runs && LogHolds(before, id)
    requires TransitionRun(LoadRun(before, id), command) == Ok(Transitioned(next, Some(e)))
    requires Appends(before, after, id, e) && LoadRun(after, id) == next
    requires KeyFits(id, command.key, command.to)
    ensures LogHolds(after, id) && e.runId == id && e.from == before.runs[id].status && e.to == next.status
    ensures Actors(e.from, e.to) != {}
  {
    var log := before.events[id];
    TransitionExtendsLog(id, before.runs[id].createdAt, log, command);
    ForRunAppend(before.outbox, e);
    KeysFitAppend(id, log, e);
  }

  /** A commit decided on the current aggregate keeps the log and job facts. */
  lemma AppendHolds(before: Db, after: Db, id: string, command: Command, next: Run, e: Event)
    requires id in before.runs && id in before.events && RunHolds(before, id)
    requires TransitionRun(LoadRun(before, id), command) == Ok(Transitioned(next, Some(e)))
    requires Appends(before, after, id, e) && LoadRun(after, id) == next
    requires KeyFits(id, command.key, command.to)
    requires MoneyHolds(after, id)
    ensures RunHolds(after, id)
  {
    var log := before.events[id];
    LogAppendHolds(before, after, id, command, next, e);
    hide LogHolds, MoneyHolds, KeyFits, TransitionRun;
    assert after.events[id] == log + [e];
    assert (log + [e])[..|log|] == log;
    EdgesClimb(e.from, e.to);
  }

  /** The revision guard is enough: a snapshot whose revision is still the stored
      one is the stored aggregate, down to its keys. */
  lemma SnapshotIsCurrent(db: Db, run: Run)
    requires DbHolds(db) && IsSnapshot(db, run)
    ensures db.runs[run.id].revision == |db.events[run.id]|
    ensures run.revision == db.runs[run.id].revision ==> run == LoadRun(db, run.id)
    ensures run.revision <= db.runs[run.id].revision
  {
    assert RunHolds(db, run.id);
    var log := db.events[run.id];
    assert log[..|log|] == log;
  }

  /** Behind the guard, the unique constraints on events never fire. */
  lemma EventIsNew(db: Db, id: string, command: Command, next: Run, e: Event)
    requires DbHolds(db) && id in db.runs && id in db.events
    requires TransitionRun(LoadRun(db, id), command) == Ok(Transitioned(next, Some(e)))
    ensures InsertEvent(db, e).Ok?
  {
    assert RunHolds(db, id);
    var log := db.events[id];
    forall i | 0 <= i < |log| ensures log[i].revision != e.revision && log[i].key != e.key {
      LogIsExecution(id, db.runs[id].createdAt, log, i);
      assert Keys(log)[i] == log[i].key;
    }
  }

  /** All tables hold after a commit, given what it did to the money columns. */
  lemma CommitHolds(before: Db, after: Db, id: string, command: Command, next: Run, e: Event)
    requires DbHolds(before) && id in before.runs && id in before.events
    requires TransitionRun(LoadRun(before, id), command) == Ok(Transitioned(next, Some(e)))
    requires KeyFits(id, command.key, command.to)
    requires Appends(before, after, id, e) && LoadRun(after, id) == next
    requires after.runs[id].requestKey == before.runs[id].requestKey
    requires MoneyHolds(after, id) && UniqueMoney(after)
    ensures DbHolds(after)
  {
    assert TablesHold(before);
    AllRunsHold(before, after, id, command, next, e);
    hide DbHolds, RunHolds, TransitionRun, KeyFits;
    TransitionKeepsId(LoadRun(before, id), command);
    TablesStay(before, after, id, e);
    RunsMakeDb(after);
  }

  lemma RunsMakeDb(db: Db)
    requires TablesHold(db)
    requires forall id {:trigger RunHolds(db, id)} :: id in db.runs ==> RunHolds(db, id)
    ensures DbHolds(db)
  {
  }

  lemma TablesStay(before: Db, after: Db, id: string, e: Event)
    requires TablesHold(before) && id in before.runs && Appends(before, after, id, e) && e.runId == id
    requires after.runs[id].requestKey == before.runs[id].requestKey && UniqueMoney(after)
    ensures TablesHold(after)
  {
  }

  lemma AllRunsHold(before: Db, after: Db, id: string, command: Command, next: Run, e: Event)
    requires DbHolds(before) && id in before.runs && id in before.events
    requires TransitionRun(LoadRun(before, id), command) == Ok(Transitioned(next, Some(e)))
    requires KeyFits(id, command.key, command.to)
    requires Appends(before, after, id, e) && LoadRun(after, id) == next
    requires MoneyHolds(after, id)
    ensures forall other {:trigger RunHolds(after, other)} :: other in after.runs ==> RunHolds(after, other)
  {
    assert RunHolds(before, id);
    AppendHolds(before, after, id, command, next, e);
    forall other | other in after.runs ensures RunHolds(after, other) {
      if other != id {
        assert RunHolds(before, other);
        OthersHold(before, after, id, e, other);
      }
    }
  }

  // ---------------------------------------------------------------- each transaction

  /** The effect of a successful transition on status, in terms of money. */
  lemma TransitionMoney(db: Db, id: string, command: Command, next: Run, e: Event)
    requires DbHolds(db) && id in db.runs && id in db.events
    requires TransitionRun(LoadRun(db, id), command) == Ok(Transitioned(next, Some(e)))
    ensures e.runId == next.id == id && e.revision == next.revision
    ensures next.status == command.to == e.to
    ensures ResultMatchesStatus(next.status, next.result)
    ensures command.to != Funded ==> (IsPaid(command.to) <==> IsPaid(db.runs[id].status))
    ensures command.to == Expired ==> db.runs[id].status in {Draft, Quoted, PaymentRequired} && db.runs[id].result.None?
    ensures command.to == Funded ==> db.runs[id].status == PaymentRequired && db.runs[id].result.None?
  {
    assert RunHolds(db, id);
    StatusKnowsResult(id, db.runs[id].createdAt, db.events[id]);
    EdgesClimb(db.runs[id].status, command.to);
  }

  lemma TransitionKeepsId(run: Run, command: Command)
    ensures var decided := TransitionRun(run, command);
            decided.Ok? ==>
              && decided.value.run.id == run.id && decided.value.run.createdAt == run.createdAt
              && (decided.value.event.Some? ==>
                    && decided.value.event.value.runId == run.id
                    && decided.value.run.appliedKeys == run.appliedKeys + [decided.value.event.value.key])
  {
  }

  lemma KeysAppend(log: seq<Event>, e: Event)
    ensures Keys(log + [e]) == Keys(log) + [e.key]
  {
  }

  /** A save changed nothing of this commit's business. */
  predicate KeepsRow(before: Db, after: Db, id: string)
    requires id in before.runs && id in after.runs
  {
    && after.receipts == before.receipts && after.orchestratorJobs == before.orchestratorJobs
    && after.runs[id].requestKey == before.runs[id].requestKey
    && after.runs[id].paymentProofHash == before.runs[id].paymentProofHash
    && after.runs[id].paymentAtomic == before.runs[id].paymentAtomic
  }

  /** What a committed save did to the tables. */
  lemma SavedShape(db: Db, run: Run, next: Run, e: Event, after: Db)
    requires Known(db, run.id) && LoadRun(db, run.id) == run && e.runId == next.id == run.id
    requires next.createdAt == run.createdAt && next.appliedKeys == run.appliedKeys + [e.key]
    requires SaveResult(db, next, e, run.revision) == Ok(after)
    ensures Appends(db, after, run.id, e) && LoadRun(after, run.id) == next && KeepsRow(db, after, run.id)
  {
  }

  lemma SaveHolds(db: Db, run: Run, command: Command, next: Run, e: Event)
    requires DbHolds(db) && IsSnapshot(db, run)
    requires TransitionRun(run, command) == Ok(Transitioned(next, Some(e)))
    requires command.to != Funded && KeyFits(run.id, command.key, command.to)
    ensures var saved := SaveResult(db, next, e, run.revision);
            && (saved.Ok? <==> run.revision == db.runs[run.id].revision)
            && (saved.Ok? ==> DbHolds(saved.value) && Appends(db, saved.value, run.id, e)
                              && LoadRun(saved.value, run.id) == next)
  {
    SnapshotIsCurrent(db, run);
    if run.revision == db.runs[run.id].revision {
      hide KeyFits, Fold, KeysFit, WellFormedLog;
      EventIsNew(db, run.id, command, next, e);
      TransitionMoney(db, run.id, command, next, e);
      SaveCommits(db, run, command, next, e);
    }
  }

  lemma SaveCommits(db: Db, run: Run, command: Command, next: Run, e: Event)
    requires DbHolds(db) && Known(db, run.id) && LoadRun(db, run.id) == run
    requires TransitionRun(run, command) == Ok(Transitioned(next, Some(e)))
    requires command.to != Funded && KeyFits(run.id, command.key, command.to)
    requires SaveResult(db, next, e, run.revision).Ok?
    ensures var after := SaveResult(db, next, e, run.revision).value;
            DbHolds(after) && Appends(db, after, run.id, e) && LoadRun(after, run.id) == next
  {
    var after := SaveResult(db, next, e, run.revision).value;
    TransitionMoney(db, run.id, command, next, e);
    SavedShape(db, run, next, e, after);
    assert MoneyHolds(db, run.id) by { assert RunHolds(db, run.id); }
    assert UniqueMoney(db);
    hide DbHolds, SaveResult, TransitionRun, KeyFits;
    CommitHolds(db, after, run.id, command, next, e);
  }

  /** What a committed expiry did to the tables. */
  lemma ExpiredShape(db: Db, run: Run, next: Run, e: Event, after: Db)
    requires Known(db, run.id) && LoadRun(db, run.id) == run && e.runId == next.id == run.id
    requires next.result == db.runs[run.id].result && next.status == Expired
    requires next.createdAt == run.createdAt && next.appliedKeys == run.appliedKeys + [e.key]
    requires CommitExpiredResult(db, run.revision, next, e) == Ok(after) && e.to == Expired
    ensures Appends(db, after, run.id, e) && LoadRun(after, run.id) == next
    ensures after.receipts == db.receipts && after.orchestratorJobs == db.orchestratorJobs
    ensures after.runs[run.id].requestKey == db.runs[run.id].requestKey
    ensures after.runs[run.id].paymentProofHash == db.runs[run.id].paymentProofHash
    ensures after.runs[run.id].paymentAtomic == db.runs[run.id].paymentAtomic
  {
  }

  lemma ExpireHolds(db: Db, run: Run, command: Command, next: Run, e: Event)
    requires DbHolds(db) && IsSnapshot(db, run)
    requires TransitionRun(run, command) == Ok(Transitioned(next, Some(e)))
    requires command.to == Expired && KeyFits(run.id, command.key, Expired)
    ensures var expired := CommitExpiredResult(db, run.revision, next, e);
            && (expired.Ok? <==> run.revision == db.runs[run.id].revision)
            && (expired.Ok? ==> DbHolds(expired.value) && Appends(db, expired.value, run.id, e)
                                && LoadRun(expired.value, run.id) == next)
  {
    SnapshotIsCurrent(db, run);
    if run.revision == db.runs[run.id].revision {
      hide KeyFits, Fold, KeysFit, WellFormedLog;
      EventIsNew(db, run.id, command, next, e);
      TransitionMoney(db, run.id, command, next, e);
      ExpireCommits(db, run, command, next, e);
    }
  }

  lemma ExpireCommits(db: Db, run: Run, command: Command, next: Run, e: Event)
    requires DbHolds(db) && Known(db, run.id) && LoadRun(db, run.id) == run && e.runId == next.id == run.id
    requires TransitionRun(run, command) == Ok(Transitioned(next, Some(e)))
    requires command.to == Expired && KeyFits(run.id, command.key, Expired)
    requires CommitExpiredResult(db, run.revision, next, e).Ok?
    ensures var after := CommitExpiredResult(db, run.revision, next, e).value;
            DbHolds(after) && Appends(db, after, run.id, e) && LoadRun(after, run.id) == next
  {
    var after := CommitExpiredResult(db, run.revision, next, e).value;
    TransitionMoney(db, run.id, command, next, e);
    ExpiredShape(db, run, next, e, after);
    assert MoneyHolds(db, run.id) by { assert RunHolds(db, run.id); }
    assert UniqueMoney(db);
    hide DbHolds, CommitExpiredResult, TransitionRun, KeyFits;
    CommitHolds(db, after, run.id, command, next, e);
  }

  lemma StepKeysDistinct(id: string, a: Status, b: Status)
    ensures a != b ==> StepKey(id, a) != StepKey(id, b)
    ensures |StepKey(id, a)| >= 8
  {
    var prefix := "orchestrator:" + id + ":";
    assert StepKey(id, a) == prefix + StatusName(a) && StepKey(id, b) == prefix + StatusName(b);
    if StepKey(id, a) == StepKey(id, b) {
      assert StatusName(a) == (prefix + StatusName(a))[|prefix|..];
      assert StatusName(b) == (prefix + StatusName(b))[|prefix|..];
      StatusNamesDistinct(a, b);
    }
  }

  lemma StatusNamesDistinct(a: Status, b: Status)
    requires StatusName(a) == StatusName(b)
    ensures a == b
  {
  }

  /** A step's key starts with an o and ends in a capital. */
  lemma StepKeyShape(id: string, to: Status)
    ensures StepKey(id, to)[0] == 'o'
    ensures var key := StepKey(id, to); 'A' <= key[|key| - 1] <= 'Z'
  {
    var key := StepKey(id, to);
    var name := StatusName(to);
    assert key == "orchestrator:" + id + ":" + name;
    assert key[|key| - 1] == name[|name| - 1];
  }

  lemma PaymentKeyFits(id: string, payment: Payment)
    ensures KeyFits(id, PaymentKey(payment), Funded) && IsPaymentKey(PaymentKey(payment))
  {
    var key, digits := PaymentKey(payment), Digits(payment.logIndex);
    DigitsAreDigits(payment.logIndex);
    assert key == CUSTOMER_PAYMENT + (payment.transactionHash + ":" + digits);
    assert key[|key| - 1] == digits[|digits| - 1];
    assert PaymentKey(payment)[0] == 'c' && ORDER_EXPIRED[0] == DEADLINE_PASSED[0] == 'p';
    forall other ensures PaymentKey(payment) != StepKey(id, other) {
      StepKeyShape(id, other);
    }
  }

  /** A client's own key is never mistaken for another: it ends in ":quoted", order
      ids have no colon, and deadlines and steps end in a capital. */
  lemma QuotedKeyFits(id: string, clientKey: string)
    ensures KeyFits(id, QuotedKey(clientKey), Quoted)
  {
    var key := QuotedKey(clientKey);
    assert !IsPaymentKey(key) by { assert key[|key| - 1] == 'd'; }
    assert key[|key| - 7] == ':' && key[|key| - 1] == 'd';
    if |key| >= |ORDER_EXPIRED| + 7 {
      assert key[|ORDER_EXPIRED|..][|key| - 7 - |ORDER_EXPIRED|] == ':';
    }
    forall other ensures key != StepKey(id, other) {
      StepKeyShape(id, other);
    }
  }

  lemma CallerKeyFits(id: string, caller: Caller)
    ensures KeyFits(id, CallerKey(id, caller), if caller.Gateway? then PaymentRequired else caller.to)
  {
    var key := CallerKey(id, caller);
    match caller
    case Gateway(orderId) =>
      assert key[0] == 'p' && key[8] == 'o' && DEADLINE_PASSED[8] == 'd' && CUSTOMER_PAYMENT[0] == 'c';
      assert |key| > 13 ==> key[13] == ':' && ORDER_EXPIRED[13] == '-';
      forall other ensures key != StepKey(id, other) {
        StepKeyShape(id, other);
      }
    case Worker(_, to) =>
      StepKeyShape(id, to);
      assert key == StepKey(id, to) && ORDER_EXPIRED[0] == DEADLINE_PASSED[0] == 'p' && CUSTOMER_PAYMENT[0] == 'c';
      forall other ensures key == StepKey(id, other) ==> other == to {
        StepKeysDistinct(id, to, other);
      }
  }

  predicate IsSystemExpiryKey(key: string) {
    HasPrefix(key, ORDER_EXPIRED) || HasPrefix(key, DEADLINE_PASSED)
  }

  lemma ExpiryKeyFits(id: string, key: string)
    requires IsSystemExpiryKey(key)
    ensures KeyFits(id, key, Expired)
  {
    assert ORDER_EXPIRED[0] == DEADLINE_PASSED[0] == 'p' && key[0] == 'p' && CUSTOMER_PAYMENT[0] == 'c';
    forall other ensures key != StepKey(id, other) {
      StepKeyShape(id, other);
    }
  }

  lemma MoneyStaysUnique(db: Db, after: Db, id: string, payment: Payment)
    requires UniqueMoney(db) && !ReceiptTaken(db, id, payment)
    requires after.receipts == db.receipts[id := payment]
    ensures UniqueMoney(after)
  {
  }

  /** Another log, and under another proof. */
  predicate IsOtherTransfer(a: Payment, b: Payment) {
    && (a.chainId != b.chainId || a.transactionHash != b.transactionHash || a.logIndex != b.logIndex)
    && a.proofHash != b.proofHash
  }

  predicate IsNewPayment(db: Db, id: string, payment: Payment) {
    id !in db.receipts && forall other :: other in db.receipts ==> IsOtherTransfer(db.receipts[other], payment)
  }

  lemma NewPaymentIsNotTaken(db: Db, id: string, payment: Payment)
    ensures !ReceiptTaken(db, id, payment) <==> IsNewPayment(db, id, payment)
  {
  }

  /** A payment commits exactly when its snapshot is current and neither the run
      nor the transfer has a receipt yet. */
  lemma FundsExactlyWhen(db: Db, run: Run, payment: Payment, now: int, next: Run, e: Event)
    requires DbHolds(db) && IsSnapshot(db, run)
    requires TransitionRun(run, PaymentCommand(run, payment, now)) == Ok(Transitioned(next, Some(e)))
    ensures CommitFundedResult(db, run.revision, next, e, payment).Ok? <==>
              run.revision == db.runs[run.id].revision && payment.amount > 0 && IsNewPayment(db, run.id, payment)
  {
    hide IsNewPayment;
    NewPaymentIsNotTaken(db, run.id, payment);
    SnapshotIsCurrent(db, run);
    if run.revision == db.runs[run.id].revision {
      EventIsNew(db, run.id, PaymentCommand(run, payment, now), next, e);
      TransitionMoney(db, run.id, PaymentCommand(run, payment, now), next, e);
    }
  }

  /** What a committed payment did to the tables. */
  lemma FundedShape(db: Db, run: Run, e: Event, next: Run, payment: Payment, after: Db)
    requires Known(db, run.id) && LoadRun(db, run.id) == run && e.runId == next.id == run.id
    requires next.result.None? && next.status == Funded && db.runs[run.id].result.None?
    requires next.createdAt == run.createdAt && next.appliedKeys == run.appliedKeys + [e.key]
    requires CommitFundedResult(db, run.revision, next, e, payment) == Ok(after)
    requires e.to == Funded
    ensures Appends(db, after, run.id, e) && LoadRun(after, run.id) == next
    ensures !ReceiptTaken(db, run.id, payment) && after.receipts == db.receipts[run.id := payment]
    ensures after.paymentJobs == db.paymentJobs
    ensures after.runs[run.id].requestKey == db.runs[run.id].requestKey
    ensures payment.amount > 0 && run.id in after.orchestratorJobs
    ensures after.runs[run.id].paymentProofHash == Some(payment.proofHash)
    ensures after.runs[run.id].paymentAtomic == Some(payment.amount)
  {
  }

  lemma FundHolds(db: Db, run: Run, payment: Payment, now: int, next: Run, e: Event, after: Db)
    requires DbHolds(db) && IsSnapshot(db, run)
    requires TransitionRun(run, PaymentCommand(run, payment, now)) == Ok(Transitioned(next, Some(e)))
    requires CommitFundedResult(db, run.revision, next, e, payment) == Ok(after)
    ensures DbHolds(after) && Grows(db, after)
    ensures after.runs[run.id].status == Funded && after.paymentJobs == db.paymentJobs
  {
    SnapshotIsCurrent(db, run);
    CommittedWasCurrent(db, run.revision, next, e, payment);
    var id := run.id;
    var command := PaymentCommand(run, payment, now);
    hide Fold, KeysFit, WellFormedLog, TransitionRun, CommitFundedResult;
    TransitionMoney(db, id, command, next, e);
    TransitionKeepsId(run, command);
    FundCommits(db, run, command, payment, next, e, after);
  }

  lemma CommittedWasCurrent(db: Db, previousRevision: nat, next: Run, e: Event, payment: Payment)
    requires e.runId == next.id
    requires CommitFundedResult(db, previousRevision, next, e, payment).Ok?
    ensures Known(db, next.id) && db.runs[next.id].revision == previousRevision
  {
  }

  lemma FundCommits(db: Db, run: Run, command: Command, payment: Payment, next: Run, e: Event, after: Db)
    requires DbHolds(db) && Known(db, run.id) && LoadRun(db, run.id) == run && e.runId == next.id == run.id
    requires TransitionRun(run, command) == Ok(Transitioned(next, Some(e))) && command.key == PaymentKey(payment)
    requires next.result.None? && next.status == command.to == e.to == Funded && db.runs[run.id].result.None?
    requires next.createdAt == run.createdAt && next.appliedKeys == run.appliedKeys + [e.key]
    requires CommitFundedResult(db, run.revision, next, e, payment) == Ok(after)
    ensures DbHolds(after) && Grows(db, after)
    ensures after.runs[run.id].status == Funded && after.paymentJobs == db.paymentJobs
  {
    var id := run.id;
    FundedShape(db, run, e, next, payment, after);
    PaymentKeyFits(id, payment);
    assert UniqueMoney(db) && MoneyHolds(after, id);
    hide DbHolds, CommitFundedResult, TransitionRun, KeyFits, MoneyHolds;
    MoneyStaysUnique(db, after, id, payment);
    AppendsGrows(db, after, id, e);
    CommitHolds(db, after, id, command, next, e);
  }

  lemma CreateHolds(db: Db, id: string, clientKey: string, now: int, next: Run, e: Event)
    requires DbHolds(db) && |id| > 0
    requires TransitionRun(DraftRun(id, now), QuotedCommand(clientKey, now)) == Ok(Transitioned(next, Some(e)))
    ensures var saved := SaveNewResult(db, clientKey, next, e);
            saved.Ok? ==> DbHolds(saved.value) && Grows(db, saved.value) && id !in db.runs
  {
    var saved := SaveNewResult(db, clientKey, next, e);
    if saved.Ok? {
      var row := RunRow(clientKey, next.status, next.result, next.revision, next.createdAt, next.updatedAt, None, None);
      var bare := db.(runs := db.runs[id := row], events := db.events[id := []]);
      InsertedHolds(db, bare, saved.value, id, clientKey, now, next, e);
    }
  }

  lemma InsertedHolds(db: Db, bare: Db, after: Db, id: string, clientKey: string, now: int, next: Run, e: Event)
    requires DbHolds(db) && id !in db.runs
    requires forall other :: other in db.runs ==> db.runs[other].requestKey != clientKey
    requires TransitionRun(DraftRun(id, now), QuotedCommand(clientKey, now)) == Ok(Transitioned(next, Some(e)))
    requires var row := RunRow(clientKey, next.status, next.result, next.revision, next.createdAt, next.updatedAt, None, None);
             bare == db.(runs := db.runs[id := row], events := db.events[id := []])
    requires after == bare.(events := bare.events[id := bare.events[id] + [e]], outbox := bare.outbox + [e])
    ensures DbHolds(after)
  {
    InsertedTablesHold(db, bare, after, id, clientKey, e);
    InsertedRunHolds(db, after, id, clientKey, now, next, e);
    forall other | other in after.runs ensures RunHolds(after, other) {
      if other != id {
        assert RunHolds(db, other);
        UninsertedHolds(db, bare, after, id, e, other);
      }
    }
  }

  lemma InsertedTablesHold(db: Db, bare: Db, after: Db, id: string, clientKey: string, e: Event)
    requires TablesHold(db) && id !in db.runs && e.runId == id
    requires forall other :: other in db.runs ==> db.runs[other].requestKey != clientKey
    requires id in bare.runs && bare.runs[id].requestKey == clientKey
    requires bare == db.(runs := db.runs[id := bare.runs[id]], events := db.events[id := []])
    requires after == bare.(events := bare.events[id := bare.events[id] + [e]], outbox := bare.outbox + [e])
    ensures TablesHold(after)
  {
  }

  lemma InsertedRunHolds(db: Db, after: Db, id: string, clientKey: string, now: int, next: Run, e: Event)
    requires id !in db.runs && forall i :: 0 <= i < |db.outbox| ==> db.outbox[i].runId in db.runs
    requires TransitionRun(DraftRun(id, now), QuotedCommand(clientKey, now)) == Ok(Transitioned(next, Some(e)))
    requires id in after.runs && after.runs[id].createdAt == now && after.runs[id].paymentProofHash.None?
    requires id in after.events && after.events[id] == [] + [e] && after.outbox == db.outbox + [e]
    requires LoadRun(after, id) == next
    requires id !in after.receipts && id !in after.paymentJobs && id !in after.orchestratorJobs
    ensures RunHolds(after, id)
  {
    hide RunHolds, QuotedKey;
    NoEvents(db.outbox, id);
    assert (db.outbox + [e])[..|db.outbox|] == db.outbox;
    assert ForRun(after.outbox, id) == [e];
    hide TransitionRun, LoadRun, ForRun;
    FirstEventHolds(after, id, clientKey, now, next, e);
  }

  lemma UninsertedHolds(db: Db, bare: Db, after: Db, id: string, e: Event, other: string)
    requires other in db.runs && RunHolds(db, other) && other != id && e.runId == id
    requires id in bare.runs && bare == db.(runs := db.runs[id := bare.runs[id]], events := db.events[id := []])
    requires after == bare.(events := bare.events[id := bare.events[id] + [e]], outbox := bare.outbox + [e])
    requires e.to != PaymentRequired
    ensures RunHolds(after, other)
  {
  }

  /** A new run's first event is the whole of its history. */
  lemma FirstEventHolds(db: Db, id: string, clientKey: string, now: int, next: Run, e: Event)
    requires TransitionRun(DraftRun(id, now), QuotedCommand(clientKey, now)) == Ok(Transitioned(next, Some(e)))
    requires id in db.runs && db.runs[id].createdAt == now && db.runs[id].paymentProofHash.None?
    requires id in db.events && db.events[id] == ForRun(db.outbox, id) == [e]
    requires LoadRun(db, id) == next
    requires id !in db.receipts && id !in db.paymentJobs && id !in db.orchestratorJobs
    ensures RunHolds(db, id)
  {
    QuotedKeyFits(id, clientKey);
    assert WellFormedLog(id, now, []);
    TransitionExtendsLog(id, now, [], QuotedCommand(clientKey, now));
    assert [e] == [] + [e];
    assert Visits([e][..0], PaymentRequired) == 0;
  }

  lemma {:induction false} NoEvents(outbox: seq<Event>, id: string)
    requires forall i :: 0 <= i < |outbox| ==> outbox[i].runId != id
    ensures ForRun(outbox, id) == []
  {
    if outbox != [] {
      NoEvents(outbox[..|outbox| - 1], id);
    }
  }

  // ---------------------------------------------------------------- snapshots outlive commits

  /** Rows are never removed and logs only grow at the end. */
  ghost predicate Grows(before: Db, after: Db) {
    && before.runs.Keys <= after.runs.Keys
    && before.paymentJobs.Keys <= after.paymentJobs.Keys
    && (forall id :: id in before.runs && id in before.events ==>
          && id in after.events
          && after.runs[id].createdAt == before.runs[id].createdAt
          && before.events[id] <= after.events[id])
  }

  lemma AppendsGrows(before: Db, after: Db, id: string, e: Event)
    requires Appends(before, after, id, e)
    ensures Grows(before, after)
  {
  }

  lemma SnapshotSurvives(before: Db, after: Db, run: Run)
    requires IsSnapshot(before, run) && Grows(before, after)
    ensures IsSnapshot(after, run)
  {
  }

  lemma ResolvedSurvives(before: Db, after: Db, id: string)
    requires IsResolved(before, id) && Grows(before, after)
    requires LogHolds(before, id) && id in after.runs && LogHolds(after, id)
    ensures IsResolved(after, id)
  {
    LevelNeverDrops(id, after.runs[id].createdAt, after.events[id], |before.events[id]|);
    assert after.events[id][..|before.events[id]|] == before.events[id];
  }

  /** A state whose tables grew, with the same sessions, still holds. */
  lemma SessionsSurvive(s: Sys, after: Db)
    requires Holds(s) && DbHolds(after) && Grows(s.db, after)
    ensures Holds(s.(db := after))
  {
    forall n | n in s.held ensures IsSnapshot(after, s.held[n]) {
      SnapshotSurvives(s.db, after, s.held[n]);
    }
    forall n | n in s.paying ensures IsFundableSnapshot(after, s.paying[n]) {
      SnapshotSurvives(s.db, after, s.paying[n].run);
    }
    forall n | n in s.resolved ensures IsResolved(after, s.resolved[n]) {
      assert RunHolds(s.db, s.resolved[n]) && RunHolds(after, s.resolved[n]);
      ResolvedSurvives(s.db, after, s.resolved[n]);
    }
  }

  lemma LoadIsSnapshot(db: Db, id: string)
    requires DbHolds(db) && Known(db, id)
    ensures IsSnapshot(db, LoadRun(db, id))
    ensures id in db.paymentJobs ==> Level(db.runs[id].status) >= 2
  {
    assert RunHolds(db, id);
    var log := db.events[id];
    assert log[..|log|] == log;
    hide KeysFit, ForRun, MoneyHolds;
    if id in db.paymentJobs { VisitedStaysReached(id, db.runs[id].createdAt, log, PaymentRequired); }
  }

  lemma VisitedStaysReached(id: string, createdAt: int, log: seq<Event>, status: Status)
    requires WellFormedLog(id, createdAt, log) && Visits(log, status) > 0
    ensures Level(Fold(id, createdAt, log).status) >= Level(status)
  {
    VisitedSomewhere(log, status);
    var i :| 0 <= i < |log| && log[i].to == status;
    hide WellFormedLog;
    EventStaysReached(id, createdAt, log, i);
  }

  lemma EventStaysReached(id: string, createdAt: int, log: seq<Event>, i: nat)
    requires WellFormedLog(id, createdAt, log) && i < |log|
    ensures Level(log[i].to) <= Level(Fold(id, createdAt, log).status)
    ensures log[i].to == Expired ==> Fold(id, createdAt, log).status == Expired
  {
    LevelNeverDrops(id, createdAt, log, i + 1);
    assert log[..i + 1] == log[..i] + [log[i]];
  }

  /** A payment job exists only once its run has asked for payment, so a payment
      snapshot that is not waiting any more has left that status for good. */
  lemma LeftWaiting(s: Sys, session: nat)
    requires Holds(s) && session in s.paying
    requires s.paying[session].run.status != PaymentRequired
    ensures IsResolved(s.db, s.paying[session].run.id)
  {
    var run := s.paying[session].run;
    var id := run.id;
    assert RunHolds(s.db, id);
    LevelNeverDrops(id, s.db.runs[id].createdAt, s.db.events[id], run.revision);
    OnlyWaitingAtTwo(run.status);
  }

  lemma OnlyWaitingAtTwo(status: Status)
    ensures Level(status) == 2 <==> status == PaymentRequired
  {
  }

  lemma HoldingOneMore(s: Sys, session: nat, run: Run)
    requires Holds(s) && IsSnapshot(s.db, run)
    ensures Holds(s.(held := s.held[session := run]))
  {
  }

  lemma ResolvingOneMore(s: Sys, session: nat, id: string)
    requires Holds(s) && IsResolved(s.db, id)
    ensures Holds(s.(resolved := s.resolved[session := id]))
  {
  }

  // ---------------------------------------------------------------- every step

  lemma CreateStepHolds(s: Sys, a: Action)
    requires Holds(s) && a.CreateRun?
    ensures Holds(StepCreate(s, a))
  {
    var draft := CreateDraft(a.id, Some(a.now));
    if draft.Ok? {
      var quoted := TransitionRun(draft.value, QuotedCommand(a.clientKey, a.now));
      if quoted.Ok? && quoted.value.event.Some? {
        CreateHolds(s.db, a.id, a.clientKey, a.now, quoted.value.run, quoted.value.event.value);
        SessionsSurvive(s, StepCreate(s, a).db);
      }
    }
  }

  lemma SaveStepHolds(s: Sys, a: Action)
    requires Holds(s) && a.SaveStep?
    ensures Holds(StepSave(s, a))
  {
    hide DbHolds, SaveResult, TransitionRun, KeyFits, CallerKey, Fold, Grows;
    if a.session in s.held && !(a.caller.Worker? && a.caller.to == Funded) {
      var run := s.held[a.session];
      var command := CallerCommand(run, a.caller, a.now);
      var decided := TransitionRun(run, command);
      if decided.Ok? && decided.value.event.Some? {
        CallerKeyFits(run.id, a.caller);
        SaveHolds(s.db, run, command, decided.value.run, decided.value.event.value);
        var saved := SaveResult(s.db, decided.value.run, decided.value.event.value, run.revision);
        if saved.Ok? {
          AppendsGrows(s.db, saved.value, run.id, decided.value.event.value);
          SessionsSurvive(s, saved.value);
          LoadIsSnapshot(saved.value, run.id);
          HoldingOneMore(s.(db := saved.value), a.session, decided.value.run);
        }
      }
    }
  }

  /** Expiring a snapshot keeps the tables; when it reports success the run has
      left the waiting status or nothing was committed. */
  lemma ExpiryHolds(db: Db, run: Run, key: string, now: int)
    requires DbHolds(db) && IsSnapshot(db, run) && IsSystemExpiryKey(key)
    ensures DbHolds(After(db, Expiry(db, run, key, now))) && Grows(db, After(db, Expiry(db, run, key, now)))
    ensures Expiry(db, run, key, now).Ok? && key !in run.appliedKeys ==>
              Expiry(db, run, key, now).value.runs[run.id].status == Expired
  {
    var command := ExpireCommand(run, key, now);
    var decided := TransitionRun(run, command);
    ExpiryKeyFits(run.id, key);
    hide DbHolds, IsSnapshot, KeyFits, IsSystemExpiryKey, Fold;
    if decided.Ok? && decided.value.event.Some? {
      ExpireHolds(db, run, command, decided.value.run, decided.value.event.value);
      var expired := CommitExpiredResult(db, run.revision, decided.value.run, decided.value.event.value);
      if expired.Ok? {
        AppendsGrows(db, expired.value, run.id, decided.value.event.value);
      }
    }
  }

  lemma SweepStepHolds(s: Sys, a: Action)
    requires Holds(s) && a.SweepExpired?
    ensures Holds(StepSweep(s, a))
  {
    if a.session in s.held {
      ExpiryKeysAreExpiryKeys("", a.deadline);
      ExpiryHolds(s.db, s.held[a.session], DeadlineKey(a.deadline), a.now);
      SessionsSurvive(s, StepSweep(s, a).db);
    }
  }

  lemma ExpiryKeysAreExpiryKeys(orderId: string, deadline: string)
    ensures IsSystemExpiryKey(OrderExpiredKey(orderId)) && IsSystemExpiryKey(DeadlineKey(deadline))
    ensures IsOrderId(orderId) ==> IsExpiryKey(OrderExpiredKey(orderId))
    ensures IsDeadline(deadline) ==> IsExpiryKey(DeadlineKey(deadline))
  {
    assert OrderExpiredKey(orderId)[|ORDER_EXPIRED|..] == orderId;
    assert DeadlineKey(deadline)[|DEADLINE_PASSED|..] == deadline;
  }

  /** Where a snapshot's key was used: at a level the run is at or past, and for a
      status that the key fits. */
  lemma UsedKeyWasReached(db: Db, run: Run, key: string) returns (to: Status)
    requires DbHolds(db) && IsSnapshot(db, run) && key in run.appliedKeys
    ensures KeyFits(run.id, key, to) && Level(to) <= Level(run.status)
    ensures to.Expired? ==> run.status == Expired
  {
    assert RunHolds(db, run.id);
    var log, createdAt := db.events[run.id], db.runs[run.id].createdAt;
    hide KeyFits, WellFormedLog, RunHolds;
    var i :| 0 <= i < run.revision && run.appliedKeys[i] == key;
    var prefix := log[..run.revision];
    assert prefix[i] == log[i] && log[i].key == key;
    to := log[i].to;
    assert KeyFits(run.id, log[i].key, log[i].to);
    PrefixWellFormed(run.id, createdAt, log, run.revision);
    EventStaysReached(run.id, createdAt, prefix, i);
  }

  /** A snapshot that has not expired never carries an expiry key, so expiring it is
      never mistaken for a replay. */
  lemma ExpiryIsNoReplay(db: Db, run: Run, key: string)
    requires DbHolds(db) && IsSnapshot(db, run) && run.status != Expired && IsExpiryKey(key)
    ensures key !in run.appliedKeys
  {
    hide DbHolds, IsSnapshot;
    if key in run.appliedKeys {
      var to := UsedKeyWasReached(db, run, key);
    }
  }

  /** Nor does one that still waits for payment carry a payment's key. */
  lemma PaymentIsNoReplay(db: Db, run: Run, payment: Payment)
    requires DbHolds(db) && IsSnapshot(db, run) && run.status == PaymentRequired
    ensures PaymentKey(payment) !in run.appliedKeys
  {
    hide DbHolds, IsSnapshot;
    PaymentKeyFits(run.id, payment);
    if PaymentKey(payment) in run.appliedKeys {
      var to := UsedKeyWasReached(db, run, PaymentKey(payment));
    }
  }

  lemma OrderExpiryResolves(db: Db, run: Run, orderId: string, now: int)
    requires DbHolds(db) && IsSnapshot(db, run) && run.status == PaymentRequired && IsOrderId(orderId)
    requires run.id in db.paymentJobs
    ensures var expired := Expiry(db, run, OrderExpiredKey(orderId), now);
            expired.Ok? ==> DbHolds(expired.value) && Grows(db, expired.value) && IsResolved(expired.value, run.id)
  {
    hide DbHolds, Expiry, OrderExpiredKey, IsOrderId, IsExpiryKey, IsSystemExpiryKey, Fold;
    ExpiryKeysAreExpiryKeys(orderId, "");
    ExpiryIsNoReplay(db, run, OrderExpiredKey(orderId));
    ExpiryHolds(db, run, OrderExpiredKey(orderId), now);
  }

  lemma ExpireOrderStepHolds(s: Sys, a: Action)
    requires Holds(s) && a.ExpireOrder?
    ensures Holds(StepExpireOrder(s, a))
  {
    if a.session in s.paying && s.paying[a.session].run.status == PaymentRequired && IsOrderId(a.orderId) {
      var run := s.paying[a.session].run;
      var expired := Expiry(s.db, run, OrderExpiredKey(a.orderId), a.now);
      OrderExpiryResolves(s.db, run, a.orderId, a.now);
      if expired.Ok? {
        hide DbHolds, Expiry, IsOrderId, Grows;
        SessionsSurvive(s, expired.value);
        ResolvingOneMore(s.(db := expired.value), a.session, run.id);
      }
    }
  }

  lemma PaymentResolves(db: Db, run: Run, payment: Payment, now: int, next: Run, e: Event, after: Db)
    requires DbHolds(db) && IsSnapshot(db, run) && run.id in db.paymentJobs
    requires TransitionRun(run, PaymentCommand(run, payment, now)) == Ok(Transitioned(next, Some(e)))
    requires CommitFundedResult(db, run.revision, next, e, payment) == Ok(after)
    ensures DbHolds(after) && Grows(db, after) && IsResolved(after, run.id)
  {
    hide DbHolds, CommitFundedResult, TransitionRun, Fold;
    FundHolds(db, run, payment, now, next, e, after);
  }

  lemma CommitPaymentStepHolds(s: Sys, a: Action)
    requires Holds(s) && a.CommitPayment?
    ensures Holds(StepCommitPayment(s, a))
  {
    hide DbHolds, CommitFundedResult, TransitionRun, Grows;
    if a.session in s.paying && s.paying[a.session].run.status == PaymentRequired {
      var run := s.paying[a.session].run;
      var decided := TransitionRun(run, PaymentCommand(run, a.payment, a.now));
      if decided.Ok? && decided.value.event.Some? {
        TransitionKeepsId(run, PaymentCommand(run, a.payment, a.now));
        var committed := CommitFundedResult(s.db, run.revision, decided.value.run, decided.value.event.value, a.payment);
        if committed.Ok? {
          PaymentResolves(s.db, run, a.payment, a.now, decided.value.run, decided.value.event.value, committed.value);
          SessionsSurvive(s, committed.value);
          ResolvingOneMore(s.(db := committed.value), a.session, run.id);
        }
      }
    }
  }

  lemma CompletingHolds(db: Db, id: string)
    requires DbHolds(db) && IsResolved(db, id)
    ensures var after := db.(paymentJobs := db.paymentJobs[id := Completed]); DbHolds(after) && Grows(db, after)
  {
    var after := db.(paymentJobs := db.paymentJobs[id := Completed]);
    forall other | other in after.runs ensures RunHolds(after, other) {
      assert RunHolds(db, other);
      assert LoadRun(after, other) == LoadRun(db, other);
    }
  }

  lemma CompleteStepHolds(s: Sys, a: Action)
    requires Holds(s) && a.CompleteJob?
    ensures Holds(Step(s, a))
  {
    if a.session in s.resolved && s.resolved[a.session] in s.db.paymentJobs {
      hide DbHolds, Grows;
      CompletingHolds(s.db, s.resolved[a.session]);
      SessionsSurvive(s, Step(s, a).db);
    }
  }

  lemma LoadPaymentHolds(s: Sys, session: nat, id: string)
    requires Holds(s)
    ensures Holds(Step(s, LoadPayment(session, id)))
  {
    if Known(s.db, id) {
      LoadIsSnapshot(s.db, id);
      assert RunHolds(s.db, id);
    }
  }

  lemma StepHolds(s: Sys, a: Action)
    requires Holds(s)
    ensures Holds(Step(s, a))
  {
    match a
    case CreateRun(_, _, _) => CreateStepHolds(s, a);
    case Load(session, id) =>
      if Known(s.db, id) {
        LoadIsSnapshot(s.db, id);
        HoldingOneMore(s, session, LoadRun(s.db, id));
      }
    case SaveStep(_, _, _) => SaveStepHolds(s, a);
    case SweepExpired(_, _, _) => SweepStepHolds(s, a);
    case LoadPayment(session, id) =>
      LoadPaymentHolds(s, session, id);
    case CommitPayment(_, _, _) => CommitPaymentStepHolds(s, a);
    case AcknowledgeFunded(session) =>
      if session in s.paying && IsAcknowledgeable(s.paying[session]) {
        LeftWaiting(s, session);
        ResolvingOneMore(s, session, s.paying[session].run.id);
      }
    case ExpireOrder(_, _, _) => ExpireOrderStepHolds(s, a);
    case LeaveUnexpired(session) =>
      if session in s.paying && s.paying[session].run.status != PaymentRequired {
        LeftWaiting(s, session);
        ResolvingOneMore(s, session, s.paying[session].run.id);
      }
    case CompleteJob(_) => CompleteStepHolds(s, a);
  }

  /** In every state that any interleaving reaches, every row is the fold of its
      own well-formed log, and receipts, jobs and snapshots agree with it. */
  lemma {:induction false} EveryInterleavingHolds(actions: seq<Action>)
    ensures Holds(Execute(actions))
  {
    if actions != [] {
      EveryInterleavingHolds(actions[..|actions| - 1]);
      StepHolds(Execute(actions[..|actions| - 1]), actions[|actions| - 1]);
    }
  }
}
