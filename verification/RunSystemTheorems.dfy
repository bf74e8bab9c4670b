/** What every interleaving of the run writers guarantees. */
module RunSystemTheorems {
  import opened Wrappers
  import opened RunDomain
  import opened RunStore
  import opened RunSystem
  import opened RunSystemProofs

  /** The persisted run is the fold of its persisted log, the revision counts the
      log, and the outbox carries exactly the same events in the same order. */
  lemma PersistedRunIsFoldOfLog(actions: seq<Action>, id: string)
    requires id in Execute(actions).db.runs
    ensures var db := Execute(actions).db;
            && Known(db, id)
            && WellFormedLog(id, db.runs[id].createdAt, db.events[id])
            && LoadRun(db, id) == Fold(id, db.runs[id].createdAt, db.events[id])
            && db.runs[id].revision == |db.events[id]|
            && ForRun(db.outbox, id) == db.events[id]
  {
    EveryInterleavingHolds(actions);
    assert RunHolds(Execute(actions).db, id);
  }

  /** Whatever the interleaving, a stored result is the verdict of the stored status. */
  lemma StoredResultIsTheVerdict(actions: seq<Action>, id: string)
    requires id in Execute(actions).db.runs
    ensures var row := Execute(actions).db.runs[id];
            && (row.result == Some(Pass) <==> row.status == DeliveredPass)
            && (row.result == Some(Conditional) <==> row.status == DeliveredConditional)
            && (row.result == Some(RunResult.Fail) <==> row.status == DeliveredFail)
            && (row.result == Some(Inconclusive) <==> row.status == DeliveredInconclusive)
  {
    PersistedRunIsFoldOfLog(actions, id);
    var db := Execute(actions).db;
    ResultIsTheVerdict(id, db.runs[id].createdAt, db.events[id]);
  }

  /** A log only grows at its end, by at most one event per step. */
  lemma StepAppendsAtMostOne(s: Sys, a: Action)
    requires s.db.events.Keys == s.db.runs.Keys
    ensures Grows(s.db, Step(s, a).db)
    ensures forall id :: id in s.db.runs ==>
              id in Step(s, a).db.runs && |Step(s, a).db.events[id]| <= |s.db.events[id]| + 1
  {
    hide StepCreate, StepSave, StepCommitPayment, Expiry;
    match a
    case CreateRun(_, _, _) => CreateAppends(s, a);
    case SaveStep(_, _, _) => SaveAppends(s, a);
    case SweepExpired(session, deadline, now) =>
      if session in s.held { ExpiryAppends(s.db, s.held[session], DeadlineKey(deadline), now); }
    case ExpireOrder(session, orderId, now) =>
      if session in s.paying { ExpiryAppends(s.db, s.paying[session].run, OrderExpiredKey(orderId), now); }
    case CommitPayment(_, _, _) => PaymentAppends(s, a);
    case _ =>
  }

  lemma CreateAppends(s: Sys, a: Action)
    requires s.db.events.Keys == s.db.runs.Keys && a.CreateRun?
    ensures Grows(s.db, StepCreate(s, a).db)
    ensures forall id :: id in s.db.runs ==>
              id in StepCreate(s, a).db.runs && StepCreate(s, a).db.events[id] == s.db.events[id]
  {
    var draft := CreateDraft(a.id, Some(a.now));
    if draft.Ok? {
      var quoted := TransitionRun(draft.value, QuotedCommand(a.clientKey, a.now));
      if quoted.Ok? && quoted.value.event.Some? {
        InsertAppends(s.db, a.clientKey, quoted.value.run, quoted.value.event.value);
      }
    }
  }

  lemma InsertAppends(db: Db, requestKey: string, run: Run, e: Event)
    requires db.events.Keys == db.runs.Keys
    ensures var after := After(db, SaveNewResult(db, requestKey, run, e));
            && Grows(db, after)
            && (forall id :: id in db.runs ==> id in after.runs && after.events[id] == db.events[id])
  {
  }

  lemma SaveAppends(s: Sys, a: Action)
    requires s.db.events.Keys == s.db.runs.Keys && a.SaveStep?
    ensures Grows(s.db, StepSave(s, a).db)
    ensures forall id :: id in s.db.runs ==>
              id in StepSave(s, a).db.runs && |StepSave(s, a).db.events[id]| <= |s.db.events[id]| + 1
  {
  }

  lemma PaymentAppends(s: Sys, a: Action)
    requires s.db.events.Keys == s.db.runs.Keys && a.CommitPayment?
    ensures Grows(s.db, StepCommitPayment(s, a).db)
    ensures forall id :: id in s.db.runs ==>
              id in StepCommitPayment(s, a).db.runs && |StepCommitPayment(s, a).db.events[id]| <= |s.db.events[id]| + 1
  {
  }

  lemma ExpiryAppends(db: Db, run: Run, key: string, now: int)
    requires db.events.Keys == db.runs.Keys
    ensures Grows(db, After(db, Expiry(db, run, key, now)))
    ensures forall id :: id in db.runs ==>
              id in After(db, Expiry(db, run, key, now)).runs &&
              |After(db, Expiry(db, run, key, now)).events[id]| <= |db.events[id]| + 1
  {
  }

  /** One step of the sequential machine from `before` to `after`, or none. */
  ghost predicate SequentialStep(before: Db, after: Db, id: string)
    requires Known(before, id) && Known(after, id)
  {
    || (after.events[id] == before.events[id] && LoadRun(after, id) == LoadRun(before, id))
    || (exists e :: IsMachineStep(before, after, id, e))
  }

  ghost predicate IsMachineStep(before: Db, after: Db, id: string, e: Event)
    requires Known(before, id) && Known(after, id)
  {
    && e.revision > 0
    && after.events[id] == before.events[id] + [e]
    && TransitionRun(LoadRun(before, id), CommandOf(e)) == Ok(Transitioned(LoadRun(after, id), Some(e)))
  }

  /** Refinement: under every interleaving, each step leaves a run alone or takes
      it through one transition of the sequential machine, decided on the run's
      current state. */
  lemma RefinesSequentialMachine(actions: seq<Action>, a: Action, id: string)
    requires id in Execute(actions).db.runs
    ensures var before := Execute(actions).db;
            var after := Execute(actions + [a]).db;
            Known(before, id) && Known(after, id) && SequentialStep(before, after, id)
  {
    var s := Execute(actions);
    assert (actions + [a])[..|actions|] == actions;
    assert Execute(actions + [a]) == Step(s, a);
    EveryInterleavingHolds(actions);
    StepHolds(s, a);
    StepAppendsAtMostOne(s, a);
    var after := Step(s, a).db;
    assert RunHolds(s.db, id) && RunHolds(after, id);
    LogExtensionIsStep(s.db, after, id);
  }

  lemma LogExtensionIsStep(before: Db, after: Db, id: string)
    requires id in before.runs && id in after.runs && LogHolds(before, id) && LogHolds(after, id)
    requires Grows(before, after) && |after.events[id]| <= |before.events[id]| + 1
    ensures SequentialStep(before, after, id)
  {
    var log := before.events[id];
    var longer := after.events[id];
    assert longer[..|log|] == log;
    if |longer| == |log| {
      assert longer == log;
    } else {
      var e := longer[|log|];
      assert longer == log + [e];
      LogIsExecution(id, after.runs[id].createdAt, longer, |log|);
      assert longer[..|log| + 1] == longer;
      assert IsMachineStep(before, after, id, e);
    }
  }

  /** The snapshot a committing action was decided on, if it has one. */
  function DecidedOn(s: Sys, a: Action): Option<Run> {
    match a
    case SaveStep(session, _, _) => if session in s.held then Some(s.held[session]) else None
    case SweepExpired(session, _, _) => if session in s.held then Some(s.held[session]) else None
    case CommitPayment(session, _, _) => if session in s.paying then Some(s.paying[session].run) else None
    case ExpireOrder(session, _, _) => if session in s.paying then Some(s.paying[session].run) else None
    case _ => None
  }

  /** A writer whose snapshot has been overtaken changes nothing at all. */
  lemma StaleWriterChangesNothing(actions: seq<Action>, a: Action)
    requires var s := Execute(actions);
             && DecidedOn(s, a).Some?
             && DecidedOn(s, a).value.id in s.db.runs
             && DecidedOn(s, a).value.revision != s.db.runs[DecidedOn(s, a).value.id].revision
    ensures Step(Execute(actions), a).db == Execute(actions).db
  {
  }

  /** A save whose snapshot is current and whose transition the machine accepts
      always commits: no constraint of the schema can reject it. */
  lemma CurrentWriterCommits(actions: seq<Action>, session: nat, caller: Caller, now: int)
    requires session in Execute(actions).held
    requires !(caller.Worker? && caller.to == Funded)
    requires var run := Execute(actions).held[session];
             var decided := TransitionRun(run, CallerCommand(run, caller, now));
             decided.Ok? && decided.value.event.Some?
    ensures var s := Execute(actions);
            var run := s.held[session];
            var decided := TransitionRun(run, CallerCommand(run, caller, now));
            run.id in s.db.runs &&
            (run.revision == s.db.runs[run.id].revision <==>
             SaveResult(s.db, decided.value.run, decided.value.event.value, run.revision).Ok?)
  {
    EveryInterleavingHolds(actions);
    var s := Execute(actions);
    var run := s.held[session];
    var command := CallerCommand(run, caller, now);
    var decided := TransitionRun(run, command);
    CallerKeyFits(run.id, caller);
    SaveHolds(s.db, run, command, decided.value.run, decided.value.event.value);
  }

  /** A run is funded or later exactly when it has a receipt, exactly when its
      row has a proof hash, exactly when it has an orchestrator job; and the row
      repeats what the receipt says. */
  lemma MoneyFollowsStatus(actions: seq<Action>, id: string)
    requires id in Execute(actions).db.runs
    ensures var db := Execute(actions).db;
            var row := db.runs[id];
            && (IsPaid(row.status) <==> id in db.receipts)
            && (IsPaid(row.status) <==> row.paymentProofHash.Some?)
            && (IsPaid(row.status) <==> id in db.orchestratorJobs)
            && (IsPaid(row.status) ==>
                  && row.paymentProofHash == Some(db.receipts[id].proofHash)
                  && row.paymentAtomic == Some(db.receipts[id].amount)
                  && db.receipts[id].amount > 0)
  {
    EveryInterleavingHolds(actions);
    assert RunHolds(Execute(actions).db, id);
  }

  /** One transfer funds at most one run, and one request creates at most one. */
  lemma MoneyAndRequestsAreUnique(actions: seq<Action>, a: string, b: string)
    requires a in Execute(actions).db.runs && b in Execute(actions).db.runs && a != b
    ensures var db := Execute(actions).db;
            && db.runs[a].requestKey != db.runs[b].requestKey
            && (a in db.receipts && b in db.receipts ==> !SameTransfer(db.receipts[a], db.receipts[b]))
  {
    EveryInterleavingHolds(actions);
  }

  /** No log holds both a funding and an expiry or a cancellation, and the log of
      a delivered run passed every milestone exactly once. */
  lemma PaidRunsAreSeenThrough(actions: seq<Action>, id: string)
    requires id in Execute(actions).db.runs
    ensures var db := Execute(actions).db;
            && id in db.events
            && (Visits(db.events[id], Funded) == 0
                || Visits(db.events[id], Expired) == Visits(db.events[id], Cancelled) == 0)
            && (IsDelivered(db.runs[id].status) ==>
                  forall m :: IsMilestone(m) ==> Visits(db.events[id], m) == 1)
  {
    EveryInterleavingHolds(actions);
    var db := Execute(actions).db;
    assert RunHolds(db, id);
    FundedNeverAbandoned(id, db.runs[id].createdAt, db.events[id], Expired);
    FundedNeverAbandoned(id, db.runs[id].createdAt, db.events[id], Cancelled);
    if IsDelivered(db.runs[id].status) {
      DeliveredHistory(id, db.runs[id].createdAt, db.events[id]);
    }
  }

  /** A completed payment job's run has asked for payment and is not waiting for
      it any more: it was funded, expired or cancelled. */
  lemma CompletedJobIsSettled(actions: seq<Action>, id: string)
    requires var db := Execute(actions).db;
             id in db.runs && id in db.paymentJobs && db.paymentJobs[id] == Completed
    ensures var db := Execute(actions).db;
            && id in db.events
            && Visits(db.events[id], PaymentRequired) > 0
            && (IsPaid(db.runs[id].status) || IsAbandoned(db.runs[id].status))
  {
    EveryInterleavingHolds(actions);
    assert RunHolds(Execute(actions).db, id);
    LevelsAboveTwo(Execute(actions).db.runs[id].status);
  }

  lemma LevelsAboveTwo(status: Status)
    ensures Level(status) > 2 <==> IsPaid(status) || IsAbandoned(status)
  {
  }

  /** A funded run loaded by the payment worker always carries its payment: the
      "missing its immutable payment" error is unreachable. */
  lemma FundedSnapshotIsAcknowledgeable(actions: seq<Action>, session: nat)
    requires session in Execute(actions).paying
    requires Execute(actions).paying[session].run.status == Funded
    ensures IsAcknowledgeable(Execute(actions).paying[session])
  {
    EveryInterleavingHolds(actions);
  }
}
