/** The orchestrator's walk of one run from whatever status it is resumed at to a
    delivery, and the finalizer's shorter walk to an inconclusive one. */
module Pipeline {
  import opened Wrappers
  import opened RunDomain
  import opened RunStore
  import opened RunSystem
  import opened RunSystemProofs

  datatype Verdict = PassVerdict | FailVerdict | InconclusiveVerdict

  function FinalStatus(verdict: Verdict): Status {
    match verdict
    case PassVerdict => DeliveredPass
    case FailVerdict => DeliveredFail
    case InconclusiveVerdict => DeliveredInconclusive
  }

  /** The run carries the verdict, as its status and as its result. */
  predicate IsDeliveredAs(run: Run, verdict: Verdict) {
    match verdict
    case PassVerdict => run.status == DeliveredPass && run.result == Some(Pass)
    case FailVerdict => run.status == DeliveredFail && run.result == Some(Fail)
    case InconclusiveVerdict => run.status == DeliveredInconclusive && run.result == Some(Inconclusive)
  }

  /** Position in the pipeline's own order of statuses; -1 when it is not there. */
  function Order(status: Status): int {
    match status
    case Funded => 0
    case Analyzing => 1
    case PlanCompiled => 2
    case Procuring => 3
    case Executing => 4
    case EvidenceBuilding => 5
    case Attesting => 6
    case _ => -1
  }

  predicate IsResumable(status: Status) { Order(status) >= 0 }

  predicate IsFinalizable(status: Status) { Order(status) >= 0 || status == Replanning }

  /** The pipeline's steps: 0 to 5 advance the status, step 6 delivers. */
  function Actor(i: nat): RunDomain.Actor {
    match i
    case 0 => Orchestrator
    case 1 => PolicyEngine
    case 2 => ProcurementWorker
    case 3 => ProcurementWorker
    case 4 => ExecutionWorker
    case 5 => EvidenceWorker
    case _ => Attestor
  }

  function Target(i: nat, verdict: Verdict): Status {
    match i
    case 0 => Analyzing
    case 1 => PlanCompiled
    case 2 => Procuring
    case 3 => Executing
    case 4 => EvidenceBuilding
    case 5 => Attesting
    case _ => FinalStatus(verdict)
  }

  /** Skips what the persisted status already reflects; otherwise one transition. */
  function Advance(run: Run, actor: RunDomain.Actor, to: Status, now: int): Result<Transitioned, TransitionError> {
    if Order(to) >= 0 && Order(run.status) >= Order(to) then Ok(Transitioned(run, None))
    else if run.status == to then Ok(Transitioned(run, None))
    else TransitionRun(run, CallerCommand(run, Worker(actor, to), now))
  }

  /** The run after steps `i` and up, reading the clock once per step. */
  function Drive(run: Run, i: nat, verdict: Verdict, clock: seq<int>): Result<Run, TransitionError>
    requires i <= 7 == |clock|
    decreases 7 - i
  {
    if i == 7 then Ok(run)
    else
      var advanced := Advance(run, Actor(i), Target(i, verdict), clock[i]);
      if advanced.Err? then Err(advanced.error) else Drive(advanced.value.run, i + 1, verdict, clock)
  }

  predicate MonotoneFrom(clock: seq<int>, earliest: int) {
    && (forall i :: 0 <= i < |clock| ==> earliest <= clock[i])
    && (forall i, j :: 0 <= i < j < |clock| ==> clock[i] <= clock[j])
  }

  /** None of the keys that the remaining steps will use has been used before. */
  predicate RemainingKeysFresh(run: Run, verdict: Verdict) {
    forall i {:trigger Target(i, verdict)} :: Order(run.status) <= i <= 6 && 0 <= i
      ==> StepKey(run.id, Target(i, verdict)) !in run.appliedKeys
  }

  // ---------------------------------------------------------------- delivery

  /** A step whose key is new and whose actor may take the edge moves the run. */
  lemma StepIsTaken(run: Run, actor: RunDomain.Actor, to: Status, now: int)
    requires run.status != to && !(Order(to) >= 0 && Order(run.status) >= Order(to))
    requires actor in Actors(run.status, to) && run.updatedAt <= now && StepKey(run.id, to) !in run.appliedKeys
    ensures Advance(run, actor, to, now).Ok?
    ensures var next := Advance(run, actor, to, now).value.run;
            && next.id == run.id && next.createdAt == run.createdAt && next.status == to && next.updatedAt == now
            && next.appliedKeys == run.appliedKeys + [StepKey(run.id, to)]
            && (forall verdict :: to == FinalStatus(verdict) ==> IsDeliveredAs(next, verdict))
  {
    StepKeysDistinct(run.id, to, to);
    assert StepKey(run.id, to) == CallerKey(run.id, Worker(actor, to));
  }

  /** A step that the status does not reflect yet either replays a used key or moves
      the run and uses its key. */
  lemma AdvanceDoes(run: Run, actor: RunDomain.Actor, to: Status, now: int)
    requires run.status != to && !(Order(to) >= 0 && Order(run.status) >= Order(to))
    ensures var advanced := Advance(run, actor, to, now);
            advanced.Ok? ==>
              var next := advanced.value.run;
              if StepKey(run.id, to) in run.appliedKeys then next == run
              else
                && next.id == run.id && next.status == to && actor in Actors(run.status, to)
                && forall key :: key in run.appliedKeys ==> key in next.appliedKeys
  {
    assert StepKey(run.id, to) == CallerKey(run.id, Worker(actor, to));
  }

  /** With fresh keys and a clock that does not run backwards, the pipeline takes
      any resumable run to the verdict's delivery, by legal steps only. */
  lemma {:induction false} DriveDelivers(run: Run, i: nat, verdict: Verdict, clock: seq<int>)
    requires i <= 7 == |clock|
    requires IsResumable(run.status) && Order(run.status) >= i
    requires RemainingKeysFresh(run, verdict) && MonotoneFrom(clock, run.createdAt)
    requires forall j :: i <= j < 7 ==> run.updatedAt <= clock[j]
    ensures Drive(run, i, verdict, clock).Ok?
    ensures Drive(run, i, verdict, clock).value.status == FinalStatus(verdict)
    ensures IsDeliveredAs(Drive(run, i, verdict, clock).value, verdict)
    decreases 7 - i
  {
    if Order(run.status) > i {
      DriveDelivers(run, i + 1, verdict, clock);
    } else {
      var to := Target(i, verdict);
      hide Advance, StepKey;
      StepIsTaken(run, Actor(i), to, clock[i]);
      var next := Advance(run, Actor(i), to, clock[i]).value.run;
      if i < 6 {
        forall j | Order(next.status) <= j <= 6 && 0 <= j
          ensures StepKey(next.id, Target(j, verdict)) !in next.appliedKeys
        {
          StepKeysDistinct(run.id, Target(j, verdict), to);
          assert Order(run.status) <= j;
        }
        DriveDelivers(next, i + 1, verdict, clock);
      } else {
        assert Drive(next, 7, verdict, clock) == Ok(next);
      }
    }
  }

  /** A run that a step failed to move is never moved by the later steps: no step's
      actor may skip a status. */
  lemma {:induction false} LaggingNeverMoves(run: Run, i: nat, verdict: Verdict, clock: seq<int>)
    requires i <= 7 == |clock|
    requires IsResumable(run.status) && Order(run.status) < i
    ensures Drive(run, i, verdict, clock).Ok? ==> Drive(run, i, verdict, clock).value == run
    decreases 7 - i
  {
    if i < 7 {
      var advanced := Advance(run, Actor(i), Target(i, verdict), clock[i]);
      assert Actor(i) !in Actors(run.status, Target(i, verdict));
      if advanced.Ok? {
        assert advanced.value.run == run;
        LaggingNeverMoves(run, i + 1, verdict, clock);
      }
    }
  }

  /** A step that uses a new key leaves the reused one ahead. */
  lemma ReusedStaysAhead(run: Run, i: nat, verdict: Verdict, now: int)
    requires i < 7 && Order(run.status) == i && !RemainingKeysFresh(run, verdict)
    requires StepKey(run.id, Target(i, verdict)) !in run.appliedKeys && Advance(run, Actor(i), Target(i, verdict), now).Ok?
    ensures var next := Advance(run, Actor(i), Target(i, verdict), now).value.run;
            IsResumable(next.status) && Order(next.status) >= i + 1 && !RemainingKeysFresh(next, verdict)
  {
    var j :| Order(run.status) <= j <= 6 && 0 <= j && StepKey(run.id, Target(j, verdict)) in run.appliedKeys;
    hide Advance, StepKey;
    AdvanceDoes(run, Actor(i), Target(i, verdict), now);
    var next := Advance(run, Actor(i), Target(i, verdict), now).value.run;
    assert i < j && StepKey(next.id, Target(j, verdict)) in next.appliedKeys;
  }

  /** A reused key leaves the run where it is. */
  lemma ReusedKeyReplays(run: Run, i: nat, verdict: Verdict, now: int)
    requires i < 7 && Order(run.status) == i && StepKey(run.id, Target(i, verdict)) in run.appliedKeys
    ensures var advanced := Advance(run, Actor(i), Target(i, verdict), now); advanced.Ok? ==> advanced.value.run == run
  {
    hide StepKey, TransitionRun;
    AdvanceDoes(run, Actor(i), Target(i, verdict), now);
  }

  lemma ResumableIsUndelivered(status: Status)
    requires IsResumable(status)
    ensures !IsDelivered(status)
  {
  }

  /** The first reused key stops the walk: the step it belongs to is taken for a
      replay, and the run never gets past its status again. */
  lemma {:induction false} ReusedKeyStrands(run: Run, i: nat, verdict: Verdict, clock: seq<int>)
    requires i <= 7 == |clock|
    requires IsResumable(run.status) && Order(run.status) >= i
    requires !RemainingKeysFresh(run, verdict)
    ensures Drive(run, i, verdict, clock).Ok? ==> !IsDelivered(Drive(run, i, verdict, clock).value.status)
    decreases 7 - i
  {
    if Order(run.status) > i {
      ReusedKeyStrands(run, i + 1, verdict, clock);
    } else {
      hide Advance, StepKey, RemainingKeysFresh, Target, Actor, FinalStatus, IsDelivered;
      ResumableIsUndelivered(run.status);
      var advanced := Advance(run, Actor(i), Target(i, verdict), clock[i]);
      if StepKey(run.id, Target(i, verdict)) in run.appliedKeys {
        ReusedKeyReplays(run, i, verdict, clock[i]);
        if advanced.Ok? { LaggingNeverMoves(run, i + 1, verdict, clock); }
      } else if advanced.Ok? {
        ReusedStaysAhead(run, i, verdict, clock[i]);
        ReusedKeyStrands(advanced.value.run, i + 1, verdict, clock);
      }
    }
  }

  /** With a monotone clock the pipeline delivers a resumable run exactly when no
      remaining step's key was used before. */
  lemma DeliversExactlyWhenFresh(run: Run, verdict: Verdict, clock: seq<int>)
    requires |clock| == 7 && IsResumable(run.status)
    requires run.createdAt <= run.updatedAt && MonotoneFrom(clock, run.updatedAt)
    ensures RemainingKeysFresh(run, verdict) <==>
            Drive(run, 0, verdict, clock).Ok? && IsDelivered(Drive(run, 0, verdict, clock).value.status)
    ensures RemainingKeysFresh(run, verdict) ==> Drive(run, 0, verdict, clock).value.status == FinalStatus(verdict)
  {
    if RemainingKeysFresh(run, verdict) {
      DriveDelivers(run, 0, verdict, clock);
    } else {
      ReusedKeyStrands(run, 0, verdict, clock);
    }
  }

  // ---------------------------------------------------------------- every persisted run is fresh

  /** The cycle of procuring, executing and replanning is only entered through
      procuring. */
  lemma {:induction false} EnteredThroughProcuring(id: string, createdAt: int, log: seq<Event>, n: nat)
    requires WellFormedLog(id, createdAt, log) && n < |log| && Level(log[n].to) == 6
    ensures exists m :: 0 <= m <= n && log[m].to == Procuring
  {
    assert LegalAt(id, createdAt, log, n);
    if log[n].to != Procuring {
      assert Level(log[n].from) == 6 && log[n - 1].to == log[n].from;
      EnteredThroughProcuring(id, createdAt, log, n - 1);
    }
  }

  lemma KeysAreDistinct(id: string, createdAt: int, log: seq<Event>, m: nat, n: nat)
    requires WellFormedLog(id, createdAt, log) && m < n < |log|
    ensures log[m].key != log[n].key
  {
    assert LegalAt(id, createdAt, log, n);
    assert Keys(log[..n])[m] == log[..n][m].key;
  }

  /** A key of a step was only ever used to get there, and levels never drop. */
  lemma UsedKeyIsBehind(id: string, createdAt: int, log: seq<Event>, to: Status) returns (n: nat)
    requires WellFormedLog(id, createdAt, log) && KeysFit(id, log)
    requires StepKey(id, to) in Fold(id, createdAt, log).appliedKeys
    ensures n < |log| && log[n].to == to && Level(to) <= Level(Fold(id, createdAt, log).status)
  {
    n :| 0 <= n < |log| && Keys(log)[n] == StepKey(id, to);
    assert KeyFits(id, log[n].key, log[n].to);
    hide WellFormedLog, KeysFit, StepKey;
    EventStaysReached(id, createdAt, log, n);
  }

  /** Whatever happened to a run, replanning included, none of the keys that the
      pipeline still needs was used: going round the cycle twice would take the
      procuring key twice. */
  lemma ResumableRunsAreFresh(id: string, createdAt: int, log: seq<Event>, verdict: Verdict)
    requires WellFormedLog(id, createdAt, log) && KeysFit(id, log)
    requires IsResumable(Fold(id, createdAt, log).status)
    ensures RemainingKeysFresh(Fold(id, createdAt, log), verdict)
  {
    hide WellFormedLog, KeysFit, StepKey;
    var run := Fold(id, createdAt, log);
    forall i | Order(run.status) <= i <= 6 && 0 <= i
      ensures StepKey(id, Target(i, verdict)) !in run.appliedKeys
    {
      var to := Target(i, verdict);
      if StepKey(id, to) in run.appliedKeys {
        var n := UsedKeyIsBehind(id, createdAt, log, to);
        ExecutedRunsDoNotProcure(id, createdAt, log, n);
      }
    }
  }

  lemma ExecutedRunsDoNotProcure(id: string, createdAt: int, log: seq<Event>, n: nat)
    requires WellFormedLog(id, createdAt, log) && KeysFit(id, log) && n < |log|
    requires log[n].to == Executing
    ensures Fold(id, createdAt, log).status != Procuring
  {
    hide WellFormedLog, IsExpiryKey, StepKey;
    if Fold(id, createdAt, log).status == Procuring {
      EnteredThroughProcuring(id, createdAt, log, n);
      var m :| 0 <= m <= n && log[m].to == Procuring;
      var last := |log| - 1;
      assert KeyFits(id, log[m].key, log[m].to) && KeyFits(id, log[last].key, log[last].to);
      KeysAreDistinct(id, createdAt, log, m, last);
    }
  }

  lemma UpdatedAfterCreated(id: string, createdAt: int, log: seq<Event>)
    requires WellFormedLog(id, createdAt, log)
    ensures createdAt <= Fold(id, createdAt, log).updatedAt
  {
    LevelNeverDrops(id, createdAt, log, 0);
  }

  /** Delivery without further conditions: in every state that the writers can
      reach, the pipeline takes every run it accepts to the delivery of its
      verdict, if only the clock does not run backwards. */
  lemma EveryResumableRunIsDelivered(actions: seq<Action>, id: string, verdict: Verdict, clock: seq<int>)
    requires id in Execute(actions).db.runs
    requires Execute(actions).db.runs[id].status in
             {Funded, Analyzing, PlanCompiled, Procuring, Executing, EvidenceBuilding, Attesting}
    requires |clock| == 7 && MonotoneFrom(clock, Execute(actions).db.runs[id].updatedAt)
    ensures Known(Execute(actions).db, id)
    ensures var driven := Drive(LoadRun(Execute(actions).db, id), 0, verdict, clock);
            driven.Ok? && driven.value.status == FinalStatus(verdict) && IsDeliveredAs(driven.value, verdict)
  {
    EveryInterleavingHolds(actions);
    StoredRunIsDelivered(Execute(actions).db, id, verdict, clock);
  }

  lemma StoredRunIsDelivered(db: Db, id: string, verdict: Verdict, clock: seq<int>)
    requires DbHolds(db) && Known(db, id) && IsResumable(db.runs[id].status)
    requires |clock| == 7 && MonotoneFrom(clock, db.runs[id].updatedAt)
    ensures var driven := Drive(LoadRun(db, id), 0, verdict, clock);
            driven.Ok? && driven.value.status == FinalStatus(verdict) && IsDeliveredAs(driven.value, verdict)
  {
    assert RunHolds(db, id);
    ResumableRunsAreFresh(id, db.runs[id].createdAt, db.events[id], verdict);
    UpdatedAfterCreated(id, db.runs[id].createdAt, db.events[id]);
    DriveDelivers(LoadRun(db, id), 0, verdict, clock);
  }

  // ---------------------------------------------------------------- the finalizer

  /** The finalizer's four steps; only a merely funded run takes the first. */
  function FinalizerActor(i: nat): RunDomain.Actor {
    match i
    case 0 => Orchestrator
    case 1 => System
    case 2 => EvidenceWorker
    case _ => Attestor
  }

  function FinalizerTarget(i: nat): Status {
    match i
    case 0 => Analyzing
    case 1 => EvidenceBuilding
    case 2 => Attesting
    case _ => DeliveredInconclusive
  }

  /** Whether step `i` still has to move a run at this status. */
  predicate IsPending(i: nat, status: Status) {
    if i == 0 then status == Funded
    else if i < 3 then Order(status) < Order(FinalizerTarget(i))
    else status != DeliveredInconclusive
  }

  function Finalize(run: Run, i: nat, clock: seq<int>): Result<Run, TransitionError>
    requires i <= 4 == |clock|
    decreases 4 - i
  {
    if i == 4 then Ok(run)
    else
      var advanced := if IsPending(i, run.status)
                      then Advance(run, FinalizerActor(i), FinalizerTarget(i), clock[i])
                      else Ok(Transitioned(run, None));
      if advanced.Err? then Err(advanced.error) else Finalize(advanced.value.run, i + 1, clock)
  }

  predicate FinalizerKeysFresh(run: Run, i: nat) {
    forall j {:trigger FinalizerTarget(j)} :: i <= j < 4 && IsPending(j, run.status)
      ==> StepKey(run.id, FinalizerTarget(j)) !in run.appliedKeys
  }

  /** Where a run may stand before step `i`. */
  predicate IsAtStep(i: nat, status: Status) {
    match i
    case 0 => IsFinalizable(status)
    case 1 => IsFinalizable(status) && status != Funded
    case 2 => status in {EvidenceBuilding, Attesting}
    case _ => status == Attesting
  }

  /** A paid run that can no longer progress is delivered as inconclusive from any
      status, replanning included, when its remaining keys are fresh. */
  lemma {:induction false} FinalizeDelivers(run: Run, i: nat, clock: seq<int>)
    requires i < 4 == |clock| && IsAtStep(i, run.status)
    requires FinalizerKeysFresh(run, i)
    requires MonotoneFrom(clock, run.createdAt) && forall j :: i <= j < 4 ==> run.updatedAt <= clock[j]
    ensures Finalize(run, i, clock).Ok? && Finalize(run, i, clock).value.status == DeliveredInconclusive
    ensures Finalize(run, i, clock).value.result == Some(Inconclusive)
    decreases 4 - i
  {
    var to := FinalizerTarget(i);
    hide Advance, StepKey;
    if IsPending(i, run.status) {
      StepIsTaken(run, FinalizerActor(i), to, clock[i]);
      var next := Advance(run, FinalizerActor(i), to, clock[i]).value.run;
      assert next.status == to;
      if i < 3 {
        forall j | i + 1 <= j < 4 && IsPending(j, next.status)
          ensures StepKey(next.id, FinalizerTarget(j)) !in next.appliedKeys
        {
          StepKeysDistinct(run.id, FinalizerTarget(j), to);
          assert IsPending(j, run.status);
        }
        FinalizeDelivers(next, i + 1, clock);
      } else {
        assert to == FinalStatus(InconclusiveVerdict) && IsDeliveredAs(next, InconclusiveVerdict);
        assert Finalize(next, 4, clock) == Ok(next);
      }
    } else {
      FinalizeDelivers(run, i + 1, clock);
    }
  }

  /** A run whose pending step was taken for a replay is not moved by later ones. */
  lemma {:induction false} FinalizerLaggingNeverMoves(run: Run, i: nat, clock: seq<int>)
    requires 1 <= i <= 4 == |clock| && IsFinalizable(run.status) && IsPending(i - 1, run.status)
    ensures Finalize(run, i, clock).Ok? ==> Finalize(run, i, clock).value == run
    decreases 4 - i
  {
    if i < 4 {
      assert FinalizerActor(i) !in Actors(run.status, FinalizerTarget(i));
      assert IsPending(i, run.status);
      var advanced := Advance(run, FinalizerActor(i), FinalizerTarget(i), clock[i]);
      if advanced.Ok? {
        assert advanced.value.run == run;
        FinalizerLaggingNeverMoves(run, i + 1, clock);
      }
    }
  }

  lemma {:induction false} FinalizerReusedKeyStrands(run: Run, i: nat, clock: seq<int>)
    requires i < 4 == |clock| && IsAtStep(i, run.status)
    requires !FinalizerKeysFresh(run, i)
    ensures Finalize(run, i, clock).Ok? ==> !IsDelivered(Finalize(run, i, clock).value.status)
    decreases 4 - i
  {
    var j :| i <= j < 4 && IsPending(j, run.status) && StepKey(run.id, FinalizerTarget(j)) in run.appliedKeys;
    hide Advance, StepKey;
    if !IsPending(i, run.status) {
      FinalizerReusedKeyStrands(run, i + 1, clock);
    } else {
      AdvanceDoes(run, FinalizerActor(i), FinalizerTarget(i), clock[i]);
      var advanced := Advance(run, FinalizerActor(i), FinalizerTarget(i), clock[i]);
      if advanced.Ok? {
        var next := advanced.value.run;
        if StepKey(run.id, FinalizerTarget(i)) in run.appliedKeys {
          FinalizerLaggingNeverMoves(run, i + 1, clock);
        } else {
          assert StepKey(next.id, FinalizerTarget(j)) in next.appliedKeys && IsPending(j, next.status);
          FinalizerReusedKeyStrands(next, i + 1, clock);
        }
      }
    }
  }

  /** The finalizer delivers a run exactly when its remaining keys are fresh. */
  lemma FinalizesExactlyWhenFresh(run: Run, clock: seq<int>)
    requires |clock| == 4 && IsFinalizable(run.status)
    requires run.createdAt <= run.updatedAt && MonotoneFrom(clock, run.updatedAt)
    ensures FinalizerKeysFresh(run, 0) <==>
            Finalize(run, 0, clock).Ok? && IsDelivered(Finalize(run, 0, clock).value.status)
    ensures FinalizerKeysFresh(run, 0) ==> Finalize(run, 0, clock).value.status == DeliveredInconclusive
  {
    if FinalizerKeysFresh(run, 0) {
      FinalizeDelivers(run, 0, clock);
    } else {
      FinalizerReusedKeyStrands(run, 0, clock);
    }
  }

  /** A paid run that the finalizer accepts has fresh keys, from wherever it was
      left, and so is always delivered as inconclusive. */
  lemma FinalizableRunsAreFresh(id: string, createdAt: int, log: seq<Event>)
    requires WellFormedLog(id, createdAt, log) && KeysFit(id, log)
    requires IsFinalizable(Fold(id, createdAt, log).status)
    ensures FinalizerKeysFresh(Fold(id, createdAt, log), 0)
  {
    hide WellFormedLog, KeysFit, StepKey;
    var run := Fold(id, createdAt, log);
    forall j | 0 <= j < 4 && IsPending(j, run.status)
      ensures StepKey(id, FinalizerTarget(j)) !in run.appliedKeys
    {
      if StepKey(id, FinalizerTarget(j)) in run.appliedKeys {
        var n := UsedKeyIsBehind(id, createdAt, log, FinalizerTarget(j));
      }
    }
  }

  lemma EveryFinalizableRunIsDelivered(actions: seq<Action>, id: string, clock: seq<int>)
    requires id in Execute(actions).db.runs
    requires Execute(actions).db.runs[id].status in
             {Funded, Analyzing, PlanCompiled, Procuring, Executing, Replanning, EvidenceBuilding, Attesting}
    requires |clock| == 4 && MonotoneFrom(clock, Execute(actions).db.runs[id].updatedAt)
    ensures Known(Execute(actions).db, id)
    ensures var finalized := Finalize(LoadRun(Execute(actions).db, id), 0, clock);
            && finalized.Ok? && finalized.value.status == DeliveredInconclusive
            && finalized.value.result == Some(Inconclusive)
  {
    EveryInterleavingHolds(actions);
    var db := Execute(actions).db;
    assert RunHolds(db, id);
    hide DbHolds, Execute, KeysFit, WellFormedLog, Finalize;
    FinalizableRunsAreFresh(id, db.runs[id].createdAt, db.events[id]);
    UpdatedAfterCreated(id, db.runs[id].createdAt, db.events[id]);
    FinalizeDelivers(LoadRun(db, id), 0, clock);
  }

  // ---------------------------------------------------------------- against the store

  datatype PipelineError = RunNotFound | RunNotReady | Illegal(error: TransitionError)

  lemma AdvanceDecides(run: Run, actor: RunDomain.Actor, to: Status, now: int)
    requires Advance(run, actor, to, now).Ok?
    ensures var advanced := Advance(run, actor, to, now).value;
            && (advanced.event.Some? ==> Ok(advanced) == TransitionRun(run, CallerCommand(run, Worker(actor, to), now)))
            && CallerCommand(run, Worker(actor, to), now).to == to
            && CallerCommand(run, Worker(actor, to), now).key == CallerKey(run.id, Worker(actor, to))
            && advanced.run.id == run.id
            && if advanced.event.None? then advanced.run == run else advanced.run.revision == run.revision + 1
  {
  }

  /** A step decided on the stored aggregate is one that the store accepts. */
  lemma AdvanceCommits(db: Db, run: Run, actor: RunDomain.Actor, to: Status, now: int)
    requires DbHolds(db) && Known(db, run.id) && LoadRun(db, run.id) == run && to != Funded
    requires Advance(run, actor, to, now).Ok?
    ensures Advance(run, actor, to, now).value.run.id == run.id
    ensures var advanced := Advance(run, actor, to, now).value;
            if advanced.event.None? then advanced.run == run
            else
              && advanced.run.revision >= 1
              && IsStored(SaveResult(db, advanced.run, advanced.event.value, advanced.run.revision - 1), advanced.run)
  {
    AdvanceDecides(run, actor, to, now);
    hide DbHolds, SaveResult, Advance, TransitionRun, CallerCommand, KeyFits, CallerKey, Fold;
    var advanced := Advance(run, actor, to, now).value;
    if advanced.event.Some? {
      LoadIsSnapshot(db, run.id);
      CallerKeyFits(run.id, Worker(actor, to));
      SaveHolds(db, run, CallerCommand(run, Worker(actor, to), now), advanced.run, advanced.event.value);
    }
  }

  ghost predicate IsStored(saved: Result<Db, StoreError>, run: Run) {
    saved.Ok? && DbHolds(saved.value) && Known(saved.value, run.id) && LoadRun(saved.value, run.id) == run
  }

  /** One `advance`: decide on the local aggregate, then save it behind its own
      revision. */
  method AdvanceAndSave(store: PostgresStore, run: Run, actor: RunDomain.Actor, to: Status, now: int)
    returns (next: Result<Run, PipelineError>)
    requires DbHolds(store.View()) && Known(store.View(), run.id) && LoadRun(store.View(), run.id) == run
    requires to != Funded
    modifies store
    ensures DbHolds(store.View())
    ensures var advanced := Advance(run, actor, to, now);
            if advanced.Err? then next == Err(Illegal(advanced.error)) && store.View() == old(store.View())
            else
              && next == Ok(advanced.value.run) && advanced.value.run.id == run.id
              && Known(store.View(), advanced.value.run.id)
              && LoadRun(store.View(), advanced.value.run.id) == advanced.value.run
  {
    hide DbHolds, SaveResult, Advance, LoadRun;
    var advanced := Advance(run, actor, to, now);
    if advanced.Err? { return Err(Illegal(advanced.error)); }
    AdvanceCommits(store.View(), run, actor, to, now);
    next := Ok(advanced.value.run);
    if advanced.value.event.Some? {
      // The aggregate is the stored one, so the save is never refused.
      var _ := store.Save(advanced.value.run, advanced.value.event.value, advanced.value.run.revision - 1);
    }
  }

  /** The whole pipeline against the store: what it persists is what `Drive`
      computes, one saved transition at a time, so with a clock that does not run
      backwards it delivers every run it accepts. */
  method RunOrchestratorPipeline(store: PostgresStore, id: string, verdict: Verdict, clock: seq<int>)
    returns (outcome: Result<Status, PipelineError>)
    requires |clock| == 7 && DbHolds(store.View())
    modifies store
    ensures DbHolds(store.View())
    ensures !Known(old(store.View()), id) ==> outcome == Err(RunNotFound) && store.View() == old(store.View())
    ensures Known(old(store.View()), id) ==>
              var run := LoadRun(old(store.View()), id);
              Known(store.View(), id) &&
              if run.status !in {Funded, Analyzing, PlanCompiled, Procuring, Executing, EvidenceBuilding, Attesting}
              then outcome == Err(RunNotReady) && store.View() == old(store.View())
              else
                && (MonotoneFrom(clock, run.updatedAt) ==>
                      outcome == Ok(FinalStatus(verdict)) && IsDeliveredAs(LoadRun(store.View(), id), verdict))
                && match Drive(run, 0, verdict, clock)
                   case Err(error) => outcome == Err(Illegal(error))
                   case Ok(driven) => outcome == Ok(FinalStatus(verdict)) && LoadRun(store.View(), id) == driven
  {
    if id !in store.runs || id !in store.events { return Err(RunNotFound); }
    var run := LoadRun(store.View(), id);
    if !IsResumable(run.status) { return Err(RunNotReady); }
    if MonotoneFrom(clock, run.updatedAt) {
      StoredRunIsDelivered(store.View(), id, verdict, clock);
    }
    outcome := DriveAndSave(store, run, verdict, clock);
  }

  method DriveAndSave(store: PostgresStore, run: Run, verdict: Verdict, clock: seq<int>)
    returns (outcome: Result<Status, PipelineError>)
    requires |clock| == 7 && DbHolds(store.View()) && Known(store.View(), run.id) && LoadRun(store.View(), run.id) == run
    modifies store
    ensures DbHolds(store.View()) && Known(store.View(), run.id)
    ensures match Drive(run, 0, verdict, clock)
            case Err(error) => outcome == Err(Illegal(error))
            case Ok(driven) => outcome == Ok(FinalStatus(verdict)) && LoadRun(store.View(), run.id) == driven
  {
    hide DbHolds, Advance, LegalAt;
    var current := run;
    for i := 0 to 7
      invariant DbHolds(store.View()) && current.id == run.id
      invariant Known(store.View(), run.id) && LoadRun(store.View(), run.id) == current
      invariant Drive(current, i, verdict, clock) == Drive(run, 0, verdict, clock)
    {
      var advanced := AdvanceAndSave(store, current, Actor(i), Target(i, verdict), clock[i]);
      if advanced.Err? { return Err(advanced.error); }
      current := advanced.value;
    }
    return Ok(FinalStatus(verdict));
  }
}
