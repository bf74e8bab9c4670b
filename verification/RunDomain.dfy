/** The run aggregate: a guarded state machine whose every accepted command
    yields the next aggregate and exactly one event. */
module RunDomain {
  import opened Wrappers

  datatype Status =
    | Draft | Quoted | PaymentRequired | Funded | Analyzing | PlanCompiled | Procuring | Executing
    | Replanning | EvidenceBuilding | Attesting
    | DeliveredPass | DeliveredConditional | DeliveredFail | DeliveredInconclusive
    | Cancelled | Expired

  datatype RunResult = Pass | Conditional | Fail | Inconclusive

  datatype Actor =
    | Requester | QuoteEngine | MerchantGateway | PaymentReconciler | Orchestrator | PolicyEngine
    | ProcurementWorker | ExecutionWorker | EvidenceWorker | Attestor | System

  /** Instants are milliseconds, as `Date.parse` reads them. */
  datatype Run = Run(
    id: string,
    status: Status,
    result: Option<RunResult>,
    revision: nat,
    createdAt: int,
    updatedAt: int,
    appliedKeys: seq<string>)

  /** `occurredAt` is None when the command's date does not parse. */
  datatype Command = Command(
    actor: Actor,
    expectedRevision: nat,
    key: string,
    occurredAt: Option<int>,
    to: Status)

  datatype Event = Event(
    runId: string,
    from: Status,
    to: Status,
    actor: Actor,
    revision: nat,
    key: string,
    occurredAt: int)

  /** `event` is None on an idempotent replay. */
  datatype Transitioned = Transitioned(run: Run, event: Option<Event>)

  datatype TransitionError = IllegalTransition | RevisionConflict | InvalidDate | MissingId

  /** The transition table: who may take the edge. No edge means no actor. */
  function Actors(from: Status, to: Status): set<Actor> {
    match (from, to)
    case (Draft, Quoted) => {QuoteEngine}
    case (Quoted, PaymentRequired) => {MerchantGateway}
    case (PaymentRequired, Funded) => {PaymentReconciler}
    case (Draft, Cancelled) => {Requester, System}
    case (Quoted, Cancelled) => {Requester, System}
    case (PaymentRequired, Cancelled) => {Requester, System}
    case (Draft, Expired) => {System}
    case (Quoted, Expired) => {System}
    case (PaymentRequired, Expired) => {System}
    case (Funded, Analyzing) => {Orchestrator}
    case (Analyzing, PlanCompiled) => {PolicyEngine}
    case (Analyzing, EvidenceBuilding) => {Orchestrator, System}
    case (PlanCompiled, Procuring) => {ProcurementWorker}
    case (PlanCompiled, EvidenceBuilding) => {PolicyEngine, System}
    case (Procuring, Executing) => {ProcurementWorker, ExecutionWorker}
    case (Procuring, Replanning) => {Orchestrator}
    case (Procuring, EvidenceBuilding) => {ProcurementWorker, System}
    case (Executing, Replanning) => {Orchestrator}
    case (Executing, EvidenceBuilding) => {ExecutionWorker, System}
    case (Replanning, Procuring) => {PolicyEngine, ProcurementWorker}
    case (Replanning, Executing) => {PolicyEngine, ExecutionWorker}
    case (Replanning, EvidenceBuilding) => {Orchestrator, System}
    case (EvidenceBuilding, Attesting) => {EvidenceWorker}
    case (Attesting, DeliveredPass) => {Attestor}
    case (Attesting, DeliveredConditional) => {Attestor}
    case (Attesting, DeliveredFail) => {Attestor}
    case (Attesting, DeliveredInconclusive) => {Attestor}
    case _ => {}
  }

  function ResultFor(status: Status): Option<RunResult> {
    match status
    case DeliveredPass => Some(Pass)
    case DeliveredConditional => Some(Conditional)
    case DeliveredFail => Some(Fail)
    case DeliveredInconclusive => Some(Inconclusive)
    case _ => None
  }

  predicate IsTerminal(status: Status) {
    status in {DeliveredPass, DeliveredConditional, DeliveredFail, DeliveredInconclusive, Cancelled, Expired}
  }

  function CreateDraft(id: string, now: Option<int>): (draft: Result<Run, TransitionError>)
    ensures draft.Ok? <==> id != "" && now.Some?
    ensures draft == Err(MissingId) <==> id == ""
    ensures draft.Ok? ==>
              && draft.value.id == id && draft.value.status == Draft && draft.value.result.None?
              && draft.value.revision == 0 && draft.value.createdAt == draft.value.updatedAt == now.value
              && draft.value.appliedKeys == []
  {
    if |id| == 0 then Err(MissingId)
    else if now.None? then Err(InvalidDate)
    else Ok(DraftRun(id, now.value))
  }

  function DraftRun(id: string, createdAt: int): Run {
    Run(id, Draft, None, 0, createdAt, createdAt, [])
  }

  /** The checks come in the order in which the system makes them. */
  function TransitionRun(run: Run, command: Command): Result<Transitioned, TransitionError> {
    if command.key in run.appliedKeys then Ok(Transitioned(run, None))
    else if |command.key| < 8 then Err(IllegalTransition)
    else if run.revision != command.expectedRevision then Err(RevisionConflict)
    else if command.occurredAt.None? then Err(InvalidDate)
    else if command.occurredAt.value < run.updatedAt then Err(IllegalTransition)
    else if command.actor !in Actors(run.status, command.to) then Err(IllegalTransition)
    else
      var event := Event(run.id, run.status, command.to, command.actor, run.revision + 1, command.key,
                         command.occurredAt.value);
      var result := ResultFor(command.to);
      Ok(Transitioned(
           run.(status := command.to,
                result := if result.None? then run.result else result,
                revision := run.revision + 1,
                updatedAt := command.occurredAt.value,
                appliedKeys := run.appliedKeys + [command.key]),
           Some(event)))
  }

  /** The edges by who takes them. */
  predicate MayTake(actor: Actor, from: Status, to: Status) {
    match actor
    case Requester => to == Cancelled && from in {Draft, Quoted, PaymentRequired}
    case QuoteEngine => from == Draft && to == Quoted
    case MerchantGateway => from == Quoted && to == PaymentRequired
    case PaymentReconciler => from == PaymentRequired && to == Funded
    case Orchestrator =>
      || (from == Funded && to == Analyzing)
      || (from in {Procuring, Executing} && to == Replanning)
      || (from in {Analyzing, Replanning} && to == EvidenceBuilding)
    case PolicyEngine =>
      || (from == Analyzing && to == PlanCompiled)
      || (from == PlanCompiled && to == EvidenceBuilding)
      || (from == Replanning && to in {Procuring, Executing})
    case ProcurementWorker =>
      || (from in {PlanCompiled, Replanning} && to == Procuring)
      || (from == Procuring && to in {Executing, EvidenceBuilding})
    case ExecutionWorker => (from in {Procuring, Replanning} && to == Executing) || (from == Executing && to == EvidenceBuilding)
    case EvidenceWorker => from == EvidenceBuilding && to == Attesting
    case Attestor =>
      from == Attesting && to in {DeliveredPass, DeliveredConditional, DeliveredFail, DeliveredInconclusive}
    case System =>
      || (from in {Draft, Quoted, PaymentRequired} && to in {Cancelled, Expired})
      || (from in {Analyzing, PlanCompiled, Procuring, Executing, Replanning} && to == EvidenceBuilding)
  }

  lemma TableIsByActor(from: Status, to: Status)
    ensures forall actor :: actor in Actors(from, to) <==> MayTake(actor, from, to)
  {
  }

  /** A command moves the run exactly when its key is new and long enough, it names
      the run's revision, it is dated no earlier than the last change, and its actor
      may take the edge. Only a command for another revision is a conflict. */
  lemma MovesExactlyWhen(run: Run, command: Command)
    ensures var outcome := TransitionRun(run, command);
            && (outcome == Ok(Transitioned(run, None)) <==> command.key in run.appliedKeys)
            && (outcome.Ok? && outcome.value.event.Some? <==>
                  && command.key !in run.appliedKeys && |command.key| >= 8
                  && command.expectedRevision == run.revision
                  && command.occurredAt.Some? && run.updatedAt <= command.occurredAt.value
                  && MayTake(command.actor, run.status, command.to))
            && (outcome == Err(RevisionConflict) <==>
                  command.key !in run.appliedKeys && |command.key| >= 8 && command.expectedRevision != run.revision)
            && (outcome.Ok? && outcome.value.event.Some? ==>
                  && outcome.value.run.status == command.to
                  && outcome.value.run.revision == command.expectedRevision + 1
                  && outcome.value.run.updatedAt == command.occurredAt.value
                  && outcome.value.run.appliedKeys == run.appliedKeys + [command.key]
                  && outcome.value.run.id == run.id && outcome.value.run.createdAt == run.createdAt)
  {
    hide MayTake, Actors;
    TableIsByActor(run.status, command.to);
  }

  // ---------------------------------------------------------------- event logs

  function Last(log: seq<Event>): Event
    requires log != []
  {
    log[|log| - 1]
  }

  function Keys(log: seq<Event>): (keys: seq<string>)
    ensures |keys| == |log|
    ensures forall i :: 0 <= i < |log| ==> keys[i] == log[i].key
  {
    seq(|log|, i requires 0 <= i < |log| => log[i].key)
  }

  /** The aggregate that a log describes, read off its last event only. */
  function Fold(id: string, createdAt: int, log: seq<Event>): Run {
    if log == [] then DraftRun(id, createdAt)
    else
      Run(id, Last(log).to, ResultFor(Last(log).to), |log|, createdAt, Last(log).occurredAt, Keys(log))
  }

  /** Event `e` is a legal continuation of the history that folds to `run`. */
  predicate Continues(run: Run, e: Event) {
    && e.runId == run.id
    && e.from == run.status
    && e.actor in Actors(e.from, e.to)
    && e.revision == run.revision + 1
    && e.key !in run.appliedKeys
    && |e.key| >= 8
    && run.updatedAt <= e.occurredAt
  }

  /** Revisions count up from one, times never decrease, keys are distinct and
      every edge is one its actor may take. */
  ghost predicate WellFormedLog(id: string, createdAt: int, log: seq<Event>) {
    forall i {:trigger LegalAt(id, createdAt, log, i)} :: 0 <= i < |log| ==> LegalAt(id, createdAt, log, i)
  }

  /** Event `i` continues the history before it. */
  ghost predicate LegalAt(id: string, createdAt: int, log: seq<Event>, i: nat)
    requires i < |log|
  {
    Continues(Fold(id, createdAt, log[..i]), log[i])
  }

  lemma ExtendLog(id: string, createdAt: int, log: seq<Event>, e: Event)
    requires WellFormedLog(id, createdAt, log)
    requires Continues(Fold(id, createdAt, log), e)
    ensures WellFormedLog(id, createdAt, log + [e])
  {
    forall i | 0 <= i < |log + [e]| ensures LegalAt(id, createdAt, log + [e], i) {
      if i < |log| {
        assert LegalAt(id, createdAt, log, i);
        assert (log + [e])[..i] == log[..i];
      } else {
        assert (log + [e])[..i] == log;
      }
    }
  }

  /** An accepted command appends one legal event, and the new aggregate is the
      fold of the extended log: events are a complete account of the aggregate. */
  lemma TransitionExtendsLog(id: string, createdAt: int, log: seq<Event>, command: Command)
    requires WellFormedLog(id, createdAt, log)
    ensures var outcome := TransitionRun(Fold(id, createdAt, log), command);
            outcome.Ok? && outcome.value.event.Some? ==>
              && WellFormedLog(id, createdAt, log + [outcome.value.event.value])
              && outcome.value.run == Fold(id, createdAt, log + [outcome.value.event.value])
  {
    var run := Fold(id, createdAt, log);
    var outcome := TransitionRun(run, command);
    if outcome.Ok? && outcome.value.event.Some? {
      var e := outcome.value.event.value;
      ExtendLog(id, createdAt, log, e);
      assert Keys(log + [e]) == Keys(log) + [e.key];
      StatusKnowsResult(id, createdAt, log);
    }
  }

  function CommandOf(e: Event): Command
    requires e.revision > 0
  {
    Command(e.actor, e.revision - 1, e.key, Some(e.occurredAt), e.to)
  }

  /** Every well-formed log is an execution of the sequential machine: each of
      its events is what the machine emits for the event's own command. */
  lemma LogIsExecution(id: string, createdAt: int, log: seq<Event>, i: nat)
    requires WellFormedLog(id, createdAt, log)
    requires i < |log|
    ensures log[i].revision == i + 1
    ensures TransitionRun(Fold(id, createdAt, log[..i]), CommandOf(log[i]))
         == Ok(Transitioned(Fold(id, createdAt, log[..i + 1]), Some(log[i])))
  {
    assert LegalAt(id, createdAt, log, i);
    PrefixWellFormed(id, createdAt, log, i);
    TransitionExtendsLog(id, createdAt, log[..i], CommandOf(log[i]));
    assert log[..i + 1] == log[..i] + [log[i]];
  }

  /** The result column is set exactly on delivered runs. */
  lemma StatusKnowsResult(id: string, createdAt: int, log: seq<Event>)
    ensures Fold(id, createdAt, log).result == ResultFor(Fold(id, createdAt, log).status)
    ensures !IsTerminal(Fold(id, createdAt, log).status) ==> Fold(id, createdAt, log).result.None?
  {
  }

  /** A run's result is the verdict it was delivered with, and there is none unless
      it was delivered. */
  lemma ResultIsTheVerdict(id: string, createdAt: int, log: seq<Event>)
    requires WellFormedLog(id, createdAt, log)
    ensures var run := Fold(id, createdAt, log);
            && (run.result == Some(Pass) <==> run.status == DeliveredPass)
            && (run.result == Some(Conditional) <==> run.status == DeliveredConditional)
            && (run.result == Some(Fail) <==> run.status == DeliveredFail)
            && (run.result == Some(Inconclusive) <==> run.status == DeliveredInconclusive)
  {
    StatusKnowsResult(id, createdAt, log);
  }

  /** Terminal statuses are absorbing: past them only a replay is accepted. */
  lemma TerminalIsAbsorbing(run: Run, command: Command)
    requires IsTerminal(run.status)
    ensures var outcome := TransitionRun(run, command);
            outcome.Ok? ==> outcome.value == Transitioned(run, None)
  {
  }

  // ---------------------------------------------------------------- the shape of every history

  /** How far along the delivery path a status lies. Procuring, Executing and
      Replanning share a level because they form a cycle. */
  function Level(status: Status): nat {
    match status
    case Draft => 0
    case Quoted => 1
    case PaymentRequired => 2
    case Funded => 3
    case Analyzing => 4
    case PlanCompiled => 5
    case Procuring => 6
    case Executing => 6
    case Replanning => 6
    case EvidenceBuilding => 7
    case Attesting => 8
    case Cancelled => 10
    case Expired => 10
    case _ => 9
  }

  predicate IsMilestone(status: Status) {
    status in {Funded, Analyzing, EvidenceBuilding, Attesting}
  }

  predicate IsAbandoned(status: Status) {
    status in {Cancelled, Expired}
  }

  predicate IsPaid(status: Status) {
    3 <= Level(status) <= 9
  }

  predicate IsDelivered(status: Status) {
    Level(status) == 9
  }

  function Visits(log: seq<Event>, status: Status): nat {
    if log == [] then 0
    else Visits(log[..|log| - 1], status) + (if Last(log).to == status then 1 else 0)
  }

  lemma EdgesClimb(from: Status, to: Status)
    requires Actors(from, to) != {}
    ensures Level(from) < Level(to) || Level(from) == Level(to) == 6
    ensures !IsTerminal(from)
    ensures IsAbandoned(to) ==> Level(from) <= 2
    ensures IsPaid(to) && to != Funded ==> IsPaid(from)
    ensures IsDelivered(to) ==> from == Attesting
  {
  }

  /** Each milestone has been visited exactly once if the current status lies at
      or past it on the delivery path, and never otherwise. */
  lemma {:induction false} MilestoneVisits(id: string, createdAt: int, log: seq<Event>, milestone: Status)
    requires WellFormedLog(id, createdAt, log)
    requires IsMilestone(milestone)
    ensures var status := Fold(id, createdAt, log).status;
            Visits(log, milestone) == if Level(milestone) <= Level(status) <= 9 then 1 else 0
  {
    if log != [] {
      var init := log[..|log| - 1];
      PrefixWellFormed(id, createdAt, log, |init|);
      MilestoneVisits(id, createdAt, init, milestone);
      assert LegalAt(id, createdAt, log, |init|);
      EdgesClimb(Last(log).from, Last(log).to);
    }
  }

  lemma {:induction false} AbandonedVisits(id: string, createdAt: int, log: seq<Event>, abandoned: Status)
    requires WellFormedLog(id, createdAt, log)
    requires IsAbandoned(abandoned)
    ensures Visits(log, abandoned) == if Fold(id, createdAt, log).status == abandoned then 1 else 0
  {
    if log != [] {
      var init := log[..|log| - 1];
      PrefixWellFormed(id, createdAt, log, |init|);
      AbandonedVisits(id, createdAt, init, abandoned);
      assert LegalAt(id, createdAt, log, |init|);
      EdgesClimb(Last(log).from, Last(log).to);
    }
  }

  lemma PrefixWellFormed(id: string, createdAt: int, log: seq<Event>, n: nat)
    requires WellFormedLog(id, createdAt, log)
    requires n <= |log|
    ensures WellFormedLog(id, createdAt, log[..n])
  {
    forall i | 0 <= i < n ensures LegalAt(id, createdAt, log[..n], i) {
      assert LegalAt(id, createdAt, log, i);
      assert log[..n][..i] == log[..i];
    }
  }

  /** Whatever detours a run takes through replanning, a delivered run was
      funded, analysed, evidenced and attested exactly once, and was never
      cancelled or expired. */
  lemma DeliveredHistory(id: string, createdAt: int, log: seq<Event>)
    requires WellFormedLog(id, createdAt, log)
    requires IsDelivered(Fold(id, createdAt, log).status)
    ensures Visits(log, Funded) == Visits(log, Analyzing) == 1
    ensures Visits(log, EvidenceBuilding) == Visits(log, Attesting) == 1
    ensures Visits(log, Cancelled) == Visits(log, Expired) == 0
  {
    MilestoneVisits(id, createdAt, log, Funded);
    MilestoneVisits(id, createdAt, log, Analyzing);
    MilestoneVisits(id, createdAt, log, EvidenceBuilding);
    MilestoneVisits(id, createdAt, log, Attesting);
    AbandonedVisits(id, createdAt, log, Cancelled);
    AbandonedVisits(id, createdAt, log, Expired);
  }

  /** After funding, neither cancellation nor silent expiry is possible: no log
      ever holds a funding event and an abandoning one. */
  lemma FundedNeverAbandoned(id: string, createdAt: int, log: seq<Event>, abandoned: Status)
    requires WellFormedLog(id, createdAt, log)
    requires IsAbandoned(abandoned)
    ensures Visits(log, Funded) == 0 || Visits(log, abandoned) == 0
  {
    MilestoneVisits(id, createdAt, log, Funded);
    AbandonedVisits(id, createdAt, log, abandoned);
  }

  /** Statuses are never revisited going backwards: a longer history of the same
      run is at least as far along. */
  lemma {:induction false} LevelNeverDrops(id: string, createdAt: int, log: seq<Event>, n: nat)
    requires WellFormedLog(id, createdAt, log)
    requires n <= |log|
    ensures Level(Fold(id, createdAt, log[..n]).status) <= Level(Fold(id, createdAt, log).status)
    ensures Fold(id, createdAt, log[..n]).updatedAt <= Fold(id, createdAt, log).updatedAt
    ensures IsTerminal(Fold(id, createdAt, log[..n]).status) ==> n == |log|
  {
    if n < |log| {
      var init := log[..|log| - 1];
      PrefixWellFormed(id, createdAt, log, |init|);
      LevelNeverDrops(id, createdAt, init, n);
      assert init[..n] == log[..n];
      assert LegalAt(id, createdAt, log, |init|);
      EdgesClimb(Last(log).from, Last(log).to);
    } else {
      assert log[..n] == log;
    }
  }

  /** A visit is an event: counting and membership agree. */
  lemma {:induction false} VisitedSomewhere(log: seq<Event>, status: Status)
    ensures Visits(log, status) > 0 <==> exists i :: 0 <= i < |log| && log[i].to == status
  {
    if log != [] {
      var init := log[..|log| - 1];
      VisitedSomewhere(init, status);
      if i :| 0 <= i < |log| && log[i].to == status && i < |init| {
        assert init[i].to == status;
      }
    }
  }
}
