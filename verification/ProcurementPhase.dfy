/** The procurement phase as one attempt runs it, await by await, with arbitrary
    other attempts, miners and wallet users acting at every await. */
module ProcurementPhase {
  import opened Wrappers
  import opened Checkpoint
  import opened Procurement
  import opened TestPlan

  /** The run's shared state. `trace` records the schedule that led here. */
  class Runtime {
    var world: World
    ghost var origin: World
    ghost var trace: seq<Action>

    ghost predicate Valid()
      reads this
    {
      IsInitial(origin) && world == Execute(origin, trace)
    }

    constructor (start: World)
      requires IsInitial(start)
      ensures Valid() && world == start && trace == []
    {
      world, origin, trace := start, start, [];
    }

    method Perform(a: Action)
      requires Valid()
      modifies this
      ensures Valid() && world == Step(old(world), a)
      ensures origin == old(origin) && trace == old(trace) + [a]
    {
      hide Step, Execute, IsInitial;
      ExecuteOneMore(origin, trace, a);
      world := Step(world, a);
      trace := trace + [a];
    }

    /** Others run while `me` waits. */
    method Await(others: seq<Action>, me: nat)
      requires Valid() && OthersOnly(others, me)
      modifies this
      ensures Valid() && origin == old(origin) && trace == old(trace) + others
      ensures me in old(world).attempts ==> me in world.attempts && world.attempts[me] == old(world).attempts[me]
      ensures me !in old(world).attempts ==> me !in world.attempts
      ensures IsLater(old(world), world)
    {
      ghost var before := trace;
      for k := 0 to |others|
        invariant Valid() && origin == old(origin) && trace == before + others[..k]
        invariant me in old(world).attempts ==> me in world.attempts && world.attempts[me] == old(world).attempts[me]
        invariant me !in old(world).attempts ==> me !in world.attempts
        invariant IsLater(old(world), world)
      {
        OthersLeaveMe(world, others[k], me);
        hide Step, Execute, IsInitial, IsLater;
        LaterOneMore(old(world), world, others[k]);
        Perform(others[k]);
        assert others[..k + 1] == others[..k] + [others[k]];
      }
      assert others[..|others|] == others;
    }
  }

  /** The same run at some later time. */
  predicate IsLater(before: World, after: World) {
    IsSameRun(before, after) && before.pool <= after.pool && Extends(before.row, after.row)
  }

  lemma LaterOneMore(before: World, w: World, a: Action)
    requires IsLater(before, w)
    ensures IsLater(before, Step(w, a))
  {
    StepGrowsPool(w, a);
    StepGrowsRow(w, a);
    StepKeepsRun(w, a);
    hide Step, Extends;
    ExtendsTransitively(before.row, w.row, Step(w, a).row);
  }

  lemma LaterTransitively(a: World, b: World, c: World)
    requires IsLater(a, b) && IsLater(b, c)
    ensures IsLater(a, c)
  {
    hide Extends;
    ExtendsTransitively(a.row, b.row, c.row);
  }

  predicate Concerns(a: Action, me: nat) {
    !a.Mine? && !a.Broadcast? && a.i == me
  }

  predicate OthersOnly(actions: seq<Action>, me: nat) {
    forall k :: 0 <= k < |actions| ==> !Concerns(actions[k], me)
  }

  lemma OthersLeaveMe(w: World, a: Action, me: nat)
    requires !Concerns(a, me)
    ensures me in w.attempts <==> me in Step(w, a).attempts
    ensures me in w.attempts ==> Step(w, a).attempts[me] == w.attempts[me]
  {
    hide PaymentFor, CompileTestPlan, Merged, OwesRefund, RefundTx;
  }

  lemma StepGrowsPool(w: World, a: Action)
    ensures w.pool <= Step(w, a).pool
  {
  }

  /** What the outside world answers to this attempt. */
  datatype Answers = Answers(
    proposal: Plan,
    offer: Offer,
    pendingAtReserve: nat,
    pendingAtCheck: nat,
    refundHash: string)

  datatype Outcome =
    | Purchased(payment: SignedPayment)
    | NoMandatoryScenario
    | NotAcquired
    | SendAmbiguous(nonce: nat)
    | Unconfirmed

  /** The budget an attempt may spend: the stored plan's, or what its own proposal and
      the quote allow. */
  predicate IsCeiling(w: World, proposal: Plan, ceiling: nat) {
    || w.row.toolBudget == Some(ceiling)
    || (ceiling == proposal.toolBudget && ceiling <= w.budget)
    || (ceiling == w.budget && ceiling <= proposal.toolBudget)
  }

  lemma CeilingStays(before: World, after: World, proposal: Plan, ceiling: nat)
    requires IsLater(before, after) && IsCeiling(before, proposal, ceiling)
    ensures IsCeiling(after, proposal, ceiling)
  {
  }

  lemma PlannedCeiling(w: World, i: nat, proposal: Plan)
    requires Holds(w) && At(w, i).Loaded?
    ensures var after := Step(w, MakePlan(i, proposal));
            At(after, i).Planned? ==> IsCeiling(after, proposal, At(after, i).ceiling)
  {
    assert AttemptHolds(w, w.attempts[i]);
  }

  /** Whatever the others do in between, an attempt that leaves the phase holds the
      payment the row keeps, and the customer has been refunded what it left of the
      budget. */
  method RunProcurementPhase(rt: Runtime, me: nat, answers: Answers, others: nat -> seq<Action>)
    returns (outcome: Outcome)
    requires rt.Valid() && me !in rt.world.attempts
    requires forall k :: OthersOnly(others(k), me)
    modifies rt
    ensures rt.Valid() && rt.origin == old(rt.origin) && old(rt.trace) <= rt.trace
    ensures outcome.Purchased? ==>
              && At(rt.world, me) == Done(outcome.payment)
              && rt.world.row.purchaseReceipt == Some(outcome.payment)
              && AmountOf(outcome.payment) <= rt.world.budget
              && (IsOwed(rt.world, outcome.payment) ==> IsRefunded(rt.world, outcome.payment))
              && WasOffered(rt.trace, outcome.payment)
    ensures outcome.NotAcquired? ==>
              exists ceiling: nat :: IsCeiling(rt.world, answers.proposal, ceiling) && IsRefused(answers.offer, ceiling)
  {
    hide Step, Execute, IsInitial, IsCeiling, IsRefused, IsOwed, IsRefunded, IsLater;
    var checkpoint, ceiling := LoadAndPlan(rt, me, answers.proposal, others);
    if ceiling.None? { return NoMandatoryScenario; }
    ghost var planned := rt.world;
    rt.Await(others(2), me);
    ghost var waited := rt.world;
    var payment := AcquirePayment(rt, me, checkpoint, ceiling.value, answers, others);
    if payment.None? {
      LaterTransitively(planned, waited, rt.world);
      CeilingStays(planned, rt.world, answers.proposal, ceiling.value);
      return NotAcquired;
    }
    rt.Await(others(4), me);
    outcome := RefundRemainder(rt, me, checkpoint, payment.value, answers, others);
    if outcome.Purchased? { PaymentIsTheRows(rt.origin, rt.trace, me); }
  }

  /** Loads the checkpoint once and compiles a plan if it holds none. */
  method LoadAndPlan(rt: Runtime, me: nat, proposal: Plan, others: nat -> seq<Action>)
    returns (checkpoint: Row<SignedPayment>, ceiling: Option<nat>)
    requires rt.Valid() && me !in rt.world.attempts
    requires forall k :: OthersOnly(others(k), me)
    modifies rt
    ensures rt.Valid() && rt.origin == old(rt.origin) && old(rt.trace) <= rt.trace
    ensures ceiling.Some? ==>
              At(rt.world, me) == Planned(checkpoint, ceiling.value) && IsCeiling(rt.world, proposal, ceiling.value)
    ensures ceiling.None? ==> rt.world.mandatory == []
  {
    hide Merged, PlanPatch, Execute, IsInitial;
    rt.Perform(Start(me));
    rt.Await(others(0), me);
    rt.Perform(Load(me));
    checkpoint := rt.world.attempts[me].seen;
    rt.Await(others(1), me);
    hide Step, IsCeiling, IsLater;
    ceiling := PlanUnderLoad(rt, me, checkpoint, proposal);
  }

  method PlanUnderLoad(rt: Runtime, me: nat, checkpoint: Row<SignedPayment>, proposal: Plan) returns (ceiling: Option<nat>)
    requires rt.Valid() && At(rt.world, me) == Loaded(checkpoint)
    modifies rt
    ensures rt.Valid() && rt.origin == old(rt.origin) && old(rt.trace) <= rt.trace
    ensures ceiling.Some? ==>
              At(rt.world, me) == Planned(checkpoint, ceiling.value) && IsCeiling(rt.world, proposal, ceiling.value)
    ensures ceiling.None? ==> rt.world.mandatory == []
  {
    InitialHolds(rt.origin);
    EveryScheduleHolds(rt.origin, rt.trace);
    PlannedCeiling(rt.world, me, proposal);
    hide Holds, IsCeiling, Merged, PlanPatch, PlanOf, Execute, IsInitial;
    rt.Perform(MakePlan(me, proposal));
    ceiling := if At(rt.world, me).Planned? then Some(At(rt.world, me).ceiling) else None;
  }

  /** Reuses the checkpointed payment, or signs one and checkpoints it before it is
      ever presented. */
  method AcquirePayment(rt: Runtime, me: nat, checkpoint: Row<SignedPayment>, ceiling: nat, answers: Answers,
                        others: nat -> seq<Action>)
    returns (payment: Option<SignedPayment>)
    requires rt.Valid() && At(rt.world, me) == Planned(checkpoint, ceiling)
    requires forall k :: OthersOnly(others(k), me)
    modifies rt
    ensures rt.Valid() && rt.origin == old(rt.origin) && old(rt.trace) <= rt.trace
    ensures payment.Some? ==> At(rt.world, me) == Paid(checkpoint, payment.value) && rt.world.row.purchaseReceipt == payment
    ensures checkpoint.purchaseReceipt.Some? ==> payment == checkpoint.purchaseReceipt && rt.world.row == old(rt.world).row
    ensures payment.Some? ==> WasOffered(rt.trace, payment.value)
    ensures payment.None? <==> checkpoint.purchaseReceipt.None? && IsRefused(answers.offer, ceiling)
    ensures payment.None? ==> IsLater(old(rt.world), rt.world)
  {
    if checkpoint.purchaseReceipt.Some? {
      rt.Perform(Resume(me));
      PaymentIsTheRows(rt.origin, rt.trace, me);
      return checkpoint.purchaseReceipt;
    }
    payment := SignAndCheckpoint(rt, me, checkpoint, ceiling, answers.offer, others(3));
  }

  /** Goes on with what the row kept, not with what this attempt signed. */
  method SignAndCheckpoint(rt: Runtime, me: nat, checkpoint: Row<SignedPayment>, ceiling: nat, offer: Offer,
                           others: seq<Action>)
    returns (payment: Option<SignedPayment>)
    requires rt.Valid() && At(rt.world, me) == Planned(checkpoint, ceiling) && checkpoint.purchaseReceipt.None?
    requires OthersOnly(others, me)
    modifies rt
    ensures rt.Valid() && rt.origin == old(rt.origin) && old(rt.trace) <= rt.trace
    ensures payment.Some? ==> At(rt.world, me) == Paid(checkpoint, payment.value) && rt.world.row.purchaseReceipt == payment
    ensures payment.Some? ==> WasOffered(rt.trace, payment.value)
    ensures payment.None? <==> IsRefused(offer, ceiling)
    ensures payment.None? ==> IsLater(old(rt.world), rt.world)
  {
    hide IsRefused, IsSignedFor, WasOffered;
    rt.Perform(Sign(me, offer));
    if At(rt.world, me).Failed? { return None; }
    hide PaymentFor, CompileTestPlan, Step;
    rt.Await(others, me);
    payment := CheckpointSigned(rt, me, checkpoint);
  }

  method CheckpointSigned(rt: Runtime, me: nat, checkpoint: Row<SignedPayment>) returns (payment: Option<SignedPayment>)
    requires rt.Valid() && At(rt.world, me).Signed? && At(rt.world, me).seen == checkpoint
    modifies rt
    ensures rt.Valid() && rt.origin == old(rt.origin) && old(rt.trace) <= rt.trace
    ensures payment.Some? && At(rt.world, me) == Paid(checkpoint, payment.value) && rt.world.row.purchaseReceipt == payment
    ensures WasOffered(rt.trace, payment.value)
  {
    rt.Perform(CheckpointPayment(me));
    InitialHolds(rt.origin);
    EveryScheduleHolds(rt.origin, rt.trace);
    EveryPaymentWasOffered(rt.origin, rt.trace);
    return rt.world.row.purchaseReceipt;
  }

  /** Refunds what the payment left of the budget, under the one nonce the row
      keeps, or finds that nothing is owed. */
  method RefundRemainder(rt: Runtime, me: nat, checkpoint: Row<SignedPayment>, payment: SignedPayment, answers: Answers,
                         others: nat -> seq<Action>)
    returns (outcome: Outcome)
    requires rt.Valid() && At(rt.world, me) == Paid(checkpoint, payment)
    requires forall k :: OthersOnly(others(k), me)
    modifies rt
    ensures rt.Valid() && rt.origin == old(rt.origin) && old(rt.trace) <= rt.trace
    ensures outcome.Purchased? ==>
              && outcome.payment == payment && At(rt.world, me) == Done(payment)
              && (IsOwed(rt.world, payment) ==> IsRefunded(rt.world, payment))
    ensures outcome.Purchased? || outcome.SendAmbiguous? || outcome.Unconfirmed?
    ensures outcome.Unconfirmed? ==> IsAwaitingRefund(rt.world, me, payment)
    ensures outcome.SendAmbiguous? ==> answers.pendingAtCheck > outcome.nonce && At(rt.world, me) == Failed
  {
    var refundAmount := rt.world.budget - AmountOf(payment);
    if !rt.world.refunds || refundAmount <= 0 || checkpoint.refundHash.Some? {
      SkipNothingOwed(rt, me, checkpoint, payment);
      return Purchased(payment);
    }
    outcome := RefundUnderNonce(rt, me, checkpoint, payment, answers, others);
    if outcome.Purchased? { DoneIsRefunded(rt.origin, rt.trace, me); }
  }

  method SkipNothingOwed(rt: Runtime, me: nat, checkpoint: Row<SignedPayment>, payment: SignedPayment)
    requires rt.Valid() && At(rt.world, me) == Paid(checkpoint, payment) && !OwesRefund(rt.world, checkpoint, payment)
    modifies rt
    ensures rt.Valid() && rt.origin == old(rt.origin) && old(rt.trace) <= rt.trace
    ensures At(rt.world, me) == Done(payment) && (IsOwed(rt.world, payment) ==> IsRefunded(rt.world, payment))
  {
    rt.Perform(SkipRefund(me));
    DoneIsRefunded(rt.origin, rt.trace, me);
  }

  method RefundUnderNonce(rt: Runtime, me: nat, checkpoint: Row<SignedPayment>, payment: SignedPayment, answers: Answers,
                          others: nat -> seq<Action>)
    returns (outcome: Outcome)
    requires rt.Valid() && At(rt.world, me) == Paid(checkpoint, payment) && OwesRefund(rt.world, checkpoint, payment)
    requires forall k :: OthersOnly(others(k), me)
    modifies rt
    ensures rt.Valid() && rt.origin == old(rt.origin) && old(rt.trace) <= rt.trace
    ensures outcome.Purchased? ==> outcome.payment == payment && At(rt.world, me) == Done(payment)
    ensures outcome.Purchased? || outcome.SendAmbiguous? || outcome.Unconfirmed?
    ensures outcome.Unconfirmed? ==> IsAwaitingRefund(rt.world, me, payment)
    ensures outcome.SendAmbiguous? ==> answers.pendingAtCheck > outcome.nonce && At(rt.world, me) == Failed
  {
    hide Step, Execute, IsInitial, OwesRefund;
    var refundNonce := AgreeOnNonce(rt, me, checkpoint, payment, answers.pendingAtReserve, others(5));
    rt.Await(others(6), me);
    ClearNonce(rt, me, payment, refundNonce, answers.pendingAtCheck);
    if answers.pendingAtCheck > refundNonce { return SendAmbiguous(refundNonce); }
    rt.Await(others(7), me);
    outcome := SendAndConfirm(rt, me, payment, refundNonce, answers.refundHash, others(8));
  }

  /** A nonce that is already spent is not sent under again. */
  method ClearNonce(rt: Runtime, me: nat, payment: SignedPayment, nonce: nat, pending: nat)
    requires rt.Valid() && At(rt.world, me) == Numbered(payment, nonce)
    modifies rt
    ensures rt.Valid() && rt.origin == old(rt.origin) && old(rt.trace) <= rt.trace
    ensures At(rt.world, me) == if pending > nonce then Failed else Cleared(payment, nonce)
  {
    rt.Perform(CheckNonce(me, pending));
  }

  /** The refund was sent and is not mined yet, as far as this attempt can see. */
  predicate IsAwaitingRefund(w: World, me: nat, payment: SignedPayment) {
    && At(w, me).Sent? && At(w, me).payment == payment
    && var nonce := At(w, me).nonce;
       RefundTx(w, payment, nonce) in w.pool && (nonce >= |w.mined| || w.mined[nonce] != RefundTx(w, payment, nonce))
  }

  lemma DoneIsRefunded(origin: World, trace: seq<Action>, me: nat)
    requires IsInitial(origin) && At(Execute(origin, trace), me).Done?
    ensures var w := Execute(origin, trace); IsOwed(w, At(w, me).payment) ==> IsRefunded(w, At(w, me).payment)
  {
    EveryScheduleHolds(origin, trace);
    var w := Execute(origin, trace);
    assert IsOwed(w, At(w, me).payment) ==> IsOwed(origin, At(w, me).payment);
    if IsOwed(w, At(w, me).payment) { DoneMeansRefunded(origin, trace, me); }
  }

  lemma PaymentIsTheRows(origin: World, trace: seq<Action>, me: nat)
    requires IsInitial(origin) && me in Execute(origin, trace).attempts
    requires PaymentOf(Execute(origin, trace).attempts[me]).Some?
    ensures Execute(origin, trace).row.purchaseReceipt == PaymentOf(Execute(origin, trace).attempts[me])
    ensures AmountOf(PaymentOf(Execute(origin, trace).attempts[me]).value) <= Execute(origin, trace).budget
    ensures WasOffered(trace, PaymentOf(Execute(origin, trace).attempts[me]).value)
  {
    EveryPaymentWasOffered(origin, trace);
    AttemptsAgreeOnPayment(origin, trace, me, me);
    EveryScheduleHolds(origin, trace);
  }

  method SendAndConfirm(rt: Runtime, me: nat, payment: SignedPayment, refundNonce: nat, hash: string,
                        others: seq<Action>)
    returns (outcome: Outcome)
    requires rt.Valid() && At(rt.world, me) == Cleared(payment, refundNonce)
    requires OthersOnly(others, me)
    modifies rt
    ensures rt.Valid() && rt.origin == old(rt.origin) && old(rt.trace) <= rt.trace
    ensures outcome == Purchased(payment) || outcome == Unconfirmed
    ensures outcome.Purchased? ==> At(rt.world, me) == Done(payment)
    ensures outcome.Unconfirmed? ==> IsAwaitingRefund(rt.world, me, payment)
  {
    rt.Perform(SendRefund(me));
    rt.Await(others, me);
    if refundNonce >= |rt.world.mined| || rt.world.mined[refundNonce] != RefundTx(rt.world, payment, refundNonce) {
      return Unconfirmed;
    }
    rt.Perform(ConfirmRefund(me, hash));
    return Purchased(payment);
  }

  /** The nonce that every attempt of the run refunds under. */
  method AgreeOnNonce(rt: Runtime, me: nat, checkpoint: Row<SignedPayment>, payment: SignedPayment, pending: nat,
                      others: seq<Action>)
    returns (refundNonce: nat)
    requires rt.Valid() && At(rt.world, me) == Paid(checkpoint, payment)
    requires OwesRefund(rt.world, checkpoint, payment)
    requires OthersOnly(others, me)
    modifies rt
    ensures rt.Valid() && rt.origin == old(rt.origin) && old(rt.trace) <= rt.trace
    ensures At(rt.world, me) == Numbered(payment, refundNonce)
  {
    hide PaymentFor, CompileTestPlan, Execute, IsInitial, IsLater;
    rt.Perform(ReserveNonce(me, pending));
    if checkpoint.refundNonce.Some? { return checkpoint.refundNonce.value; }
    rt.Await(others, me);
    rt.Perform(CheckpointNonce(me));
    return rt.world.row.refundNonce.value;
  }

  lemma InitialHolds(w: World)
    requires IsInitial(w)
    ensures Holds(w)
  {
  }
}
