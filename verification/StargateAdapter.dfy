/** The bridge adapter's operations as one caller runs them: `submit`, with other
    submissions acting at every await, and `getStatus`. */
module StargateAdapter {
  import opened Wrappers
  import opened StargateAmounts
  import opened StargateBridge

  class Runtime {
    var bridge: Bridge
    ghost var trace: seq<Action>

    ghost predicate Valid()
      reads this
    {
      bridge == Execute(Initial, trace)
    }

    constructor ()
      ensures Valid() && bridge == Initial
    {
      bridge, trace := Initial, [];
    }

    method Perform(a: Action)
      requires Valid()
      modifies this
      ensures Valid() && bridge == Step(old(bridge), a) && trace == old(trace) + [a]
    {
      bridge := Step(bridge, a);
      trace := trace + [a];
      assert trace[..|trace| - 1] == old(trace);
    }

    /** Others leave this call and the row it holds alone. */
    method Await(others: seq<Action>, me: nat)
      requires Valid() && OthersOnly(others, me)
      modifies this
      ensures Valid() && trace == old(trace) + others && old(bridge).sends <= bridge.sends
      ensures me in bridge.calls <==> me in old(bridge).calls
      ensures me in old(bridge).calls ==> bridge.calls[me] == old(bridge).calls[me]
      ensures forall key :: IsHolder(old(bridge), me, key) ==> key in bridge.rows && bridge.rows[key] == old(bridge).rows[key]
    {
      ghost var before := trace;
      for k := 0 to |others|
        invariant Valid() && trace == before + others[..k] && old(bridge).sends <= bridge.sends
        invariant me in bridge.calls <==> me in old(bridge).calls
        invariant me in old(bridge).calls ==> bridge.calls[me] == old(bridge).calls[me]
        invariant forall key :: IsHolder(old(bridge), me, key) ==> key in bridge.rows && bridge.rows[key] == old(bridge).rows[key]
      {
        hide Step, Execute, Holds, Holding;
        EveryScheduleHolds(Initial, trace);
        OthersLeaveMe(bridge, others[k], me);
        HeldRowsStay(bridge, others[k], me);
        SendsOnlyGrow(bridge, others[k]);
        Perform(others[k]);
        assert others[..k + 1] == others[..k] + [others[k]];
      }
      assert others[..|others|] == others;
    }
  }

  predicate IsHolder(b: Bridge, c: nat, key: string) {
    c in b.calls && Holding(b.calls[c]) == Some(key) && key in b.rows
  }

  lemma OthersLeaveMe(b: Bridge, a: Action, me: nat)
    requires a.c != me
    ensures me in Step(b, a).calls <==> me in b.calls
    ensures me in b.calls ==> Step(b, a).calls[me] == b.calls[me]
  {
  }

  lemma HeldRowsStay(b: Bridge, a: Action, me: nat)
    requires Holds(b) && a.c != me
    ensures forall key :: IsHolder(b, me, key) ==> key in Step(b, a).rows && Step(b, a).rows[key] == b.rows[key]
  {
    hide Step, Holds;
    forall key | IsHolder(b, me, key) ensures key in Step(b, a).rows && Step(b, a).rows[key] == b.rows[key] {
      HeldRowStays(b, a, me, key);
    }
  }

  lemma HeldRowStays(b: Bridge, a: Action, me: nat, key: string)
    requires Holds(b) && a.c != me && IsHolder(b, me, key)
    ensures key in Step(b, a).rows && Step(b, a).rows[key] == b.rows[key]
  {
    if a.c in b.calls { assert CallHolds(b, b.calls[a.c]); }
    hide SendsHold;
  }

  lemma SendsOnlyGrow(b: Bridge, a: Action)
    ensures b.sends <= Step(b, a).sends
  {
  }

  lemma UsedHashStaysUsed(b: Bridge, after: Bridge, hash: string)
    requires b.sends <= after.sends && !IsFreshHash(b, hash)
    ensures !IsFreshHash(after, hash)
  {
  }

  predicate OthersOnly(actions: seq<Action>, me: nat) {
    forall k :: 0 <= k < |actions| ==> actions[k].c != me
  }

  datatype SubmitError = NotPayable(reason: AmountError) | BeingReconciled | FailedBeforeSend | SendAmbiguous

  /** What the chain answers to this call: a fresh quote, None if asking for it
      failed, whether the allowance went through, which transaction reached a node
      if any, and whether its hash came back. */
  datatype Answers = Answers(
    received: Option<nat>,
    nativeFee: nat,
    allowed: bool,
    reached: Option<string>,
    answered: bool)

  function RecordFor(key: string, quoteId: string, intent: Intent, quote: BridgeQuote): Record {
    Record(key, quoteId, intent.runId, intent.payer, quote.minimumOut, None)
  }

  /** The rows differ at most in what was sent. */
  predicate IsSameClaim(a: Record, b: Record) {
    a == b.(sent := a.sent)
  }

  /** A submission that succeeds reports the one transfer made for its key. One
      that fails before its send holds no claim afterwards; one that fails later
      keeps the claim, so that nobody sends again. */
  method Submit(rt: Runtime, me: nat, route: Route, key: string, quoteId: string, intent: Intent, quote: BridgeQuote,
                now: int, maxNativeFee: nat, answers: Answers, others: nat -> seq<Action>)
    returns (outcome: Result<string, SubmitError>)
    requires rt.Valid() && me !in rt.bridge.calls && IsRoute(route)
    requires forall n :: OthersOnly(others(n), me)
    modifies rt
    ensures rt.Valid() && Holds(rt.bridge)
    ensures outcome.Ok? ==> IsRecordedSend(rt.bridge, key, outcome.value)
    ensures outcome.Err? && outcome.error != SendAmbiguous ==> me in rt.bridge.calls ==> At(rt.bridge, me) == Refused
    ensures outcome == Err(FailedBeforeSend) ==> key !in rt.bridge.rows
    ensures AssertSubmittable(route, intent, quote, now).Ok? && key !in old(rt.bridge).rows ==>
              && (outcome == Err(FailedBeforeSend) <==>
                    !(IsCovering(route, answers, quote.minimumOut) && answers.nativeFee <= maxNativeFee && answers.allowed))
              && outcome != Err(BeingReconciled)
    ensures outcome == Err(SendAmbiguous) || (outcome.Ok? && key !in old(rt.bridge).rows) ==>
              IsCovering(route, answers, quote.minimumOut) && answers.nativeFee <= maxNativeFee
    ensures outcome == Err(SendAmbiguous) ==> At(rt.bridge, me) == Stuck(key)
    ensures outcome == Err(SendAmbiguous) || (outcome.Ok? && key !in old(rt.bridge).rows) ==>
              && key in rt.bridge.rows && var row := rt.bridge.rows[key];
              && row.key == key && row.quoteId == quoteId && row.runId == intent.runId
              && row.payer == intent.payer && row.minimumOut == quote.minimumOut
    ensures outcome.Ok? && key !in old(rt.bridge).rows ==> answers.answered && answers.reached == Some(outcome.value)
    ensures AssertSubmittable(route, intent, quote, now).Err? ==> outcome.Err? && rt.bridge == old(rt.bridge)
  {
    EveryScheduleHolds(Initial, rt.trace);
    var submittable := AssertSubmittable(route, intent, quote, now);
    if submittable.Err? { return Err(NotPayable(submittable.error)); }
    rt.Perform(Claim(me, RecordFor(key, quoteId, intent, quote)));
    EveryScheduleHolds(Initial, rt.trace);
    if At(rt.bridge, me).Succeeded? { return Ok(At(rt.bridge, me).hash); }
    if At(rt.bridge, me).Refused? { return Err(BeingReconciled); }

    var ready := Prepare(rt, me, route, key, maxNativeFee, answers, others);
    if !ready {
      GiveBack(rt, me, key);
      return Err(FailedBeforeSend);
    }
    outcome := SendAndMark(rt, me, key, answers, others);
  }

  /** The fresh quote would deliver at least the minimum. */
  predicate IsCovering(route: Route, answers: Answers, minimumOut: nat) {
    && answers.received.Some?
    && var freshOut := SourceToDestination(route, answers.received.value);
       freshOut.Ok? && minimumOut <= freshOut.value
  }

  method GiveBack(rt: Runtime, me: nat, key: string)
    requires rt.Valid() && At(rt.bridge, me) == Aborting(key)
    modifies rt
    ensures rt.Valid() && Holds(rt.bridge)
    ensures At(rt.bridge, me) == Refused && key !in rt.bridge.rows
  {
    EveryScheduleHolds(Initial, rt.trace);
    assert CallHolds(rt.bridge, rt.bridge.calls[me]);
    rt.Perform(Abandon(me));
    EveryScheduleHolds(Initial, rt.trace);
  }

  /** Requotes and grants the allowance; any failure here is still before the send. */
  method Prepare(rt: Runtime, me: nat, route: Route, key: string, maxNativeFee: nat, answers: Answers,
                 others: nat -> seq<Action>)
    returns (ready: bool)
    requires rt.Valid() && At(rt.bridge, me) == Claimed(key)
    requires forall n :: OthersOnly(others(n), me)
    modifies rt
    ensures rt.Valid()
    ensures At(rt.bridge, me) == if ready then Ready(key) else Aborting(key)
    ensures key in rt.bridge.rows && key in old(rt.bridge).rows && rt.bridge.rows[key] == old(rt.bridge).rows[key]
    ensures ready <==> IsCovering(route, answers, rt.bridge.rows[key].minimumOut) && answers.nativeFee <= maxNativeFee
                       && answers.allowed
  {
    EveryScheduleHolds(Initial, rt.trace);
    assert CallHolds(rt.bridge, rt.bridge.calls[me]) && IsHolder(rt.bridge, me, key);
    rt.Await(others(0), me);
    if answers.received.None? {
      rt.Perform(FailBeforeSend(me));
      return false;
    }
    var freshOut := SourceToDestination(route, answers.received.value);
    rt.Perform(Requote(me, freshOut, answers.nativeFee, maxNativeFee));
    if At(rt.bridge, me).Aborting? { return false; }
    assert IsHolder(rt.bridge, me, key);
    rt.Await(others(1), me);
    if !answers.allowed {
      rt.Perform(FailBeforeSend(me));
      return false;
    }
    return true;
  }

  /** From here on every error is ambiguous. */
  method SendAndMark(rt: Runtime, me: nat, key: string, answers: Answers, others: nat -> seq<Action>)
    returns (outcome: Result<string, SubmitError>)
    requires rt.Valid() && At(rt.bridge, me) == Ready(key)
    requires forall n :: OthersOnly(others(n), me)
    modifies rt
    ensures rt.Valid() && Holds(rt.bridge)
    ensures outcome.Ok? ==> IsRecordedSend(rt.bridge, key, outcome.value)
    ensures outcome.Ok? ==> answers.answered && answers.reached == Some(outcome.value)
    ensures outcome.Err? ==> outcome.error == SendAmbiguous && At(rt.bridge, me) == Stuck(key)
    ensures outcome.Err? ==>
              answers.reached.None? || !answers.answered || !IsFreshHash(rt.bridge, answers.reached.value)
    ensures key in rt.bridge.rows && key in old(rt.bridge).rows
    ensures IsSameClaim(old(rt.bridge).rows[key], rt.bridge.rows[key])
  {
    EveryScheduleHolds(Initial, rt.trace);
    assert CallHolds(rt.bridge, rt.bridge.calls[me]) && IsHolder(rt.bridge, me, key);
    hide Execute, Holds, IsFreshHash, CallHolds;
    rt.Await(others(2), me);
    // A hash that is already on chain is not this transaction's.
    var reached := if answers.reached.Some? && IsFreshHash(rt.bridge, answers.reached.value)
                   then answers.reached else None;
    ghost var sending := rt.bridge;
    rt.Perform(AttemptSend(me, reached));
    SendsOnlyGrow(sending, AttemptSend(me, reached));
    assert IsHolder(rt.bridge, me, key);
    rt.Await(others(3), me);
    if reached.None? || !answers.answered {
      LoseAnswer(rt, me, key, reached);
      if answers.reached.Some? && reached.None? { UsedHashStaysUsed(sending, rt.bridge, answers.reached.value); }
      return Err(SendAmbiguous);
    }
    MarkSent(rt, me, key, reached.value, others(4));
    return Ok(reached.value);
  }

  /** The send failed or its answer was lost: the claim stays. */
  method LoseAnswer(rt: Runtime, me: nat, key: string, reached: Option<string>)
    requires rt.Valid() && At(rt.bridge, me) == InFlight(key, reached)
    modifies rt
    ensures rt.Valid() && Holds(rt.bridge)
    ensures At(rt.bridge, me) == Stuck(key) && key in rt.bridge.rows
    ensures rt.bridge.rows == old(rt.bridge).rows && rt.bridge.sends == old(rt.bridge).sends
  {
    rt.Perform(SendErrors(me));
    EveryScheduleHolds(Initial, rt.trace);
    assert CallHolds(rt.bridge, rt.bridge.calls[me]);
  }

  method MarkSent(rt: Runtime, me: nat, key: string, hash: string, others: seq<Action>)
    requires rt.Valid() && At(rt.bridge, me) == InFlight(key, Some(hash))
    requires OthersOnly(others, me)
    modifies rt
    ensures rt.Valid() && Holds(rt.bridge)
    ensures IsRecordedSend(rt.bridge, key, hash)
    ensures key in old(rt.bridge).rows && IsSameClaim(old(rt.bridge).rows[key], rt.bridge.rows[key])
  {
    hide Step, Execute, Holds, IsFreshHash;
    CallHoldsItsRow(rt.trace, me, key, hash);
    ReturnStep(rt.bridge, me, key, hash);
    rt.Perform(SendReturns(me));
    assert IsHolder(rt.bridge, me, key);
    rt.Await(others, me);
    RowIsThere(rt.trace, me, key, hash);
    MarkStep(rt.bridge, me, key, hash);
    rt.Perform(MarkSubmitted(me));
    EveryScheduleHolds(Initial, rt.trace);
  }

  lemma CallHoldsItsRow(trace: seq<Action>, me: nat, key: string, hash: string)
    requires At(Execute(Initial, trace), me) == InFlight(key, Some(hash))
    ensures IsHolder(Execute(Initial, trace), me, key)
  {
    EveryScheduleHolds(Initial, trace);
    assert CallHolds(Execute(Initial, trace), Execute(Initial, trace).calls[me]);
  }

  lemma ReturnStep(b: Bridge, me: nat, key: string, hash: string)
    requires At(b, me) == InFlight(key, Some(hash))
    ensures var after := Step(b, SendReturns(me)); At(after, me) == Returned(key, hash) && after.rows == b.rows
  {
  }

  lemma MarkStep(b: Bridge, me: nat, key: string, hash: string)
    requires At(b, me) == Returned(key, hash) && key in b.rows && Broadcast(key, hash) in b.sends
    ensures var after := Step(b, MarkSubmitted(me));
            IsRecordedSend(after, key, hash) && IsSameClaim(b.rows[key], after.rows[key])
  {
  }

  /** The row of `key` is submitted under the hash of a transfer that went out. */
  predicate IsRecordedSend(b: Bridge, key: string, hash: string) {
    key in b.rows && b.rows[key].sent == Some(hash) && Broadcast(key, hash) in b.sends
  }

  lemma RowIsThere(trace: seq<Action>, me: nat, key: string, hash: string)
    requires At(Execute(Initial, trace), me) == Returned(key, hash)
    ensures key in Execute(Initial, trace).rows
    ensures Broadcast(key, hash) in Execute(Initial, trace).sends
  {
    EveryScheduleHolds(Initial, trace);
    assert CallHolds(Execute(Initial, trace), Execute(Initial, trace).calls[me]);
  }

  // ---------------------------------------------------------------- delivery

  datatype LayerZeroStatus = Delivered | DeliverySucceeded | FailureStatus | OtherStatus

  datatype Delivery = Delivery(
    status: LayerZeroStatus,
    destinationStatus: Option<LayerZeroStatus>,
    destinationHash: Option<string>)

  datatype TransferStatus =
    | PendingTransfer
    | DestinationFunded(destinationHash: string, amountReceived: nat)
    | FailedTransfer

  /** The bridge saw the message executed on the destination and names its transaction. */
  predicate IsExecuted(delivery: Option<Delivery>) {
    && delivery.Some? && delivery.value.status == Delivered
    && delivery.value.destinationStatus == Some(DeliverySucceeded) && delivery.value.destinationHash.Some?
  }

  /** `received` is what the destination receipt shows for the record's payer. The
      destination is funded exactly when the executed message brought the minimum,
      and the transfer failed exactly when it brought less or either side says so. */
  function GetStatus(record: Record, delivery: Option<Delivery>, received: Option<nat>): (status: TransferStatus)
    ensures status.DestinationFunded? <==> IsExecuted(delivery) && received.Some? && record.minimumOut <= received.value
    ensures status.DestinationFunded? ==>
              Some(status.destinationHash) == delivery.value.destinationHash && Some(status.amountReceived) == received
    ensures status.FailedTransfer? <==>
              || (delivery.Some? && (delivery.value.status == FailureStatus
                                     || delivery.value.destinationStatus == Some(FailureStatus)))
              || (IsExecuted(delivery) && received.Some? && received.value < record.minimumOut)
  {
    if delivery.None? then PendingTransfer
    else
      var d := delivery.value;
      if d.status == FailureStatus || d.destinationStatus == Some(FailureStatus) then FailedTransfer
      else if d.status != Delivered || d.destinationStatus != Some(DeliverySucceeded) || d.destinationHash.None?
      then PendingTransfer
      else if received.None? then PendingTransfer
      else if received.value < record.minimumOut then FailedTransfer
      else DestinationFunded(d.destinationHash.value, received.value)
  }
}
