/** The guard that a cross-chain procurement moves through, event by event. */
module CrossChainMachine {
  import opened Texts
  import opened Wrappers

  datatype State =
    | AwaitingSourceLock
    | SourceLocked(sourceHash: string)
    | Bridging(sourceHash: string, transferId: string)
    | DestinationFunded(sourceHash: string, transferId: string, destinationHash: string, received: nat)
    | TargetPaymentSubmitted(
        sourceHash: string, transferId: string, destinationHash: string, received: nat, paymentId: string)
    | TargetPaid(
        sourceHash: string, transferId: string, destinationHash: string, received: nat, paymentId: string,
        paymentHash: string, spent: nat)
    | Attested(paymentHash: string, attestationHash: string)
    | RefundPending(reason: string)
    | Refunded(reason: string, refundHash: string)
    | Failed(reason: string)

  datatype Event =
    | SourceFundsLocked(sourceHash: string)
    | BridgeSubmitted(transferId: string)
    | DestinationFundsReceived(destinationHash: string, received: nat)
    | TargetPaymentCreated(paymentId: string)
    | TargetPaymentConfirmed(paymentHash: string, spent: nat)
    | AttestationConfirmed(attestationHash: string)
    | RefundRequested(reason: string)
    | RefundConfirmed(refundHash: string)
    | Failure(reason: string)

  /** None is a thrown error: the event is refused and nothing changes. */
  function Transition(state: State, event: Event, ceiling: nat): Option<State> {
    if ceiling == 0 then None
    else if event.Failure? then
      if IsBlank(event.reason) then None else Some(Failed(event.reason))
    else if event.RefundRequested? then
      if state.Attested? || state.Refunded? || IsBlank(event.reason) then None else Some(RefundPending(event.reason))
    else if event.RefundConfirmed? then
      if !state.RefundPending? || !IsHash(event.refundHash) then None else Some(Refunded(state.reason, event.refundHash))
    else Forward(state, event, ceiling)
  }

  function Forward(state: State, event: Event, ceiling: nat): Option<State> {
    match state
    case AwaitingSourceLock =>
      if event.SourceFundsLocked? && IsHash(event.sourceHash) then Some(SourceLocked(event.sourceHash)) else None
    case SourceLocked(source) =>
      if event.BridgeSubmitted? && !IsBlank(event.transferId) then Some(Bridging(source, event.transferId)) else None
    case Bridging(source, transfer) =>
      if event.DestinationFundsReceived? && IsHash(event.destinationHash) && event.received > 0
         && event.received >= ceiling
      then Some(DestinationFunded(source, transfer, event.destinationHash, event.received)) else None
    case DestinationFunded(source, transfer, destination, received) =>
      if event.TargetPaymentCreated? && !IsBlank(event.paymentId)
      then Some(TargetPaymentSubmitted(source, transfer, destination, received, event.paymentId)) else None
    case TargetPaymentSubmitted(source, transfer, destination, received, payment) =>
      if event.TargetPaymentConfirmed? && IsHash(event.paymentHash) && event.spent > 0 && event.spent <= ceiling
      then Some(TargetPaid(source, transfer, destination, received, payment, event.paymentHash, event.spent)) else None
    case TargetPaid(_, _, _, _, _, payment, _) =>
      if event.AttestationConfirmed? && IsHash(event.attestationHash)
      then Some(Attested(payment, event.attestationHash)) else None
    case _ => None
  }

  // ---------------------------------------------------------------- histories

  /** Events that were accepted, each with the state it met. */
  datatype Entry = Entry(before: State, event: Event)

  datatype History = History(state: State, accepted: seq<Entry>)

  const Start := History(AwaitingSourceLock, [])

  function Applied(h: History, event: Event, ceiling: nat): History {
    var next := Transition(h.state, event, ceiling);
    if next.None? then h else History(next.value, h.accepted + [Entry(h.state, event)])
  }

  function Play(h: History, events: seq<Event>, ceiling: nat): History {
    if events == [] then h
    else Applied(Play(h, events[..|events| - 1], ceiling), events[|events| - 1], ceiling)
  }

  // ---------------------------------------------------------------- order of forward events

  /** How many forward events lie behind a state, as long as nothing went wrong. */
  function StageOf(state: State): Option<nat> {
    match state
    case AwaitingSourceLock => Some(0)
    case SourceLocked(_) => Some(1)
    case Bridging(_, _) => Some(2)
    case DestinationFunded(_, _, _, _) => Some(3)
    case TargetPaymentSubmitted(_, _, _, _, _) => Some(4)
    case TargetPaid(_, _, _, _, _, _, _) => Some(5)
    case Attested(_, _) => Some(6)
    case _ => None
  }

  /** The position of a forward event in the one order they are accepted in. */
  function PositionOf(event: Event): Option<nat> {
    match event
    case SourceFundsLocked(_) => Some(0)
    case BridgeSubmitted(_) => Some(1)
    case DestinationFundsReceived(_, _) => Some(2)
    case TargetPaymentCreated(_) => Some(3)
    case TargetPaymentConfirmed(_, _) => Some(4)
    case AttestationConfirmed(_) => Some(5)
    case _ => None
  }

  /** What an event says is complete, and its amounts fit the ceiling. */
  predicate IsComplete(event: Event, ceiling: nat) {
    match event
    case SourceFundsLocked(hash) => IsHash(hash)
    case BridgeSubmitted(id) => !IsBlank(id)
    case DestinationFundsReceived(hash, received) => IsHash(hash) && ceiling <= received
    case TargetPaymentCreated(id) => !IsBlank(id)
    case TargetPaymentConfirmed(hash, spent) => IsHash(hash) && 0 < spent <= ceiling
    case AttestationConfirmed(hash) => IsHash(hash)
    case RefundRequested(reason) => !IsBlank(reason)
    case RefundConfirmed(hash) => IsHash(hash)
    case Failure(reason) => !IsBlank(reason)
  }

  /** A complete forward event is accepted exactly at its own place in the order, and
      moves the state one place on; a failure always, a refund's request unless the
      purchase is attested or refunded, and its confirmation only after the request. */
  lemma AcceptedExactlyInPlace(state: State, event: Event, ceiling: nat)
    ensures var next := Transition(state, event, ceiling);
            && (next.Some? <==>
                  && ceiling > 0 && IsComplete(event, ceiling)
                  && (PositionOf(event).Some? ==> StageOf(state) == PositionOf(event))
                  && (event.RefundRequested? ==> !state.Attested? && !state.Refunded?)
                  && (event.RefundConfirmed? ==> state.RefundPending?))
            && (next.Some? && PositionOf(event).Some? ==> StageOf(next.value) == Some(PositionOf(event).value + 1))
            && (next.Some? && event.Failure? ==> next.value == Failed(event.reason))
            && (next.Some? && event.RefundRequested? ==> next.value == RefundPending(event.reason))
            && (next.Some? && event.RefundConfirmed? ==> next.value == Refunded(state.reason, event.refundHash))
  {
    hide IsHash, IsBlank;
  }

  function ForwardEvents(accepted: seq<Entry>): seq<Event> {
    if accepted == [] then []
    else
      var init, last := ForwardEvents(accepted[..|accepted| - 1]), accepted[|accepted| - 1].event;
      if PositionOf(last).Some? then init + [last] else init
  }

  predicate IsPrefixOfOrder(forward: seq<Event>) {
    |forward| <= 6 && forall k :: 0 <= k < |forward| ==> PositionOf(forward[k]) == Some(k)
  }

  /** A state holds exactly what the forward events said, each thing in its place. */
  predicate Describes(state: State, forward: seq<Event>)
    requires IsPrefixOfOrder(forward)
  {
    match state
    case SourceLocked(source) => |forward| == 1 && forward[0].sourceHash == source
    case Bridging(source, transfer) =>
      |forward| == 2 && forward[0].sourceHash == source && forward[1].transferId == transfer
    case DestinationFunded(source, transfer, destination, received) =>
      && |forward| == 3 && forward[0].sourceHash == source && forward[1].transferId == transfer
      && forward[2] == DestinationFundsReceived(destination, received)
    case TargetPaymentSubmitted(source, transfer, destination, received, payment) =>
      && |forward| == 4 && forward[0].sourceHash == source && forward[1].transferId == transfer
      && forward[2] == DestinationFundsReceived(destination, received) && forward[3].paymentId == payment
    case TargetPaid(source, transfer, destination, received, payment, hash, spent) =>
      && |forward| == 5 && forward[0].sourceHash == source && forward[1].transferId == transfer
      && forward[2] == DestinationFundsReceived(destination, received) && forward[3].paymentId == payment
      && forward[4] == TargetPaymentConfirmed(hash, spent)
    case Attested(hash, attestation) =>
      |forward| == 6 && forward[4].paymentHash == hash && forward[5].attestationHash == attestation
    case _ => true
  }

  /** A delivery covers the ceiling and a payment stays within it. */
  predicate IsCovered(forward: seq<Event>, ceiling: nat)
    requires IsPrefixOfOrder(forward)
  {
    && (|forward| > 2 ==> ceiling <= forward[2].received)
    && (|forward| > 4 ==> 0 < forward[4].spent <= ceiling)
  }

  lemma ForwardEventsGrow(accepted: seq<Entry>, entry: Entry)
    ensures ForwardEvents(accepted + [entry])
            == ForwardEvents(accepted) + if PositionOf(entry.event).Some? then [entry.event] else []
  {
  }

  predicate IsInOrder(state: State, forward: seq<Event>, ceiling: nat) {
    && IsPrefixOfOrder(forward)
    && (StageOf(state).Some? ==> StageOf(state).value == |forward|)
    && Describes(state, forward)
    && IsCovered(forward, ceiling)
  }

  lemma ForwardKeepsOrder(state: State, forward: seq<Event>, event: Event, ceiling: nat)
    requires IsInOrder(state, forward, ceiling) && Forward(state, event, ceiling).Some?
    ensures PositionOf(event).Some? && IsInOrder(Forward(state, event, ceiling).value, forward + [event], ceiling)
  {
    hide IsHash, IsBlank;
  }

  lemma StepKeepsOrder(h: History, event: Event, ceiling: nat)
    requires IsInOrder(h.state, ForwardEvents(h.accepted), ceiling)
    ensures var after := Applied(h, event, ceiling);
            IsInOrder(after.state, ForwardEvents(after.accepted), ceiling)
  {
    hide IsHash, IsBlank, Forward;
    if Transition(h.state, event, ceiling).Some? {
      ForwardEventsGrow(h.accepted, Entry(h.state, event));
      if PositionOf(event).Some? {
        ForwardKeepsOrder(h.state, ForwardEvents(h.accepted), event, ceiling);
      }
    }
  }

  /** Over every history: the forward events accepted are a prefix of lock, submit,
      receive, create, confirm, attest, each at most once, the state says exactly
      what they said, and what was spent is at most the ceiling, which is at most
      what arrived. */
  lemma {:induction false} ForwardEventsComeInOrder(events: seq<Event>, ceiling: nat)
    ensures var h := Play(Start, events, ceiling);
            var forward := ForwardEvents(h.accepted);
            && IsPrefixOfOrder(forward)
            && (StageOf(h.state).Some? ==> StageOf(h.state).value == |forward|)
            && Describes(h.state, forward)
            && IsCovered(forward, ceiling)
  {
    hide Applied;
    if events != [] {
      var init, last := events[..|events| - 1], events[|events| - 1];
      ForwardEventsComeInOrder(init, ceiling);
      StepKeepsOrder(Play(Start, init, ceiling), last, ceiling);
    }
  }

  // ---------------------------------------------------------------- trouble

  predicate IsTrouble(state: State) {
    state.Failed? || state.RefundPending? || state.Refunded?
  }

  lemma TroubleStaysTrouble(h: History, event: Event, ceiling: nat)
    requires IsTrouble(h.state)
    ensures IsTrouble(Applied(h, event, ceiling).state)
    ensures ForwardEvents(Applied(h, event, ceiling).accepted) == ForwardEvents(h.accepted)
  {
    hide IsHash, IsBlank;
    if Transition(h.state, event, ceiling).Some? {
      ForwardEventsGrow(h.accepted, Entry(h.state, event));
    }
  }

  /** Once something went wrong, the procurement never moves forward again. */
  lemma {:induction false} TroubleIsClosed(h: History, events: seq<Event>, ceiling: nat)
    requires IsTrouble(h.state)
    ensures IsTrouble(Play(h, events, ceiling).state)
    ensures ForwardEvents(Play(h, events, ceiling).accepted) == ForwardEvents(h.accepted)
  {
    hide Applied, ForwardEvents;
    if events != [] {
      var init := events[..|events| - 1];
      TroubleIsClosed(h, init, ceiling);
      TroubleStaysTrouble(Play(h, init, ceiling), events[|events| - 1], ceiling);
    }
  }

  /** No state is final: a failure is accepted from all of them, a finished refund
      and a delivered attestation included. */
  lemma FailureIsAlwaysAccepted(state: State, reason: string, ceiling: nat)
    ensures Transition(state, Failure(reason), ceiling) == Some(Failed(reason)) <==> ceiling > 0 && !IsBlank(reason)
  {
  }

  // ---------------------------------------------------------------- refunds

  function Refunds(accepted: seq<Entry>): nat {
    if accepted == [] then 0
    else
      Refunds(accepted[..|accepted| - 1]) + if accepted[|accepted| - 1].event.RefundConfirmed? then 1 else 0
  }

  /** Failures that reopened a refund already confirmed. */
  function Reopenings(accepted: seq<Entry>): nat {
    if accepted == [] then 0
    else
      var last := accepted[|accepted| - 1];
      Reopenings(accepted[..|accepted| - 1]) + if last.before.Refunded? && last.event.Failure? then 1 else 0
  }

  lemma CountsGrow(accepted: seq<Entry>, entry: Entry)
    ensures Refunds(accepted + [entry]) == Refunds(accepted) + if entry.event.RefundConfirmed? then 1 else 0
    ensures Reopenings(accepted + [entry])
            == Reopenings(accepted) + if entry.before.Refunded? && entry.event.Failure? then 1 else 0
  {
  }

  predicate IsCounted(h: History) {
    Refunds(h.accepted) == Reopenings(h.accepted) + if h.state.Refunded? then 1 else 0
  }

  lemma ForwardIsNoRefund(state: State, event: Event, ceiling: nat)
    requires Forward(state, event, ceiling).Some?
    ensures !state.Refunded? && !Forward(state, event, ceiling).value.Refunded? && !event.RefundConfirmed?
  {
  }

  lemma StepKeepsCount(h: History, event: Event, ceiling: nat)
    requires IsCounted(h)
    ensures IsCounted(Applied(h, event, ceiling))
  {
    hide IsHash, IsBlank, Forward, Refunds, Reopenings;
    if Forward(h.state, event, ceiling).Some? { ForwardIsNoRefund(h.state, event, ceiling); }
    if Transition(h.state, event, ceiling).Some? {
      CountsGrow(h.accepted, Entry(h.state, event));
    }
  }

  /** At most one refund is confirmed per history, plus one for every failure
      reported after a confirmed one. */
  lemma {:induction false} RefundsAreCounted(events: seq<Event>, ceiling: nat)
    ensures var h := Play(Start, events, ceiling);
            Refunds(h.accepted) == Reopenings(h.accepted) + if h.state.Refunded? then 1 else 0
  {
    hide Applied, Refunds, Reopenings;
    if events == [] {
      assert IsCounted(Start) by { NothingIsCounted(); }
    } else {
      var init := events[..|events| - 1];
      RefundsAreCounted(init, ceiling);
      StepKeepsCount(Play(Start, init, ceiling), events[|events| - 1], ceiling);
    }
  }

  lemma NothingIsCounted()
    ensures IsCounted(Start)
  {
  }

  lemma PlayOneMore(h: History, events: seq<Event>, event: Event, ceiling: nat)
    ensures Play(h, events + [event], ceiling) == Applied(Play(h, events, ceiling), event, ceiling)
  {
  }

  lemma RefundCycle(h: History, events: seq<Event>, reason: string, hash: string, ceiling: nat)
    requires ceiling > 0 && !IsBlank(reason) && IsHash(hash)
    requires !Play(h, events, ceiling).state.Attested? && !Play(h, events, ceiling).state.Refunded?
    ensures var before := Play(h, events, ceiling);
            var after := Play(h, events + [RefundRequested(reason)] + [RefundConfirmed(hash)], ceiling);
            after.state == Refunded(reason, hash) && Refunds(after.accepted) == Refunds(before.accepted) + 1
  {
    hide IsHash, IsBlank, Refunds;
    var before := Play(h, events, ceiling);
    PlayOneMore(h, events, RefundRequested(reason), ceiling);
    PlayOneMore(h, events + [RefundRequested(reason)], RefundConfirmed(hash), ceiling);
    CountsGrow(before.accepted, Entry(before.state, RefundRequested(reason)));
    CountsGrow(before.accepted + [Entry(before.state, RefundRequested(reason))],
               Entry(RefundPending(reason), RefundConfirmed(hash)));
  }

  /** So a second refund can be confirmed: a failure after the first lets it be
      requested again. */
  lemma SecondRefundAfterFailure(events: seq<Event>, reason: string, first: string, second: string, ceiling: nat)
    requires ceiling > 0 && !IsBlank(reason) && IsHash(first) && IsHash(second)
    requires StageOf(Play(Start, events, ceiling).state).Some? && !Play(Start, events, ceiling).state.Attested?
    ensures var cycle := events + [RefundRequested(reason)] + [RefundConfirmed(first)];
            var h := Play(Start, cycle + [Failure(reason)] + [RefundRequested(reason)] + [RefundConfirmed(second)], ceiling);
            h.state == Refunded(reason, second) && Refunds(h.accepted) >= 2
  {
    hide IsHash, IsBlank, Refunds;
    var cycle := events + [RefundRequested(reason)] + [RefundConfirmed(first)];
    RefundCycle(Start, events, reason, first, ceiling);
    PlayOneMore(Start, cycle, Failure(reason), ceiling);
    CountsGrow(Play(Start, cycle, ceiling).accepted, Entry(Refunded(reason, first), Failure(reason)));
    RefundCycle(Start, cycle + [Failure(reason)], reason, second, ceiling);
  }
}
