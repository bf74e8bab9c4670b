/** Buying the run's resource on a chain other than the one the customer funded on:
    fund the destination payer over the bridge, see the delivery there, and only
    then sign for the target. Any number of attempts at the run overlap, and other
    runs use the same bridge store and purchase store. */
module CrossChainPhase {
  import opened Wrappers
  import opened Checkpoint
  import Amounts = StargateAmounts
  import Bridge = StargateBridge
  import Adapter = StargateAdapter
  import Bnb = BnbPurchases

  /** `seen` is the checkpoint an attempt was started with. */
  datatype Attempt =
    | Started
    | Loaded(seen: Row<string>)
    | Submitting(seen: Row<string>)
    | Submitted(seen: Row<string>, transferId: string, submittedAt: Option<int>)
    | Funded(seen: Row<string>)
    | Acquiring(seen: Row<string>)
    | Done(payment: Bnb.Payment)
    | Failed

  /** `ceiling` is the target payment amount: what the bridge must deliver at least
      and what the payment client may sign for at most. */
  datatype World = World(
    runId: string,
    bridged: bool,
    ceiling: nat,
    maximumWait: int,
    row: Row<string>,
    bridge: Bridge.Bridge,
    client: Bnb.Client,
    attempts: map<nat, Attempt>)

  datatype Action =
    | Start(i: nat)
    | Load(i: nat)
    | SkipFunding(i: nat)
    | Submit(i: nat, route: Amounts.Route, intent: Amounts.Intent, quote: Amounts.BridgeQuote, quoteId: string, now: int)
    | Bridging(a: Bridge.Action)
    | CheckpointTransfer(i: nat, now: int)
    | ResumeTransfer(i: nat)
    | Observe(i: nat, key: string, now: int, delivery: Option<Adapter.Delivery>, received: Option<nat>)
    | ResumeDelivery(i: nat)
    | Acquire(i: nat)
    | Buying(p: Bnb.Action)
    | CheckpointPurchase(i: nat)
    | ResumePurchase(i: nat)
    | Fail(i: nat)

  function BridgeKey(w: World): string { "orchestrator:" + w.runId + ":bridge:1" }

  function PaymentKey(w: World): string { "orchestrator:" + w.runId + ":target-x402:1" }

  function At(w: World, i: nat): Attempt {
    if i in w.attempts then w.attempts[i] else Failed
  }

  function Put(w: World, i: nat, attempt: Attempt): World {
    w.(attempts := w.attempts[i := attempt])
  }

  predicate HasTransfer(row: Row<string>) { row.bridgeTransferId.Some? && row.bridgeSourceHash.Some? }

  predicate HasDelivery(row: Row<string>) { row.bridgeDestinationHash.Some? && row.bridgeAmountReceived.Some? }

  predicate HasPurchase(row: Row<string>) {
    row.purchaseReceipt.Some? && row.paymentHash.Some? && row.targetPaymentAmount.Some?
  }

  function PurchaseOf(row: Row<string>): Bnb.Payment
    requires HasPurchase(row)
  {
    Bnb.Payment(row.purchaseReceipt.value, row.paymentHash.value, row.targetPaymentAmount.value)
  }

  function TransferPatch(hash: string, now: int): Row<string> {
    Empty<string>().(bridgeTransferId := Some(hash), bridgeSourceHash := Some(hash), bridgeSubmittedAt := Some(now))
  }

  function DeliveryPatch(hash: string, received: nat): Row<string> {
    Empty<string>().(bridgeDestinationHash := Some(hash), bridgeAmountReceived := Some(received))
  }

  function PurchasePatch(payment: Bnb.Payment): Row<string> {
    Empty<string>().(purchaseReceipt := Some(payment.receipt), paymentHash := Some(payment.proofHash),
                     targetPaymentAmount := Some(payment.amount), paymentHeaderName := Some(PaymentSignature))
  }

  predicate TimedOut(w: World, submittedAt: Option<int>, now: int) {
    submittedAt.Some? && now - submittedAt.value > w.maximumWait
  }

  // ---------------------------------------------------------------- one step of anybody

  /** An action that its attempt is not at does nothing. */
  function Step(w: World, a: Action): World {
    match a
    case Start(i) => if i in w.attempts then w else Put(w, i, Started)
    case Load(i) => if At(w, i).Started? then Put(w, i, Loaded(w.row)) else w
    case SkipFunding(i) => if At(w, i).Loaded? && !w.bridged then Put(w, i, Funded(At(w, i).seen)) else w
    case Submit(i, route, intent, quote, quoteId, now) => StepSubmit(w, i, route, intent, quote, quoteId, now)
    case Bridging(b) =>
      // The run's own claim is made by Submit alone.
      if b.Claim? && b.record.key == BridgeKey(w) then w else w.(bridge := Bridge.Step(w.bridge, b))
    case CheckpointTransfer(i, now) => StepCheckpointTransfer(w, i, now)
    case ResumeTransfer(i) =>
      if At(w, i).Loaded? && w.bridged && HasTransfer(At(w, i).seen)
      then Put(w, i, Submitted(At(w, i).seen, At(w, i).seen.bridgeTransferId.value, At(w, i).seen.bridgeSubmittedAt))
      else w
    case Observe(i, key, now, delivery, received) => StepObserve(w, i, key, now, delivery, received)
    case ResumeDelivery(i) =>
      if !At(w, i).Submitted? || !HasDelivery(At(w, i).seen) then w
      else if At(w, i).seen.bridgeAmountReceived.value < w.ceiling then Put(w, i, Failed)
      else Put(w, i, Funded(At(w, i).seen))
    case Acquire(i) =>
      if At(w, i).Funded? && !HasPurchase(At(w, i).seen)
      then Put(w, i, Acquiring(At(w, i).seen)).(client := Bnb.Step(w.client, Bnb.Claim(i, PaymentKey(w))))
      else w
    case Buying(p) =>
      if p.Claim? && p.key == PaymentKey(w) then w else w.(client := Bnb.Step(w.client, p))
    case CheckpointPurchase(i) => StepCheckpointPurchase(w, i)
    case ResumePurchase(i) =>
      if At(w, i).Funded? && HasPurchase(At(w, i).seen) then Put(w, i, Done(PurchaseOf(At(w, i).seen))) else w
    case Fail(i) => if i in w.attempts && !At(w, i).Done? then Put(w, i, Failed) else w
  }

  /** The intent is built with the target ceiling, whatever else the quote says. */
  function StepSubmit(w: World, i: nat, route: Amounts.Route, intent: Amounts.Intent, quote: Amounts.BridgeQuote,
                      quoteId: string, now: int): World
  {
    if !At(w, i).Loaded? || !w.bridged || HasTransfer(At(w, i).seen) || intent.maximumOut != w.ceiling then w
    else if Amounts.AssertSubmittable(route, intent, quote, now).Err? then Put(w, i, Failed)
    else
      var record := Adapter.RecordFor(BridgeKey(w), quoteId, intent, quote);
      Put(w, i, Submitting(At(w, i).seen)).(bridge := Bridge.Step(w.bridge, Bridge.Claim(i, record)))
  }

  function StepCheckpointTransfer(w: World, i: nat, now: int): World {
    var call := Bridge.At(w.bridge, i);
    if !At(w, i).Submitting? || !call.Succeeded? || call.key != BridgeKey(w) then w
    else
      // The row may keep the transfer of another attempt.
      var kept := Merged(w.row, TransferPatch(call.hash, now));
      Put(w, i, Submitted(At(w, i).seen, kept.bridgeTransferId.value, kept.bridgeSubmittedAt)).(row := kept)
  }

  /** `key` is the row that the store finds for the transfer id. A transfer that is
      still on its way ends the attempt; the job is retried later. */
  function StepObserve(w: World, i: nat, key: string, now: int, delivery: Option<Adapter.Delivery>,
                       received: Option<nat>): World
  {
    if !At(w, i).Submitted? || HasDelivery(At(w, i).seen) then w
    else if TimedOut(w, At(w, i).submittedAt, now) then Put(w, i, Failed)
    else if key !in w.bridge.rows || w.bridge.rows[key].sent != Some(At(w, i).transferId) then w
    else
      var status := Adapter.GetStatus(w.bridge.rows[key], delivery, received);
      if !status.DestinationFunded? then Put(w, i, Failed)
      else
        var kept := Merged(w.row, DeliveryPatch(status.destinationHash, status.amountReceived));
        if kept.bridgeAmountReceived.value < w.ceiling then Put(w, i, Failed).(row := kept)
        else Put(w, i, Funded(At(w, i).seen)).(row := kept)
  }

  function StepCheckpointPurchase(w: World, i: nat): World {
    var call := Bnb.At(w.client, i);
    if !At(w, i).Acquiring? || !call.Succeeded? || call.key != PaymentKey(w) then w
    else
      var kept := Merged(w.row, PurchasePatch(call.payment));
      Put(w, i, Done(PurchaseOf(kept))).(row := kept)
  }

  function Execute(w: World, actions: seq<Action>): World {
    if actions == [] then w
    else Step(Execute(w, actions[..|actions| - 1]), actions[|actions| - 1])
  }

  /** Nobody has worked on this run yet; the stores may hold other runs' rows. */
  ghost predicate IsInitial(w: World) {
    && w.row == Empty()
    && w.attempts == map[]
    && Bridge.Holds(w.bridge)
    && BridgeKey(w) !in w.bridge.rows
    && Bnb.Holds(w.client)
    && w.client.maximum == w.ceiling
    && PaymentKey(w) !in w.client.rows
    && (forall c :: c in w.client.calls && !w.client.calls[c].Refused? ==> w.client.calls[c].key != PaymentKey(w))
    && (forall k :: 0 <= k < |w.client.signatures| ==> w.client.signatures[k].key != PaymentKey(w))
  }

  // ---------------------------------------------------------------- the invariant

  predicate IsCovered(w: World) {
    w.bridged ==> w.row.bridgeAmountReceived.Some? && w.ceiling <= w.row.bridgeAmountReceived.value && HasTransfer(w.row)
  }

  /** The stored transfer is the one made under the run's key, and it was bound to
      deliver at least the ceiling. */
  ghost predicate BridgeHolds(w: World) {
    && Bridge.Holds(w.bridge)
    && (BridgeKey(w) in w.bridge.rows ==> w.ceiling <= w.bridge.rows[BridgeKey(w)].minimumOut)
    && (w.row.bridgeTransferId.Some? <==> w.row.bridgeSourceHash.Some?)
    && (w.row.bridgeTransferId.Some? ==>
          && BridgeKey(w) in w.bridge.rows
          && w.bridge.rows[BridgeKey(w)].sent == w.row.bridgeTransferId == w.row.bridgeSourceHash)
    && (w.row.bridgeAmountReceived.Some? ==> w.ceiling <= w.row.bridgeAmountReceived.value)
  }

  /** The stored purchase is the authorized row's, column by column. */
  predicate PurchaseHolds(w: World) {
    && (w.row.purchaseReceipt.Some? <==> w.row.paymentHash.Some?)
    && (w.row.purchaseReceipt.Some? <==> w.row.targetPaymentAmount.Some?)
    && (HasPurchase(w.row) ==>
          PaymentKey(w) in w.client.rows && w.client.rows[PaymentKey(w)] == Bnb.Authorized(PurchaseOf(w.row)))
  }

  ghost predicate ClientHolds(w: World) {
    && Bnb.Holds(w.client)
    && w.client.maximum == w.ceiling
    && (forall c :: c in w.client.calls && !w.client.calls[c].Refused? && w.client.calls[c].key == PaymentKey(w)
                    ==> IsCovered(w))
    && (forall k :: 0 <= k < |w.client.signatures| && w.client.signatures[k].key == PaymentKey(w) ==> IsCovered(w))
    && PurchaseHolds(w)
  }

  function SeenBy(attempt: Attempt): Row<string> {
    if attempt.Started? || attempt.Done? || attempt.Failed? then Empty() else attempt.seen
  }

  predicate AttemptHolds(w: World, attempt: Attempt) {
    && Extends(SeenBy(attempt), w.row)
    && (attempt.Submitted? ==> w.row.bridgeTransferId == Some(attempt.transferId) && HasTransfer(w.row))
    && (attempt.Funded? || attempt.Acquiring? || attempt.Done? ==> IsCovered(w))
    && (attempt.Done? ==> HasPurchase(w.row) && PurchaseOf(w.row) == attempt.payment)
  }

  ghost predicate Holds(w: World) {
    && BridgeHolds(w)
    && ClientHolds(w)
    && (forall i :: i in w.attempts ==> AttemptHolds(w, w.attempts[i]))
  }

  predicate IsSameRun(before: World, after: World) {
    after.runId == before.runId && after.bridged == before.bridged && after.ceiling == before.ceiling
  }

  lemma PutHolds(w: World, i: nat, attempt: Attempt)
    requires Holds(w) && AttemptHolds(w, attempt)
    ensures Holds(Put(w, i, attempt))
  {
  }

  /** A step of the bridge leaves the run's submitted row and its minimum alone. */
  lemma BridgeStepKeepsRow(b: Bridge.Bridge, a: Bridge.Action, key: string)
    requires Bridge.Holds(b) && (a.Claim? ==> a.record.key != key)
    ensures Bridge.Holds(Bridge.Step(b, a))
    ensures key in Bridge.Step(b, a).rows ==>
              key in b.rows && Bridge.Step(b, a).rows[key].minimumOut == b.rows[key].minimumOut
    ensures key in b.rows && b.rows[key].sent.Some? ==>
              key in Bridge.Step(b, a).rows && Bridge.Step(b, a).rows[key].sent == b.rows[key].sent
  {
    Bridge.StepHolds(b, a);
    if a.c in b.calls {
      assert Bridge.CallHolds(b, b.calls[a.c]);
    }
  }

  lemma BridgingHolds(w: World, b: Bridge.Action)
    requires Holds(w)
    ensures Holds(Step(w, Bridging(b)))
  {
    if !(b.Claim? && b.record.key == BridgeKey(w)) {
      var after := Step(w, Bridging(b));
      BridgeStepKeepsRow(w.bridge, b, BridgeKey(w));
      assert BridgeHolds(after);
      forall i | i in after.attempts ensures AttemptHolds(after, after.attempts[i]) {
        assert AttemptHolds(w, w.attempts[i]);
      }
    }
  }

  lemma ClaimHolds(w: World, i: nat, record: Bridge.Record)
    requires Holds(w) && record.key == BridgeKey(w) && w.ceiling <= record.minimumOut && record.sent.None?
    ensures Holds(w.(bridge := Bridge.Step(w.bridge, Bridge.Claim(i, record))))
  {
    var after := w.(bridge := Bridge.Step(w.bridge, Bridge.Claim(i, record)));
    Bridge.StepHolds(w.bridge, Bridge.Claim(i, record));
    assert BridgeHolds(after);
    forall j | j in after.attempts ensures AttemptHolds(after, after.attempts[j]) {
      assert AttemptHolds(w, w.attempts[j]);
    }
  }

  lemma SubmitHolds(w: World, a: Action)
    requires Holds(w) && a.Submit?
    ensures Holds(Step(w, a))
  {
    if At(w, a.i).Loaded? && w.bridged && !HasTransfer(At(w, a.i).seen) && a.intent.maximumOut == w.ceiling {
      assert AttemptHolds(w, w.attempts[a.i]);
      if Amounts.AssertSubmittable(a.route, a.intent, a.quote, a.now).Err? {
        PutHolds(w, a.i, Failed);
      } else {
        Amounts.SubmittableQuotesAreBounded(a.route, a.intent, a.quote, a.now);
        var record := Adapter.RecordFor(BridgeKey(w), a.quoteId, a.intent, a.quote);
        ClaimHolds(w, a.i, record);
        PutHolds(w.(bridge := Bridge.Step(w.bridge, Bridge.Claim(a.i, record))), a.i, Submitting(At(w, a.i).seen));
      }
    }
  }

  lemma CoverStays(before: World, after: World)
    requires after == before.(row := after.row) && Extends(before.row, after.row) && IsCovered(before)
    ensures IsCovered(after)
  {
  }

  lemma AttemptSurvives(before: World, after: World, attempt: Attempt)
    requires after == before.(row := after.row) && Extends(before.row, after.row) && AttemptHolds(before, attempt)
    ensures AttemptHolds(after, attempt)
  {
    ExtendsTransitively(SeenBy(attempt), before.row, after.row);
  }

  /** Merging columns keeps everything the attempts rely on. */
  lemma RowGrows(before: World, after: World)
    requires Holds(before) && after == before.(row := after.row) && Extends(before.row, after.row)
    requires BridgeHolds(after) && PurchaseHolds(after)
    ensures Holds(after)
  {
    hide BridgeHolds, PurchaseHolds, Extends, Bnb.Holds;
    if IsCovered(before) { CoverStays(before, after); }
    hide IsCovered;
    forall i | i in after.attempts ensures AttemptHolds(after, after.attempts[i]) {
      AttemptSurvives(before, after, before.attempts[i]);
    }
  }

  lemma TransferMergeShape(row: Row<string>, hash: string, now: int)
    ensures var merged := Merged(row, TransferPatch(hash, now));
            && Extends(row, merged)
            && merged == row.(bridgeTransferId := Coalesce(row.bridgeTransferId, Some(hash)),
                              bridgeSourceHash := Coalesce(row.bridgeSourceHash, Some(hash)),
                              bridgeSubmittedAt := Coalesce(row.bridgeSubmittedAt, Some(now)))
  {
  }

  lemma TransferMergeHolds(w: World, hash: string, now: int)
    requires Holds(w) && BridgeKey(w) in w.bridge.rows && w.bridge.rows[BridgeKey(w)].sent == Some(hash)
    ensures var merged := w.(row := Merged(w.row, TransferPatch(hash, now)));
            && Holds(merged) && Extends(w.row, merged.row)
            && merged.row.bridgeTransferId == Some(hash) && HasTransfer(merged.row)
  {
    var merged := w.(row := Merged(w.row, TransferPatch(hash, now)));
    TransferMergeShape(w.row, hash, now);
    hide Merged, TransferPatch, Extends, Bridge.Holds, Bnb.Holds;
    assert BridgeHolds(merged) && PurchaseHolds(merged);
    hide Holds, BridgeHolds, PurchaseHolds;
    RowGrows(w, merged);
  }

  lemma CheckpointTransferHolds(w: World, i: nat, now: int)
    requires Holds(w)
    ensures Holds(Step(w, CheckpointTransfer(i, now)))
  {
    var call := Bridge.At(w.bridge, i);
    if At(w, i).Submitting? && call.Succeeded? && call.key == BridgeKey(w) {
      assert AttemptHolds(w, w.attempts[i]);
      assert Bridge.CallHolds(w.bridge, w.bridge.calls[i]);
      TransferMergeHolds(w, call.hash, now);
      var merged := w.(row := Merged(w.row, TransferPatch(call.hash, now)));
      assert SeenBy(w.attempts[i]) == At(w, i).seen;
      hide Holds, Merged, Extends, TransferPatch, Bridge.CallHolds;
      ExtendsTransitively(At(w, i).seen, w.row, merged.row);
      PutHolds(merged, i, Submitted(At(w, i).seen, call.hash, merged.row.bridgeSubmittedAt));
    }
  }

  /** The transfer id leads to the run's own row, so what it reports as funded
      covers the ceiling. */
  lemma ObservedAmountCovers(w: World, i: nat, key: string, delivery: Option<Adapter.Delivery>, received: Option<nat>)
    requires Holds(w) && At(w, i).Submitted?
    requires key in w.bridge.rows && w.bridge.rows[key].sent == Some(At(w, i).transferId)
    ensures key == BridgeKey(w)
    ensures var status := Adapter.GetStatus(w.bridge.rows[key], delivery, received);
            status.DestinationFunded? ==> w.ceiling <= status.amountReceived
  {
  }

  lemma DeliveryMergeShape(row: Row<string>, hash: string, received: nat)
    ensures var merged := Merged(row, DeliveryPatch(hash, received));
            && Extends(row, merged)
            && merged == row.(bridgeDestinationHash := Coalesce(row.bridgeDestinationHash, Some(hash)),
                              bridgeAmountReceived := Coalesce(row.bridgeAmountReceived, Some(received)))
  {
  }

  lemma DeliveryMergeHolds(w: World, hash: string, received: nat)
    requires Holds(w) && w.ceiling <= received
    ensures var merged := w.(row := Merged(w.row, DeliveryPatch(hash, received)));
            && Holds(merged) && Extends(w.row, merged.row)
            && w.ceiling <= merged.row.bridgeAmountReceived.value
            && HasTransfer(merged.row) == HasTransfer(w.row)
  {
    var merged := w.(row := Merged(w.row, DeliveryPatch(hash, received)));
    DeliveryMergeShape(w.row, hash, received);
    hide Merged, DeliveryPatch, Extends, Bridge.Holds, Bnb.Holds;
    assert BridgeHolds(merged) && PurchaseHolds(merged);
    hide Holds, BridgeHolds, PurchaseHolds;
    RowGrows(w, merged);
  }

  lemma ObserveHolds(w: World, a: Action)
    requires Holds(w) && a.Observe?
    ensures Holds(Step(w, a))
  {
    if At(w, a.i).Submitted? && !HasDelivery(At(w, a.i).seen) {
      if TimedOut(w, At(w, a.i).submittedAt, a.now) {
        PutHolds(w, a.i, Failed);
      } else if a.key in w.bridge.rows && w.bridge.rows[a.key].sent == Some(At(w, a.i).transferId) {
        DeliveryHolds(w, a);
      }
    }
  }

  lemma DeliveryHolds(w: World, a: Action)
    requires Holds(w) && a.Observe? && At(w, a.i).Submitted?
    requires !HasDelivery(At(w, a.i).seen) && !TimedOut(w, At(w, a.i).submittedAt, a.now)
    requires a.key in w.bridge.rows && w.bridge.rows[a.key].sent == Some(At(w, a.i).transferId)
    ensures Holds(Step(w, a))
  {
    var status := Adapter.GetStatus(w.bridge.rows[a.key], a.delivery, a.received);
    if status.DestinationFunded? {
      ObservedAmountCovers(w, a.i, a.key, a.delivery, a.received);
      FundedHolds(w, a.i, status.destinationHash, status.amountReceived);
      hide Holds, Adapter.GetStatus, Merged, DeliveryPatch;
      var merged := w.(row := Merged(w.row, DeliveryPatch(status.destinationHash, status.amountReceived)));
      assert Step(w, a) == Put(merged, a.i, Funded(At(w, a.i).seen));
    } else {
      PutHolds(w, a.i, Failed);
    }
  }

  lemma FundedHolds(w: World, i: nat, hash: string, received: nat)
    requires Holds(w) && At(w, i).Submitted? && w.ceiling <= received
    ensures var merged := w.(row := Merged(w.row, DeliveryPatch(hash, received)));
            && merged.row.bridgeAmountReceived.Some? && w.ceiling <= merged.row.bridgeAmountReceived.value
            && Holds(Put(merged, i, Funded(At(w, i).seen)))
  {
    var merged := w.(row := Merged(w.row, DeliveryPatch(hash, received)));
    assert AttemptHolds(w, w.attempts[i]);
    DeliveryMergeHolds(w, hash, received);
    hide Holds, Merged, DeliveryPatch;
    DeliveryMergeShape(w.row, hash, received);
    AttemptSurvives(w, merged, w.attempts[i]);
    PutHolds(merged, i, Funded(At(w, i).seen));
  }

  lemma BuyingHolds(w: World, p: Bnb.Action)
    requires Holds(w)
    requires p.Claim? && p.key == PaymentKey(w) ==> IsCovered(w)
    ensures Holds(w.(client := Bnb.Step(w.client, p)))
  {
    var after := w.(client := Bnb.Step(w.client, p));
    Bnb.StepHolds(w.client, p);
    ClientStepKeepsKey(w.client, p, PaymentKey(w));
    if HasPurchase(w.row) {
      Bnb.AuthorizedForGood(w.client, [p], PaymentKey(w));
      assert [p][..0] == [];
      assert Bnb.Execute(w.client, [p]) == Bnb.Step(Bnb.Execute(w.client, [p][..0]), p);
    }
    forall i | i in after.attempts ensures AttemptHolds(after, after.attempts[i]) {
      assert AttemptHolds(w, w.attempts[i]);
    }
  }

  predicate Deals(b: Bnb.Client, key: string) {
    || (exists c :: c in b.calls && !b.calls[c].Refused? && b.calls[c].key == key)
    || (exists k :: 0 <= k < |b.signatures| && b.signatures[k].key == key)
  }

  /** Only a claim on a key starts dealing in it. */
  lemma ClientStepKeepsKey(b: Bnb.Client, p: Bnb.Action, key: string)
    ensures Deals(Bnb.Step(b, p), key) ==> Deals(b, key) || (p.Claim? && p.key == key)
  {
  }

  lemma AcquireHolds(w: World, i: nat)
    requires Holds(w)
    ensures Holds(Step(w, Acquire(i)))
  {
    if At(w, i).Funded? && !HasPurchase(At(w, i).seen) {
      assert AttemptHolds(w, w.attempts[i]);
      var claim := Bnb.Claim(i, PaymentKey(w));
      BuyingHolds(w, claim);
      PutHolds(w.(client := Bnb.Step(w.client, claim)), i, Acquiring(At(w, i).seen));
    }
  }

  lemma PurchaseMergeShape(row: Row<string>, payment: Bnb.Payment)
    ensures var merged := Merged(row, PurchasePatch(payment));
            && Extends(row, merged)
            && merged == row.(purchaseReceipt := Coalesce(row.purchaseReceipt, Some(payment.receipt)),
                              paymentHash := Coalesce(row.paymentHash, Some(payment.proofHash)),
                              targetPaymentAmount := Coalesce(row.targetPaymentAmount, Some(payment.amount)),
                              paymentHeaderName := Coalesce(row.paymentHeaderName, Some(PaymentSignature)))
  {
  }

  lemma PurchaseMergeHolds(w: World, payment: Bnb.Payment)
    requires Holds(w)
    requires PaymentKey(w) in w.client.rows && w.client.rows[PaymentKey(w)] == Bnb.Authorized(payment)
    ensures var merged := w.(row := Merged(w.row, PurchasePatch(payment)));
            && Holds(merged) && Extends(w.row, merged.row)
            && HasPurchase(merged.row) && PurchaseOf(merged.row) == payment
  {
    var merged := w.(row := Merged(w.row, PurchasePatch(payment)));
    PurchaseMergeShape(w.row, payment);
    hide Merged, PurchasePatch, Extends, Bridge.Holds, Bnb.Holds;
    assert BridgeHolds(merged) && PurchaseHolds(merged);
    hide Holds, BridgeHolds;
    RowGrows(w, merged);
  }

  lemma CheckpointPurchaseHolds(w: World, i: nat)
    requires Holds(w)
    ensures Holds(Step(w, CheckpointPurchase(i)))
  {
    var call := Bnb.At(w.client, i);
    if At(w, i).Acquiring? && call.Succeeded? && call.key == PaymentKey(w) {
      assert AttemptHolds(w, w.attempts[i]);
      assert Bnb.CallHolds(w.client, w.client.calls[i]);
      PurchaseMergeHolds(w, call.payment);
      PutHolds(w.(row := Merged(w.row, PurchasePatch(call.payment))), i, Done(call.payment));
    }
  }

  predicate IsLocal(a: Action) {
    a.Start? || a.Load? || a.SkipFunding? || a.ResumeTransfer? || a.ResumeDelivery? || a.ResumePurchase? || a.Fail?
  }

  predicate MovesSoundly(w: World, a: Action)
    requires IsLocal(a)
  {
    && a.i in Step(w, a).attempts && AttemptHolds(w, Step(w, a).attempts[a.i])
    && Step(w, a) == Put(w, a.i, Step(w, a).attempts[a.i])
  }

  lemma FreshStepMovesSoundly(w: World, a: Action)
    requires (a.Start? || a.Load? || a.SkipFunding? || a.Fail?) && Step(w, a) != w
    requires a.i in w.attempts ==> AttemptHolds(w, w.attempts[a.i])
    ensures MovesSoundly(w, a)
  {
  }

  lemma ResumeMovesSoundly(w: World, a: Action)
    requires BridgeHolds(w) && PurchaseHolds(w) && Step(w, a) != w
    requires a.ResumeTransfer? || a.ResumeDelivery? || a.ResumePurchase?
    requires a.i in w.attempts ==> AttemptHolds(w, w.attempts[a.i])
    ensures MovesSoundly(w, a)
  {
    hide Bridge.Holds;
  }

  /** Steps that move one attempt along and touch nothing else. */
  lemma LocalStepHolds(w: World, a: Action)
    requires Holds(w) && IsLocal(a)
    ensures Holds(Step(w, a))
  {
    var after := Step(w, a);
    if after != w {
      if a.i in w.attempts { assert AttemptHolds(w, w.attempts[a.i]); }
      assert BridgeHolds(w) && PurchaseHolds(w);
      hide Holds, Step, AttemptHolds, BridgeHolds, PurchaseHolds;
      if a.ResumeTransfer? || a.ResumeDelivery? || a.ResumePurchase? {
        ResumeMovesSoundly(w, a);
      } else {
        FreshStepMovesSoundly(w, a);
      }
      PutHolds(w, a.i, after.attempts[a.i]);
    }
  }

  lemma BuyingStepHolds(w: World, p: Bnb.Action)
    requires Holds(w)
    ensures Holds(Step(w, Buying(p)))
  {
    if !(p.Claim? && p.key == PaymentKey(w)) { BuyingHolds(w, p); }
  }

  lemma StepHolds(w: World, a: Action)
    requires Holds(w)
    ensures Holds(Step(w, a))
  {
    hide Holds, Step;
    match a
    case Submit(_, _, _, _, _, _) => SubmitHolds(w, a);
    case Bridging(b) => BridgingHolds(w, b);
    case CheckpointTransfer(i, now) => CheckpointTransferHolds(w, i, now);
    case Observe(_, _, _, _, _) => ObserveHolds(w, a);
    case Acquire(i) => AcquireHolds(w, i);
    case Buying(p) => BuyingStepHolds(w, p);
    case CheckpointPurchase(i) => CheckpointPurchaseHolds(w, i);
    case _ => LocalStepHolds(w, a);
  }

  lemma StepKeepsRun(w: World, a: Action)
    ensures IsSameRun(w, Step(w, a))
  {
  }

  lemma {:induction false} EveryScheduleHolds(w: World, actions: seq<Action>)
    requires Holds(w)
    ensures Holds(Execute(w, actions)) && IsSameRun(w, Execute(w, actions))
  {
    if actions != [] {
      EveryScheduleHolds(w, actions[..|actions| - 1]);
      StepHolds(Execute(w, actions[..|actions| - 1]), actions[|actions| - 1]);
      StepKeepsRun(Execute(w, actions[..|actions| - 1]), actions[|actions| - 1]);
    }
  }

  lemma InitialHolds(w: World)
    requires IsInitial(w)
    ensures Holds(w)
  {
  }

  // ---------------------------------------------------------------- what every schedule guarantees

  /** Whenever an authorization for the target exists, and at every later point, the
      delivery has been checkpointed: amount signed, ceiling and amount received are
      in that order. */
  lemma SignedOnlyAfterDelivery(w: World, actions: seq<Action>, k: nat)
    requires IsInitial(w) && w.bridged
    requires k < |Execute(w, actions).client.signatures|
    requires Execute(w, actions).client.signatures[k].key == PaymentKey(w)
    ensures var after := Execute(w, actions);
            && after.row.bridgeAmountReceived.Some?
            && after.client.signatures[k].amount <= w.ceiling <= after.row.bridgeAmountReceived.value
  {
    InitialHolds(w);
    EveryScheduleHolds(w, actions);
    var after := Execute(w, actions);
    assert Bnb.SignatureHolds(after.client, after.client.signatures[k]);
  }

  /** The transfer that paid for it is the only one the run ever made. */
  lemma DeliveryIsTheRunsOneTransfer(w: World, actions: seq<Action>, k: nat)
    requires IsInitial(w) && HasTransfer(Execute(w, actions).row)
    requires k < |Execute(w, actions).bridge.sends| && Execute(w, actions).bridge.sends[k].key == BridgeKey(w)
    ensures Some(Execute(w, actions).bridge.sends[k].hash) == Execute(w, actions).row.bridgeTransferId
  {
    InitialHolds(w);
    EveryScheduleHolds(w, actions);
    hide Execute, IsInitial;
    OneTransfer(Execute(w, actions), k);
  }

  lemma OneTransfer(w: World, k: nat)
    requires BridgeHolds(w) && HasTransfer(w.row)
    requires k < |w.bridge.sends| && w.bridge.sends[k].key == BridgeKey(w)
    ensures Some(w.bridge.sends[k].hash) == w.row.bridgeTransferId
  {
  }

  /** The delivery deadline counts from the checkpointed submission. A delivery seen
      later is not even looked at; one that was checkpointed in time still counts. */
  lemma LateDeliveryIsRefused(w: World, a: Action)
    requires a.Observe? && At(w, a.i).Submitted? && TimedOut(w, At(w, a.i).submittedAt, a.now)
    ensures !HasDelivery(At(w, a.i).seen) ==>
              At(Step(w, a), a.i) == Failed && Step(w, a).row == w.row && Step(w, a).client == w.client
    ensures HasDelivery(At(w, a.i).seen) && w.ceiling <= At(w, a.i).seen.bridgeAmountReceived.value ==>
              At(Step(w, ResumeDelivery(a.i)), a.i) == Funded(At(w, a.i).seen)
  {
  }

  /** Every attempt that gets through reports one and the same purchase, the one
      the row keeps and the client authorized, within the ceiling. */
  lemma AttemptsAgreeOnPurchase(w: World, actions: seq<Action>, i: nat, j: nat)
    requires IsInitial(w) && At(Execute(w, actions), i).Done? && At(Execute(w, actions), j).Done?
    ensures At(Execute(w, actions), i) == At(Execute(w, actions), j)
    ensures At(Execute(w, actions), i).payment.amount <= w.ceiling
    ensures var after := Execute(w, actions);
            PaymentKey(w) in after.client.rows && after.client.rows[PaymentKey(w)] == Bnb.Authorized(At(after, i).payment)
  {
    InitialHolds(w);
    EveryScheduleHolds(w, actions);
    var after := Execute(w, actions);
    assert AttemptHolds(after, after.attempts[i]) && AttemptHolds(after, after.attempts[j]);
    assert Bnb.IsSound(after.client, At(after, i).payment);
  }

  // ---------------------------------------------------------------- one attempt

  lemma ExecuteOneMore(w: World, actions: seq<Action>, a: Action)
    ensures Execute(w, actions + [a]) == Step(Execute(w, actions), a)
  {
  }

  class Runtime {
    var world: World
    ghost var origin: World
    ghost var trace: seq<Action>

    ghost predicate Valid()
      reads this
    {
      IsInitial(origin) && world == Execute(origin, trace)
    }

    constructor (start: World)
      requires IsInitial(start)
      ensures Valid() && world == start && trace == []
    {
      world, origin, trace := start, start, [];
    }

    method Perform(a: Action)
      requires Valid()
      modifies this
      ensures Valid() && world == Step(old(world), a)
      ensures origin == old(origin) && trace == old(trace) + [a]
    {
      hide Step, Execute, IsInitial;
      ExecuteOneMore(origin, trace, a);
      world := Step(world, a);
      trace := trace + [a];
    }

    method Await(others: seq<Action>, me: nat)
      requires Valid() && OthersOnly(others, me)
      modifies this
      ensures Valid() && origin == old(origin) && trace == old(trace) + others
      ensures me in old(world).attempts ==> me in world.attempts && world.attempts[me] == old(world).attempts[me]
      ensures me !in old(world).attempts ==> me !in world.attempts
      ensures IsSameRun(old(world), world)
    {
      ghost var before := trace;
      for k := 0 to |others|
        invariant Valid() && origin == old(origin) && trace == before + others[..k]
        invariant me in old(world).attempts ==> me in world.attempts && world.attempts[me] == old(world).attempts[me]
        invariant me !in old(world).attempts ==> me !in world.attempts
        invariant IsSameRun(old(world), world)
      {
        OthersLeaveMe(world, others[k], me);
        Perform(others[k]);
        assert others[..k + 1] == others[..k] + [others[k]];
      }
      assert others[..|others|] == others;
    }
  }

  /** The bridge adapter and the payment client do their steps by themselves. */
  predicate Concerns(a: Action, me: nat) {
    !a.Bridging? && !a.Buying? && a.i == me
  }

  predicate OthersOnly(actions: seq<Action>, me: nat) {
    forall k :: 0 <= k < |actions| ==> !Concerns(actions[k], me)
  }

  lemma OthersLeaveMe(w: World, a: Action, me: nat)
    requires !Concerns(a, me)
    ensures me in w.attempts <==> me in Step(w, a).attempts
    ensures me in w.attempts ==> Step(w, a).attempts[me] == w.attempts[me]
    ensures IsSameRun(w, Step(w, a))
  {
    hide Merged, TransferPatch, DeliveryPatch, PurchasePatch, BridgeKey, PaymentKey;
    hide Bridge.Step, Bnb.Step, Adapter.GetStatus, Amounts.AssertSubmittable;
  }

  /** What the rest of the world answers to this attempt. */
  datatype Answers = Answers(
    route: Amounts.Route,
    intent: Amounts.Intent,
    quote: Amounts.BridgeQuote,
    quoteId: string,
    now: int,
    foundKey: string,
    delivery: Option<Adapter.Delivery>,
    received: Option<nat>)

  /** An attempt that leaves the phase does so with the run's one purchase, after
      the delivery that covers it. */
  method RunCrossChainProcurementPhase(rt: Runtime, me: nat, answers: Answers, others: nat -> seq<Action>)
    returns (purchase: Option<Bnb.Payment>)
    requires rt.Valid() && me !in rt.world.attempts && answers.intent.maximumOut == rt.world.ceiling
    requires forall k :: OthersOnly(others(k), me)
    modifies rt
    ensures rt.Valid() && rt.origin == old(rt.origin)
    ensures purchase.Some? ==>
              && At(rt.world, me) == Done(purchase.value)
              && HasPurchase(rt.world.row) && PurchaseOf(rt.world.row) == purchase.value
              && IsCovered(rt.world)
    ensures purchase.None? ==> !At(rt.world, me).Done?
  {
    rt.Perform(Start(me));
    rt.Await(others(0), me);
    rt.Perform(Load(me));
    var checkpoint := At(rt.world, me).seen;
    rt.Await(others(1), me);
    var funded := FundDestination(rt, me, checkpoint, answers, others);
    if !funded { return None; }
    rt.Await(others(2), me);
    purchase := AuthorizeTargetPayment(rt, me, checkpoint, others);
    if purchase.Some? {
      InitialHolds(rt.origin);
      EveryScheduleHolds(rt.origin, rt.trace);
      assert AttemptHolds(rt.world, rt.world.attempts[me]);
    }
  }

  /** Nothing to do in PREFUNDED; otherwise submit or resume the transfer, then see
      its delivery or resume what was seen. */
  method FundDestination(rt: Runtime, me: nat, checkpoint: Row<string>, answers: Answers, others: nat -> seq<Action>)
    returns (funded: bool)
    requires rt.Valid() && At(rt.world, me) == Loaded(checkpoint) && answers.intent.maximumOut == rt.world.ceiling
    requires forall k :: OthersOnly(others(k), me)
    modifies rt
    ensures rt.Valid() && rt.origin == old(rt.origin)
    ensures funded ==> At(rt.world, me) == Funded(checkpoint)
    ensures !funded ==> !At(rt.world, me).Done?
    ensures !rt.world.bridged ==> funded
    ensures rt.world.bridged && HasTransfer(checkpoint) && HasDelivery(checkpoint) ==>
              (funded <==> rt.world.ceiling <= checkpoint.bridgeAmountReceived.value)
    ensures rt.world.bridged && !HasDelivery(checkpoint) && funded ==>
              && Adapter.IsExecuted(answers.delivery) && answers.received.Some?
              && (HasTransfer(checkpoint) && checkpoint.bridgeSubmittedAt.Some? ==>
                    answers.now <= checkpoint.bridgeSubmittedAt.value + rt.world.maximumWait)
  {
    hide Bridge.Step, Bnb.Step, Amounts.AssertSubmittable, Execute, IsInitial;
    hide Merged, TransferPatch, PurchasePatch, BridgeKey, PaymentKey, StepSubmit, StepCheckpointTransfer;
    if !rt.world.bridged {
      rt.Perform(SkipFunding(me));
      return true;
    }
    var submitted := SubmitTransfer(rt, me, checkpoint, answers, others);
    if !submitted { return false; }
    rt.Await(others(3), me);
    if HasDelivery(checkpoint) {
      rt.Perform(ResumeDelivery(me));
    } else {
      rt.Perform(Observe(me, answers.foundKey, answers.now, answers.delivery, answers.received));
    }
    return At(rt.world, me).Funded?;
  }

  method SubmitTransfer(rt: Runtime, me: nat, checkpoint: Row<string>, answers: Answers, others: nat -> seq<Action>)
    returns (submitted: bool)
    requires rt.Valid() && rt.world.bridged && At(rt.world, me) == Loaded(checkpoint)
    requires answers.intent.maximumOut == rt.world.ceiling
    requires forall k :: OthersOnly(others(k), me)
    modifies rt
    ensures rt.Valid() && rt.origin == old(rt.origin)
    ensures submitted ==> At(rt.world, me).Submitted? && At(rt.world, me).seen == checkpoint
    ensures !submitted ==> !At(rt.world, me).Done?
    ensures HasTransfer(checkpoint) ==>
              && submitted && At(rt.world, me).submittedAt == checkpoint.bridgeSubmittedAt
              && Some(At(rt.world, me).transferId) == checkpoint.bridgeTransferId
    ensures !HasTransfer(checkpoint) ==>
              (submitted <==>
                 && Amounts.AssertSubmittable(answers.route, answers.intent, answers.quote, answers.now).Ok?
                 && Bridge.At(rt.world.bridge, me).Succeeded? && Bridge.At(rt.world.bridge, me).key == BridgeKey(rt.world))
    ensures IsSameRun(old(rt.world), rt.world)
  {
    hide Bnb.Step, Adapter.GetStatus, Amounts.AssertSubmittable, Execute, IsInitial;
    hide Merged, TransferPatch, DeliveryPatch, PurchasePatch, PaymentKey, StepObserve, StepCheckpointPurchase;
    if HasTransfer(checkpoint) {
      rt.Perform(ResumeTransfer(me));
      return true;
    }
    rt.Perform(Submit(me, answers.route, answers.intent, answers.quote, answers.quoteId, answers.now));
    if At(rt.world, me).Failed? { return false; }
    rt.Await(others(4), me);
    rt.Perform(CheckpointTransfer(me, answers.now));
    return At(rt.world, me).Submitted?;
  }

  method AuthorizeTargetPayment(rt: Runtime, me: nat, checkpoint: Row<string>, others: nat -> seq<Action>)
    returns (purchase: Option<Bnb.Payment>)
    requires rt.Valid() && At(rt.world, me) == Funded(checkpoint)
    requires forall k :: OthersOnly(others(k), me)
    modifies rt
    ensures rt.Valid() && rt.origin == old(rt.origin)
    ensures purchase.Some? ==> At(rt.world, me) == Done(purchase.value)
    ensures purchase.None? ==> !At(rt.world, me).Done?
    ensures HasPurchase(checkpoint) ==> purchase == Some(PurchaseOf(checkpoint))
    ensures !HasPurchase(checkpoint) ==>
              (purchase.Some? <==>
                 Bnb.At(rt.world.client, me).Succeeded? && Bnb.At(rt.world.client, me).key == PaymentKey(rt.world))
  {
    hide Bridge.Step, Bnb.Step, Adapter.GetStatus, Amounts.AssertSubmittable, Execute, IsInitial;
    hide Merged, TransferPatch, DeliveryPatch, BridgeKey;
    if HasPurchase(checkpoint) {
      rt.Perform(ResumePurchase(me));
      return Some(PurchaseOf(checkpoint));
    }
    rt.Perform(Acquire(me));
    rt.Await(others(5), me);
    rt.Perform(CheckpointPurchase(me));
    return if At(rt.world, me).Done? then Some(At(rt.world, me).payment) else None;
  }
}
