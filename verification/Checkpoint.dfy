/** The orchestrator's checkpoint row. `merge` upserts it column by column, and
    the first writer of a column wins. */
module Checkpoint {
  import opened Wrappers

  datatype HeaderName = XPayment | PaymentSignature

  datatype Plan = Plan(riskLevel: string, scenarios: seq<string>, toolBudget: nat, rationale: string)

  /** The columns that the procurement phases read back. The same shape is a patch:
      an absent column is one the caller does not write. `R` is what the receipt
      column holds: the decoded header on the home chain, the signature header's
      text on a remote one. */
  datatype Row<R> = Row(
    riskLevel: Option<string>,
    scenarios: Option<seq<string>>,
    toolBudget: Option<nat>,
    rationale: Option<string>,
    paymentHash: Option<string>,
    purchaseReceipt: Option<R>,
    paymentHeaderName: Option<HeaderName>,
    bridgeTransferId: Option<string>,
    bridgeSourceHash: Option<string>,
    bridgeSubmittedAt: Option<int>,
    bridgeDestinationHash: Option<string>,
    bridgeAmountReceived: Option<nat>,
    targetPaymentAmount: Option<nat>,
    refundNonce: Option<nat>,
    refundHash: Option<string>)

  function Empty<R>(): Row<R> {
    Row(None, None, None, None, None, None, None, None, None, None, None, None, None, None, None)
  }

  /** COALESCE: what is stored stays. */
  function Coalesce<T>(stored: Option<T>, excluded: Option<T>): Option<T> {
    if stored.Some? then stored else excluded
  }

  function Merged<R>(row: Row<R>, patch: Row<R>): Row<R> {
    Row(Coalesce(row.riskLevel, patch.riskLevel),
        Coalesce(row.scenarios, patch.scenarios),
        Coalesce(row.toolBudget, patch.toolBudget),
        Coalesce(row.rationale, patch.rationale),
        Coalesce(row.paymentHash, patch.paymentHash),
        Coalesce(row.purchaseReceipt, patch.purchaseReceipt),
        Coalesce(row.paymentHeaderName, patch.paymentHeaderName),
        Coalesce(row.bridgeTransferId, patch.bridgeTransferId),
        Coalesce(row.bridgeSourceHash, patch.bridgeSourceHash),
        Coalesce(row.bridgeSubmittedAt, patch.bridgeSubmittedAt),
        Coalesce(row.bridgeDestinationHash, patch.bridgeDestinationHash),
        Coalesce(row.bridgeAmountReceived, patch.bridgeAmountReceived),
        Coalesce(row.targetPaymentAmount, patch.targetPaymentAmount),
        Coalesce(row.refundNonce, patch.refundNonce),
        Coalesce(row.refundHash, patch.refundHash))
  }

  function PlanPatch<R>(plan: Plan): Row<R> {
    Empty<R>().(riskLevel := Some(plan.riskLevel), scenarios := Some(plan.scenarios),
           toolBudget := Some(plan.toolBudget), rationale := Some(plan.rationale))
  }

  /** The plan is read back only whole, and an empty risk level or rationale reads
      as no plan. */
  function PlanOf<R>(row: Row<R>): Option<Plan> {
    if row.riskLevel.Some? && row.riskLevel.value != "" && row.scenarios.Some? && row.toolBudget.Some?
       && row.rationale.Some? && row.rationale.value != ""
    then Some(Plan(row.riskLevel.value, row.scenarios.value, row.toolBudget.value, row.rationale.value))
    else None
  }

  class CheckpointStore<R(==)> {
    var rows: map<string, Row<R>>

    constructor ()
      ensures rows == map[]
    {
      rows := map[];
    }

    function Load(id: string): (row: Row<R>)
      reads this
    {
      if id in rows then rows[id] else Empty()
    }

    /** Returns the row as it ended up, not the caller's patch: whatever was set
        before stays, and only what was not is taken from the patch. */
    method Merge(id: string, patch: Row<R>) returns (kept: Row<R>)
      modifies this
      ensures Load(id) == kept && forall other :: other != id ==> Load(other) == old(Load(other))
      ensures Extends(old(Load(id)), kept)
      ensures IsFilledFrom(old(Load(id)), patch, kept)
    {
      kept := Merged(Load(id), patch);
      rows := rows[id := kept];
    }
  }

  // ---------------------------------------------------------------- write once

  predicate Kept<T(==)>(before: Option<T>, after: Option<T>) {
    before.Some? ==> after == before
  }

  /** Every column that was set still holds the same value. */
  predicate Extends<R(==)>(before: Row<R>, after: Row<R>) {
    && Kept(before.riskLevel, after.riskLevel)
    && Kept(before.scenarios, after.scenarios)
    && Kept(before.toolBudget, after.toolBudget)
    && Kept(before.rationale, after.rationale)
    && Kept(before.paymentHash, after.paymentHash)
    && Kept(before.purchaseReceipt, after.purchaseReceipt)
    && Kept(before.paymentHeaderName, after.paymentHeaderName)
    && Kept(before.bridgeTransferId, after.bridgeTransferId)
    && Kept(before.bridgeSourceHash, after.bridgeSourceHash)
    && Kept(before.bridgeSubmittedAt, after.bridgeSubmittedAt)
    && Kept(before.bridgeDestinationHash, after.bridgeDestinationHash)
    && Kept(before.bridgeAmountReceived, after.bridgeAmountReceived)
    && Kept(before.targetPaymentAmount, after.targetPaymentAmount)
    && Kept(before.refundNonce, after.refundNonce)
    && Kept(before.refundHash, after.refundHash)
  }

  predicate Filled<T(==)>(before: Option<T>, patch: Option<T>, after: Option<T>) {
    before.None? ==> after == patch
  }

  /** Every column that was not set holds what the patch has for it. */
  predicate IsFilledFrom<R(==)>(before: Row<R>, patch: Row<R>, after: Row<R>) {
    && Filled(before.riskLevel, patch.riskLevel, after.riskLevel)
    && Filled(before.scenarios, patch.scenarios, after.scenarios)
    && Filled(before.toolBudget, patch.toolBudget, after.toolBudget)
    && Filled(before.rationale, patch.rationale, after.rationale)
    && Filled(before.paymentHash, patch.paymentHash, after.paymentHash)
    && Filled(before.purchaseReceipt, patch.purchaseReceipt, after.purchaseReceipt)
    && Filled(before.paymentHeaderName, patch.paymentHeaderName, after.paymentHeaderName)
    && Filled(before.bridgeTransferId, patch.bridgeTransferId, after.bridgeTransferId)
    && Filled(before.bridgeSourceHash, patch.bridgeSourceHash, after.bridgeSourceHash)
    && Filled(before.bridgeSubmittedAt, patch.bridgeSubmittedAt, after.bridgeSubmittedAt)
    && Filled(before.bridgeDestinationHash, patch.bridgeDestinationHash, after.bridgeDestinationHash)
    && Filled(before.bridgeAmountReceived, patch.bridgeAmountReceived, after.bridgeAmountReceived)
    && Filled(before.targetPaymentAmount, patch.targetPaymentAmount, after.targetPaymentAmount)
    && Filled(before.refundNonce, patch.refundNonce, after.refundNonce)
    && Filled(before.refundHash, patch.refundHash, after.refundHash)
  }

  /** The two together say all there is to say about a merge. */
  lemma MergeIsDetermined<R>(before: Row<R>, patch: Row<R>, after: Row<R>)
    ensures Extends(before, after) && IsFilledFrom(before, patch, after) <==> after == Merged(before, patch)
  {
  }

  /** A plan that is checkpointed first reads back whole, unless its risk level or
      rationale is empty. */
  lemma PlanReadsBack<R>(row: Row<R>, plan: Plan)
    requires row.riskLevel.None? && row.scenarios.None? && row.toolBudget.None? && row.rationale.None?
    ensures PlanOf(Merged(row, PlanPatch(plan))) == if plan.riskLevel == "" || plan.rationale == "" then None else Some(plan)
    ensures var merged := Merged(row, PlanPatch(plan));
            row == merged.(riskLevel := None, scenarios := None, toolBudget := None, rationale := None)
  {
  }

  function MergeAll<R>(row: Row<R>, patches: seq<Row<R>>): Row<R> {
    if patches == [] then row else Merged(MergeAll(row, patches[..|patches| - 1]), patches[|patches| - 1])
  }

  /** Whatever is merged later, no column that a caller read back ever changes: all
      callers agree on it for good. */
  lemma {:induction false} MergedColumnsNeverChange<R>(row: Row<R>, patches: seq<Row<R>>, n: nat)
    requires n <= |patches|
    ensures Extends(MergeAll(row, patches[..n]), MergeAll(row, patches))
  {
    if n < |patches| {
      var init := patches[..|patches| - 1];
      MergedColumnsNeverChange(row, init, n);
      assert init[..n] == patches[..n];
    } else {
      assert patches[..n] == patches;
    }
  }

  lemma ExtendsTransitively<R>(a: Row<R>, b: Row<R>, c: Row<R>)
    requires Extends(a, b) && Extends(b, c)
    ensures Extends(a, c)
  {
  }

  /** The first patch that writes a column decides it. */
  function FirstWriter<R, T>(patches: seq<Row<R>>, column: Row<R> -> Option<T>): Option<T> {
    if patches == [] then None
    else Coalesce(column(patches[0]), FirstWriter(patches[1..], column))
  }

  predicate IsColumn<R, T(==)>(column: Row<R> -> Option<T>, a: Row<R>, b: Row<R>) {
    column(Merged(a, b)) == Coalesce(column(a), column(b))
  }

  lemma {:induction false} FirstWriterAppend<R, T>(patches: seq<Row<R>>, last: Row<R>, column: Row<R> -> Option<T>)
    ensures FirstWriter(patches + [last], column) == Coalesce(FirstWriter(patches, column), column(last))
  {
    if patches == [] {
      assert FirstWriter([last], column) == Coalesce(column(last), FirstWriter([last][1..], column));
    } else {
      assert (patches + [last])[1..] == patches[1..] + [last];
      FirstWriterAppend(patches[1..], last, column);
    }
  }

  /** After any merges into an empty row, a column holds what its first writer
      wrote, for every column that merges by COALESCE. */
  lemma {:induction false} FirstWriterWins<R(!new), T>(patches: seq<Row<R>>, column: Row<R> -> Option<T>)
    requires forall a, b :: IsColumn(column, a, b)
    requires column(Empty()) == None
    ensures column(MergeAll(Empty(), patches)) == FirstWriter(patches, column)
  {
    if patches != [] {
      var init, last := patches[..|patches| - 1], patches[|patches| - 1];
      FirstWriterWins(init, column);
      FirstWriterAppend(init, last, column);
      assert patches == init + [last];
      assert IsColumn(column, MergeAll(Empty(), init), last);
    }
  }

  /** The payment that every attempt of a run ends up using is the one signed by
      the first attempt to checkpoint it. */
  lemma FirstPaymentWins<R(!new)>(patches: seq<Row<R>>)
    ensures MergeAll(Empty(), patches).purchaseReceipt == FirstWriter(patches, (row: Row<R>) => row.purchaseReceipt)
    ensures MergeAll(Empty(), patches).refundNonce == FirstWriter(patches, (row: Row<R>) => row.refundNonce)
    ensures MergeAll(Empty(), patches).bridgeTransferId == FirstWriter(patches, (row: Row<R>) => row.bridgeTransferId)
  {
    FirstWriterWins(patches, (row: Row<R>) => row.purchaseReceipt);
    FirstWriterWins(patches, (row: Row<R>) => row.refundNonce);
    FirstWriterWins(patches, (row: Row<R>) => row.bridgeTransferId);
  }
}
