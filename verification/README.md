# Shipyard402 money protocol: a Dafny model

Shipyard402 sells test runs of paid services. A customer pays for a run, an orchestrator buys the
tested resource on the run's behalf, refunds what is left, probes the target, and attests what it
saw. Several processes do this at once over shared database rows and a blockchain, and any of them
may crash between two awaits. This project models that protocol and proves what every interleaving
keeps. `dafny verify dfyconfig.toml` checks all of it.

How it is built:

- Code made of expressions is modelled by functions (`RunDomain`, `CrossChainMachine`,
  `CanonicalJson`, the arithmetic modules). Stores, queues, the token and the merchant adapter are
  classes whose methods state their whole new state.
- What runs concurrently is a state machine: a `Step` function for one atomic step of anybody, an
  invariant, and theorems about `Execute` over an arbitrary list of steps. A crash is a session or
  attempt that never acts again. The phase modules (`ProcurementPhase`, `CrossChainPhase`,
  `StargateAdapter`, `BnbPurchases.Acquire`, `ReplayRunner`) then follow the original methods await
  by await and let arbitrary steps of others happen at each await.
- One SQL statement or transaction is one atomic step. Table defaults that the schema supplies are
  explicit: jobs start with no attempts and allow at least one, run ids and request keys are unique.

| modules | subject |
|---|---|
| `RunDomain`, `RunStore`, `RunSystem`, `RunSystemProofs`, `RunSystemTheorems`, `RunSystemProgress`, `Reconciler` | run aggregate, its rows, all writers interleaved, reconciliation and expiry |
| `Pipeline` | orchestrator walk and finalizer |
| `LeasedQueue`, `JobHandlers`, `QueueSystem` | both job queues with their handlers |
| `Checkpoint`, `TestPlan`, `Procurement`, `ProcurementPhase`, `RunSpending` | spend-once row, payment and refund |
| `StargateAmounts`, `StargateBridge`, `StargateAdapter` | bridge conversions, quotes, submissions |
| `RequirementPolicy`, `BnbPurchases`, `CrossChainPhase`, `CrossChainMachine` | buying on a remote chain |
| `ExactEvm`, `PayerClient`, `DemoTarget`, `ReplayRunner` | x402 payments, token, paid server, probe |
| `ToolReceiptRoot`, `CanonicalJson`, `Decimal`, `Texts` | evidence hashing |
| `SettlementVerifier`, `BotChainMerchant`, `BotChainSystem`, `QuoteEngine` | orders, settlement, price |

## What the proofs turned up

Properties that one would expect and that the code does not have, with the lemmas that say exactly
when it does or that show the case.

- The expiry sweep is documented to skip a run that was funded since the query. It does not force
  such a run, but its commit raises, and the sweep ends there: later candidates wait for the next
  sweep (`Reconciler.SweepStopsAtFirstConflict`, `Reconciler.MovedCandidateStopsTheSweep`).
- Reclaiming a lease under the same worker id consumes no attempt, so the finish of the earlier self
  still takes effect (`QueueSystem.SameIdFinishesForItsEarlierSelf`).
- A bridge key whose call crashed after claiming, or whose send failed or lost its answer, is blocked
  for good, and only such a key is (`StargateBridge.BlockedForGoodExactlyWhen`,
  `StargateBridge.AnswerCanBeLost`).
- The BNB client releases its claim after turning down a signer's answer although that signature is
  out, so a key can have two authorizations, never two standing ones. It can be signed for again as
  long as it is not authorized and no crashed call holds it (`BnbPurchases.CanBeSignedExactlyWhen`,
  `BnbPurchases.SignedKeyIsSignedAgainExactlyWhen`,
  `BnbPurchases.TurnedDownSignatureIsFollowedByAnother`).
- `verifyExactEvmPayment` promises that what it accepts would settle right now. In the first second
  of the validity window, and for a payee that is the zero address, it accepts a payment that the
  token reverts (`ExactEvm.FirstSecondDoesNotSettle`, `ExactEvm.VerifiedPaymentSettlesNow`).
- The replay probe fails the vulnerable target only if the payment's window is still open when the
  replay arrives (`ReplayRunner.ProbeTellsServersApart`,
  `ReplayRunner.LateReplayPassesVulnerableServer`).
- The Merkle root of three receipts equals that of the same three with the last one repeated, and the
  root of two equals that of one whose hash is their node: trees of different depths collide too.
  Which ones do is `ToolReceiptRoot.RootsCollideExactlyWhenNodesAgree`; among equally many receipts
  the root is binding (`ToolReceiptRoot.RootCommitsToReceipts`).
- With repeated log indices the settlement verifier can reject what the merchant adapter confirmed
  (`BotChainMerchant.RepeatedIndexIsRejected`, `BotChainMerchant.ConfirmedOrderVerifiesExactlyWhen`).
- A hash submission that read its order before the confirmation and writes after it drops the stored
  proof (`BotChainSystem.RacingSubmissionDropsProof`, `BotChainSystem.ProofIsKeptExactlyWhen`).
- The cross-chain machine has no final state (`CrossChainMachine.FailureIsAlwaysAccepted`), and can
  confirm a second refund after a failure that follows the first
  (`CrossChainMachine.SecondRefundAfterFailure`).

## Model

| member | source | states |
|---|---|---|
| `RunDomain.TransitionExtendsLog` | packages/run-domain/src/run-state-machine.ts:166-215 | an accepted command appends one legal event, and the new aggregate is exactly the fold of the longer log |
| `RunDomain.MovesExactlyWhen` | packages/run-domain/src/run-state-machine.ts:166-215 | a command moves the run if and only if its key is new and long enough, it names the revision, is not dated back and its actor may take the edge; the new aggregate field by field; only another revision is a conflict |
| `RunDomain.TableIsByActor` | packages/run-domain/src/run-state-machine.ts:59-98 | each actor may take exactly its own edges, listed actor by actor |
| `RunDomain.ResultIsTheVerdict` | packages/run-domain/src/run-state-machine.ts:217-230 | over every well-formed log the result is PASS, CONDITIONAL, FAIL or INCONCLUSIVE if and only if the status is the delivery of that verdict |
| `RunDomain.LogIsExecution` | packages/run-domain/src/run-state-machine.ts:166-215 | every well-formed log is an execution of the machine: event number i has revision i+1 and is what the machine emits for its own command |
| `RunDomain.TerminalIsAbsorbing` | packages/run-domain/src/run-state-machine.ts:42-57 | from a terminal status nothing is accepted but a replay that changes nothing |
| `RunDomain.EdgesClimb` | packages/run-domain/src/run-state-machine.ts:59-98 | every edge of the table climbs, except inside the procuring, executing, replanning cycle; abandoning is only possible before funding and delivering only from attesting |
| `RunDomain.MilestoneVisits` | packages/run-domain/src/run-state-machine.ts:59-98 | every log holds each of FUNDED, ANALYZING, EVIDENCE_BUILDING and ATTESTING once if the run is at or past it on the delivery path, and never otherwise |
| `RunDomain.AbandonedVisits` | packages/run-domain/src/run-state-machine.ts:59-98 | a log holds CANCELLED or EXPIRED once if that is its last status, and never otherwise |
| `RunDomain.DeliveredHistory` | packages/run-domain/src/run-state-machine.ts:59-98 | a delivered log holds all four milestones exactly once despite replanning cycles, and never a cancellation or expiry |
| `RunDomain.FundedNeverAbandoned` | packages/run-domain/src/run-state-machine.ts:59-98 | no log holds both a funding and an abandoning event |
| `RunDomain.LevelNeverDrops` | packages/run-domain/src/run-state-machine.ts:166-215 | along a log, levels and times never decrease, and nothing follows a terminal status |
| `RunStore.PostgresStore.SaveNew` | packages/persistence-postgres/src/api-repositories.ts:325-383 | inserts run, first event and outbox entry as one transaction, or reports the violated constraint and changes nothing |
| `RunStore.PostgresStore.Save` | packages/persistence-postgres/src/api-repositories.ts:177-213 | the guarded write: commits run, event and outbox together, or reports misalignment, a stale revision or a violated constraint and changes nothing |
| `RunStore.PostgresStore.InsertEventAndOutbox` | packages/persistence-postgres/src/api-repositories.ts:356-383 | appends to log and outbox, and enqueues the payment job on entering PAYMENT_REQUIRED unless there is one |
| `RunStore.PostgresStore.CommitFundedRun` | packages/persistence-postgres/src/payment-reconciliation-store.ts:206-269 | receipt, funded run, event, outbox and orchestrator job in one transaction, or nothing |
| `RunStore.PostgresStore.CommitExpiredRun` | packages/persistence-postgres/src/payment-reconciliation-store.ts:166-204 | expiry of an unpaid run behind its revision, or nothing |
| `RunSystemProofs.SnapshotIsCurrent` | packages/persistence-postgres/src/api-repositories.ts:177-213 | a snapshot with the stored revision is the stored aggregate, down to its applied keys |
| `RunSystemProofs.EventIsNew` | packages/persistence-postgres/src/api-repositories.ts:356-383 | behind the revision guard the unique constraints on events never fire |
| `RunSystemProofs.FundsExactlyWhen` | packages/persistence-postgres/src/payment-reconciliation-store.ts:206-269 | a payment commits if and only if its snapshot is current, its amount positive, the run has no receipt, and every receipt is of another log and under another proof |
| `RunSystemProofs.ExpireHolds` | packages/persistence-postgres/src/payment-reconciliation-store.ts:166-204 | an expiry commits if and only if its snapshot is current, and then keeps every table invariant |
| `RunSystemProofs.ExpiryIsNoReplay` | packages/payment-reconciliation/src/payment-reconciler.ts:202-243 | an unpaid snapshot never carries an expiry key, of an order or of a deadline, so expiring it is never mistaken for a replay |
| `RunSystemProofs.PaymentIsNoReplay` | packages/payment-reconciliation/src/payment-reconciler.ts:165-194 | a snapshot that waits for payment never carries the key of a payment |
| `RunSystemProofs.EveryInterleavingHolds` | packages/persistence-postgres/src/api-repositories.ts:160-213 | over every interleaving of API, payment worker, sweep and orchestrator steps, all tables stay consistent and every snapshot in flight stays a prefix of its log |
| `RunSystemTheorems.PersistedRunIsFoldOfLog` | packages/persistence-postgres/src/api-repositories.ts:177-213 | in every reachable state the persisted run is the fold of its persisted log, the revision is the log length, and the outbox carries the same events in order |
| `RunSystemTheorems.StoredResultIsTheVerdict` | packages/run-domain/src/run-state-machine.ts:217-230 | in every reachable state the result column holds a verdict if and only if the stored status is the delivery of that very verdict |
| `RunSystemTheorems.RefinesSequentialMachine` | packages/run-domain/src/run-state-machine.ts:166-215 | every step of every interleaving leaves a run alone or is one transition of the sequential machine decided on its current state |
| `RunSystemTheorems.StaleWriterChangesNothing` | packages/persistence-postgres/src/api-repositories.ts:177-213 | a writer whose snapshot was overtaken leaves all tables as they are |
| `RunSystemTheorems.CurrentWriterCommits` | packages/persistence-postgres/src/api-repositories.ts:177-213 | a save that the machine accepts commits if and only if its snapshot is current |
| `RunSystemTheorems.MoneyFollowsStatus` | packages/persistence-postgres/src/payment-reconciliation-store.ts:206-269 | a run is funded or later if and only if it has a receipt, a proof hash and an orchestrator job, and its row repeats the receipt |
| `RunSystemTheorems.MoneyAndRequestsAreUnique` | packages/persistence-postgres/src/payment-reconciliation-store.ts:301-331 | one transfer funds at most one run, and one request creates at most one |
| `RunSystemTheorems.PaidRunsAreSeenThrough` | packages/run-domain/src/run-state-machine.ts:59-98 | no persisted log holds both FUNDED and EXPIRED or CANCELLED, and a delivered run passed every milestone exactly once |
| `RunSystemTheorems.CompletedJobIsSettled` | apps/payment-worker/src/worker.ts:48-134 | the run of a completed payment job asked for payment and has left PAYMENT_REQUIRED |
| `RunSystemTheorems.FundedSnapshotIsAcknowledgeable` | packages/payment-reconciliation/src/payment-reconciler.ts:130-142 | the error that a funded run misses its payment is unreachable |
| `RunSystemProgress.FreshRequestIsQuoted` | packages/persistence-postgres/src/api-repositories.ts:325-383 | in every reachable state a request creates its run, quoted at revision one with one event, if and only if neither its id nor its key was used; otherwise nothing changes |
| `RunSystemProgress.CurrentSaveIsStored` | packages/persistence-postgres/src/api-repositories.ts:177-213 | in every reachable state an accepted save on the stored run ends up in row, log, outbox and session alike, with a payment job on entering PAYMENT_REQUIRED |
| `RunSystemProgress.WaitingRunIsFunded` | packages/persistence-postgres/src/payment-reconciliation-store.ts:206-269 | in every reachable state a worker that loads a waiting run and commits a new payment funds it: receipt, row, orchestrator job and completed payment job |
| `RunSystemProgress.UnpaidRunIsSwept` | packages/payment-reconciliation/src/payment-reconciler.ts:213-243 | in every reachable state a sweep that has loaded an unpaid run expires it, dated past its last change, with no money touched |
| `Reconciler.Reconcile` | packages/payment-reconciliation/src/payment-reconciler.ts:130-195 | commits only a payment whose receipt verifies against the expectation, with that chain, log, hash and amount, always when the run has not moved and the transfer is new; which answer an unpaid order or a pending receipt gets; every other answer leaves the rows alone, and a rejection lists exactly the failures in order |
| `Reconciler.CommitPayment` | packages/payment-reconciliation/src/payment-reconciler.ts:165-194 | decides on the loaded run and commits it as funded with this payment, or changes nothing |
| `Reconciler.Expire` | packages/payment-reconciliation/src/payment-reconciler.ts:224-243 | decides and commits an expiry, reports a replay as nothing done, or raises and changes nothing |
| `Reconciler.ExpireRun` | packages/payment-reconciliation/src/payment-reconciler.ts:202-206 | expires exactly those runs that were unpaid when loaded and have not moved since, does nothing for one that was not unpaid, and raises otherwise |
| `Reconciler.SweepExpiredRuns` | packages/payment-reconciliation/src/payment-reconciler.ts:213-222 | the loop does what the recursive account of a sweep says: expired ids in order, or an error |
| `Reconciler.SweepStopsAtFirstConflict` | packages/payment-reconciliation/src/payment-reconciler.ts:213-243 | a sweep expires its candidates up to the first that moved since the query and finishes if and only if none did; no other run is touched |
| `Reconciler.MovedCandidateStopsTheSweep` | packages/payment-reconciliation/src/payment-reconciler.ts:213-243 | a reachable case: of two quoted runs the first moves after the query, and the sweep ends with neither expired |
| `Pipeline.EveryResumableRunIsDelivered` | apps/orchestrator-worker/src/pipeline.ts:103-226 | whatever all writers did before, replanning included, a stored run in any status the pipeline accepts is driven by legal steps to the delivery of its verdict, with the result of that verdict, given a clock that does not run back |
| `Pipeline.ResumableRunsAreFresh` | apps/orchestrator-worker/src/pipeline.ts:103-121 | no run that is the fold of a persisted log has used any of the keys of its remaining steps |
| `Pipeline.DeliversExactlyWhenFresh` | apps/orchestrator-worker/src/pipeline.ts:103-226 | for any run value, stored or not, the walk delivers if and only if no remaining step key was used; by the rows before, a stored run is never on the failing side |
| `Pipeline.EveryFinalizableRunIsDelivered` | apps/orchestrator-worker/src/pipeline.ts:260-373 | whatever happened before, the finalizer takes a stored run in any post-funding status, REPLANNING included, to DELIVERED_INCONCLUSIVE with the result INCONCLUSIVE |
| `Pipeline.FinalizableRunsAreFresh` | apps/orchestrator-worker/src/pipeline.ts:260-373 | no such run has used any of the keys the finalizer is about to use |
| `Pipeline.FinalizesExactlyWhenFresh` | apps/orchestrator-worker/src/pipeline.ts:260-373 | for any run value the finalizer delivers if and only if no pending key was used; a stored run is never on the failing side |
| `Pipeline.AdvanceAndSave` | apps/orchestrator-worker/src/pipeline.ts:104-121 | one advance against the store: the local aggregate stays the stored one and its save is never refused |
| `Pipeline.RunOrchestratorPipeline` | apps/orchestrator-worker/src/pipeline.ts:76-226 | persists step by step exactly the run the pure walk computes, reports not found, not ready or illegal otherwise, and delivers every resumable run with the status and the result of its verdict under a clock that does not run back |
| `Pipeline.DriveAndSave` | apps/orchestrator-worker/src/pipeline.ts:103-226 | the loop over the steps: after each the store holds the local aggregate, and no save of it is ever refused |
| `LeasedQueue.JobQueue.ClaimNext` | packages/persistence-postgres/src/orchestrator-job-queue.ts:45-109 | leases run from 5 to 600 seconds; only a row with attempts left is leased, waiting and available or leased at least a lease ago, and none that could be leased comes earlier; the sweep ends exactly the leases that ran out on the last attempt; nothing is leased if and only if nothing is due |
| `LeasedQueue.JobQueue.FinishLease` | packages/persistence-postgres/src/orchestrator-job-queue.ts:111-171 | a finish changes exactly the row it owns, column by column: completed at its time, due again after its delay, the attempt given back by a wait only, and the reason kept; one that owns none reports the conflict and changes nothing |
| `LeasedQueue.JobQueue.Rearm` | packages/persistence-postgres/src/payment-job-queue.ts:157-184 | a row changes if and only if it is the dead-lettered one asked for, which then waits with a full set of attempts; every other row stays as it was |
| `LeasedQueue.FirstExists` | packages/persistence-postgres/src/orchestrator-job-queue.ts:86-104 | among due rows there always is one that none precedes in the claim order |
| `JobHandlers.HandlersAnswerWell` | apps/orchestrator-worker/src/worker.ts:80-122 | no answer of a handler is refused by the queue as malformed |
| `JobHandlers.ProcessNextJob` | apps/orchestrator-worker/src/worker.ts:125-148 | one undisturbed turn leases the first job, handles it and finishes it, and the finish is never refused |
| `QueueSystem.AttemptsCountRetries` | packages/persistence-postgres/src/orchestrator-job-queue.ts:45-171 | over every schedule attempts are the retries so far plus one while leased or finished, at most the maximum, and strictly below it while waiting; lock columns are set exactly while processing |
| `QueueSystem.LiveJobsAreClaimedOrSwept` | packages/persistence-postgres/src/orchestrator-job-queue.ts:58-104 | every live job is claimable once due or dead-lettered by the sweep: none is unclaimable for ever |
| `QueueSystem.WaitingJobIsLeft` | packages/persistence-postgres/src/orchestrator-job-queue.ts:58-104 | a waiting job is not leased before it is available, and is from then on |
| `QueueSystem.LiveLeaseIsRespected` | packages/persistence-postgres/src/orchestrator-job-queue.ts:58-104 | while no sweep or lease acts later than its own lease length after a lease was taken, the row stays its owner's through every schedule, and the owner's finish takes effect |
| `QueueSystem.TakenLeaseIsRespected` | packages/persistence-postgres/src/orchestrator-job-queue.ts:45-109 | in every reachable state whatever a worker leases was free to take by its times, and is then respected in this way |
| `QueueSystem.RearmedJobIsDue` | packages/persistence-postgres/src/payment-job-queue.ts:157-184 | over every schedule a dead-lettered job is claimable as soon as it is rearmed |
| `QueueSystem.LeaseSpendsAnAttemptExactlyOnFailure` | apps/orchestrator-worker/src/worker.ts:80-122 | waiting for a bridge or a payment costs no attempt, a retryable failure costs one and the last dead-letters the job, every other outcome ends it; when each is due again; only delivery, funding and order expiry complete it |
| `QueueSystem.RowSaysWhy` | apps/orchestrator-worker/src/worker.ts:80-122 | a row carries the code of ambiguous money, of a denial, a rejection or exhausted retries if and only if that was the outcome, and keeps the codes it came with |
| `QueueSystem.DelaysDouble` | apps/orchestrator-worker/src/worker.ts:159-161 | retry delays double from five seconds up to the cap |
| `QueueSystem.OustedWorkerChangesNothing` | packages/persistence-postgres/src/orchestrator-job-queue.ts:111-171 | a worker whose lease passed to another worker id changes nothing, whatever happened in between |
| `QueueSystem.FinishesExactlyWhenOwner` | packages/persistence-postgres/src/orchestrator-job-queue.ts:111-171 | a late finish takes effect if and only if the row is leased to the same id at the same attempt |
| `QueueSystem.SameIdFinishesForItsEarlierSelf` | packages/persistence-postgres/src/orchestrator-job-queue.ts:91-91 | reclaiming under the same id consumes no attempt, so the earlier claim still finishes the job |
| `Checkpoint.CheckpointStore.Merge` | packages/persistence-postgres/src/orchestrator-checkpoint-store.ts:104-178 | every column that was set is kept and every other one holds what the patch has; the returned row is the stored one, and no other row changes |
| `Checkpoint.MergeIsDetermined` | packages/persistence-postgres/src/orchestrator-checkpoint-store.ts:104-178 | keeping what was set and filling in the rest from the patch leaves exactly one possible row |
| `Checkpoint.PlanReadsBack` | packages/persistence-postgres/src/orchestrator-checkpoint-store.ts:104-178 | a plan checkpointed into a row without one reads back whole, unless its risk level or rationale is empty, and touches no other column |
| `Checkpoint.MergedColumnsNeverChange` | packages/persistence-postgres/src/orchestrator-checkpoint-store.ts:104-178 | no later merge changes a column that was set |
| `Checkpoint.FirstWriterWins` | packages/persistence-postgres/src/orchestrator-checkpoint-store.ts:104-178 | after any merges a column holds what its first writer wrote |
| `Checkpoint.FirstPaymentWins` | apps/orchestrator-worker/src/pipeline/procurement-phase.ts:84-115 | receipt, refund nonce and bridge transfer are those of the first attempt to checkpoint them |
| `TestPlan.ProposalOnlyNarrows` | packages/risk-classifier/src/test-plan-compiler.ts:15-33 | mandatory scenarios come first and always run, nothing unasked runs and nothing twice, the budget is the smaller of proposal and mandate, and risk level and rationale stay the proposal's |
| `Procurement.EveryScheduleHolds` | apps/orchestrator-worker/src/pipeline/procurement-phase.ts:25-151 | over every schedule of overlapping, resumed or crashed attempts the row, the attempts and the wallet agree |
| `Procurement.AttemptsAgreeOnPayment` | apps/orchestrator-worker/src/pipeline/procurement-phase.ts:77-115 | all attempts past the purchase hold one header, amount and nonce, the ones the row kept, within the budget |
| `Procurement.RowOnlyGrows` | packages/persistence-postgres/src/orchestrator-checkpoint-store.ts:104-178 | the checkpoint row only ever gains columns along a schedule, so attempts that finish at different times agree too |
| `Procurement.StoredPaymentPaysItsTarget` | apps/orchestrator-worker/src/pipeline/procurement-phase.ts:84-115 | over every schedule a stored receipt was signed for the offer of some signing action, from the payer to the target for its price; on configured terms it verifies against them exactly inside that offer's window |
| `Procurement.AtMostOneRefundLands` | apps/orchestrator-worker/src/pipeline/procurement-phase.ts:117-143 | at most one refund of a run lands; payment and refund together are exactly the refundable budget |
| `Procurement.BroadcastRefundsAreIdentical` | apps/orchestrator-worker/src/pipeline/procurement-phase.ts:117-143 | no two different refunds of a run are ever even broadcast |
| `Procurement.RecordedRefundLanded` | apps/orchestrator-worker/src/pipeline/procurement-phase.ts:136-141 | a checkpointed refund hash stands for a refund that is on chain |
| `Procurement.DoneMeansRefunded` | apps/orchestrator-worker/src/pipeline/procurement-phase.ts:117-143 | over every schedule, once any attempt is done and the payment left something of the budget, the refund is mined: exactly one, for exactly that, with its hash on the row |
| `ProcurementPhase.RunProcurementPhase` | apps/orchestrator-worker/src/pipeline/procurement-phase.ts:25-151 | an attempt that leaves the phase, whatever others did at each await, holds the payment the row keeps, signed for an offer that was made, within the budget, and the customer has been refunded what it left; nothing is acquired only for terms that are not payable, a price above the ceiling or an empty window |
| `ProcurementPhase.AcquirePayment` | apps/orchestrator-worker/src/pipeline/procurement-phase.ts:77-115 | resumes the stored payment verbatim or signs one for the offer within the ceiling, and goes on with what the row kept; there is none if and only if nothing is stored and the terms are not payable, the price is above the ceiling or the window is empty |
| `ProcurementPhase.RefundRemainder` | apps/orchestrator-worker/src/pipeline/procurement-phase.ts:117-143 | leaves only with an owed refund mined, once, for exactly the remainder, and recorded; or stops as ambiguous on a spent nonce, or unconfirmed with the refund sent and not yet mined |
| `ProcurementPhase.AgreeOnNonce` | apps/orchestrator-worker/src/pipeline/procurement-phase.ts:121-127 | the nonce an attempt refunds under is the one it read back from the row |
| `RunSpending.HeaderSettlesOnce` | contracts/src/ShipyardTestToken.sol:53-75 | one header moves money at most once, whichever version the target runs, and then exactly its value |
| `RunSpending.PresentedIsTheRows` | apps/orchestrator-worker/src/pipeline/procurement-phase.ts:77-115 | any header that any attempt presents at any time is the one the row keeps for good |
| `RunSpending.RunSettlesOnce` | contracts/src/ShipyardTestToken.sol:53-75 | all transfers made for any header the run ever presented are one transfer, of the row's payment |
| `RunSpending.RunSpendsItsBudgetOnce` | apps/orchestrator-worker/src/pipeline/procurement-phase.ts:77-143 | everything settled for any header that any attempt ever presented and everything refunded never exceeds the budget, and is exactly the budget once both a settlement and a refund landed |
| `StargateAmounts.ConversionsAreAdjoint` | packages/stargate-bridge-adapter/src/stargate-bridge-adapter.ts:255-267 | source to destination of s is at least d if and only if s is at least the rounded-up conversion of d back, for all decimals from the shared ones up |
| `StargateAmounts.MinimumIsLeastCoveringAmount` | packages/stargate-bridge-adapter/src/stargate-bridge-adapter.ts:246-267 | the minimum passed on chain is the least source amount that covers the ceiling |
| `StargateAmounts.DustIsBelowOneUnit` | packages/stargate-bridge-adapter/src/stargate-bridge-adapter.ts:255-267 | a round trip loses less than one shared unit, covering an amount overshoots by less than one |
| `StargateAmounts.RateIsOneWithZeros` | packages/stargate-bridge-adapter/src/stargate-bridge-adapter.ts:326-331 | written out, a conversion rate is a one with as many zeros as there are local decimals beyond the shared ones, and there is none for fewer |
| `StargateAmounts.DeployedRouteKeepsCoins` | packages/stargate-bridge-adapter/src/stargate-bridge-adapter.ts:246-267 | from six decimals to eighteen over six shared, every amount converts to the same number of coins, both ways |
| `StargateAmounts.SubmittableQuotesAreBounded` | packages/x402-payments/src/cross-chain-procurement.ts:170-200 | a quote may be submitted if and only if it is the route's and the intent's, within the ceiling, covers the target, pays the payer and is fresh |
| `StargateAmounts.IssuedQuotesArePayable` | packages/stargate-bridge-adapter/src/stargate-bridge-adapter.ts:59-118 | a quote is issued if and only if the route is the intent's, the accepted input covers the target's ceiling within the spent one, the fee is within its limit and time is left; its amounts and expiry; it is accepted for submission if and only if it has not expired |
| `StargateBridge.InMemoryBridgeSubmissionStore.Claim` | packages/stargate-bridge-adapter/src/ports.ts:76-83 | a key is acquired if and only if it has no row, and the kept row is returned otherwise |
| `StargateBridge.InMemoryBridgeSubmissionStore.MarkSubmitted` | packages/stargate-bridge-adapter/src/ports.ts:85-94 | records the hash on the row of the key, or reports that there is none |
| `StargateBridge.InMemoryBridgeSubmissionStore.AbandonClaim` | packages/stargate-bridge-adapter/src/ports.ts:96-99 | afterwards the key has a row if and only if it was submitted, so an unsent claim can be taken anew; no other row comes, goes or changes |
| `StargateBridge.InMemoryBridgeSubmissionStore.FindByTransferId` | packages/stargate-bridge-adapter/src/ports.ts:101-106 | finds a row with the transfer id if there is one |
| `StargateBridge.BroadcastsAtMostOnce` | packages/stargate-bridge-adapter/src/stargate-bridge-adapter.ts:120-190 | over every interleaving with crashes and RPC errors at most one send per idempotency key reaches a node |
| `StargateBridge.SubmittedRowNamesItsSend` | packages/stargate-bridge-adapter/src/stargate-bridge-adapter.ts:176-184 | a submitted row carries the hash of that one send and no other row carries it |
| `StargateBridge.AttemptedRowIsNeverRemoved` | packages/stargate-bridge-adapter/src/stargate-bridge-adapter.ts:164-190 | once a send was attempted, its claim row is never removed |
| `StargateBridge.SuccessesAgree` | packages/stargate-bridge-adapter/src/stargate-bridge-adapter.ts:137-150 | all calls that succeed for a key report the same transfer |
| `StargateBridge.BlockedForGoodExactlyWhen` | packages/stargate-bridge-adapter/src/stargate-bridge-adapter.ts:137-190 | a key stays claimed whatever the living calls do if and only if its claim is held by a call that crashed anywhere between claim and mark, or whose send failed or lost its answer |
| `StargateBridge.ClaimIsRefusedExactlyWhileHeld` | packages/stargate-bridge-adapter/src/stargate-bridge-adapter.ts:137-150 | a new call on a key is refused if and only if another call answers for it |
| `StargateBridge.LostAnswerBlocksKey` | packages/stargate-bridge-adapter/src/stargate-bridge-adapter.ts:137-150 | after a lost answer, in every continuation of every schedule, the call stays stuck, the row stays claimed and every later call on the key ends refused |
| `StargateBridge.AnswerCanBeLost` | packages/stargate-bridge-adapter/src/stargate-bridge-adapter.ts:173-190 | a transfer that went out while its answer was lost, and the refusal of the next call |
| `StargateAdapter.Submit` | packages/stargate-bridge-adapter/src/stargate-bridge-adapter.ts:120-190 | success reports the recorded send; a call that sends claimed a row with the intent's payer and the quote's minimum; on a new key it fails before the send if and only if the fresh output, the fee or the allowance is not enough, and then the key has no row; after an ambiguous failure it keeps its row; an unpayable quote changes nothing |
| `StargateAdapter.Prepare` | packages/stargate-bridge-adapter/src/stargate-bridge-adapter.ts:152-172 | a call is ready to send if and only if the fresh output covers the row's minimum, the fee its ceiling and the allowance went through; any failure here is still before the send |
| `StargateAdapter.SendAndMark` | packages/stargate-bridge-adapter/src/stargate-bridge-adapter.ts:173-190 | from the send on, every error is ambiguous and keeps the claim; success reports the very hash that came back, and there is an error only without an answer |
| `StargateAdapter.GetStatus` | packages/stargate-bridge-adapter/src/stargate-bridge-adapter.ts:192-245 | the destination is funded if and only if the executed message brought the minimum, and the transfer failed if and only if either side says so or it brought less |
| `RequirementPolicy.CodesOf` | packages/bnb-x402-client/src/requirement-policy.ts:79-120 | the codes of an entry are exactly those that apply, in order, each once |
| `RequirementPolicy.NoCodesExactlyWhenWithinLimits` | packages/bnb-x402-client/src/requirement-policy.ts:79-120 | an entry draws no code if and only if it is within every policy limit |
| `RequirementPolicy.SelectPayableRequirement` | packages/bnb-x402-client/src/requirement-policy.ts:72-138 | picks the first entry within every limit; the rejected list is exactly the earlier entries in order, each with its codes |
| `Decimal.SameTextSameNumber` | packages/bnb-x402-client/src/requirement-policy.ts:168-176 | amounts in the accepted numeral form are equal as texts if and only if they are equal as numbers |
| `BnbPurchases.InMemoryBnbPurchaseStore.Claim` | packages/bnb-x402-client/src/ports.ts:62-67 | a key is acquired if and only if it has no record |
| `BnbPurchases.InMemoryBnbPurchaseStore.MarkAuthorized` | packages/bnb-x402-client/src/ports.ts:69-81 | an existing record becomes the authorized payment; a missing one is an error |
| `BnbPurchases.InMemoryBnbPurchaseStore.AbandonClaim` | packages/bnb-x402-client/src/ports.ts:83-86 | afterwards the key has a record if and only if it was authorized; no other record comes, goes or changes |
| `BnbPurchases.SuccessesAgree` | packages/bnb-x402-client/src/payment-client.ts:31-77 | every success on a key reports the same receipt, hash and amount, at most the ceiling |
| `BnbPurchases.AuthorizedForGood` | packages/bnb-x402-client/src/ports.ts:59-87 | an authorized record never changes again |
| `BnbPurchases.SignaturesAreBounded` | packages/bnb-x402-client/src/payment-client.ts:50-77 | nothing above the ceiling is signed or approved, and a key is signed for again only after its earlier signer failed |
| `BnbPurchases.SignerHoldsClaim` | packages/bnb-x402-client/src/payment-client.ts:31-77 | over every schedule a call reaches the signer only while it holds the key's claim and no other call does |
| `BnbPurchases.CanBeSignedExactlyWhen` | packages/bnb-x402-client/src/payment-client.ts:31-77 | once some calls have crashed, a continuation of the others can still sign for a key, again or for the first time, if and only if it is not authorized and no crashed call holds it |
| `BnbPurchases.SignedKeyIsSignedAgainExactlyWhen` | packages/bnb-x402-client/src/payment-client.ts:65-76 | while the signer does not fail, its key is signed for again in some continuation if and only if the signer survives and its answer is not acceptable |
| `BnbPurchases.SignedAgainOnlyAfterRelease` | packages/bnb-x402-client/src/payment-client.ts:31-77 | in any schedule a later signature of a key was preceded, in this order, by the earlier signer turning its answer down, releasing the key, and the later call acquiring it |
| `BnbPurchases.EveryRowIsHeld` | packages/bnb-x402-client/src/payment-client.ts:31-77 | over every schedule each claimed record has a call that answers for it |
| `BnbPurchases.AnswerIsTurnedDownExactlyWhen` | packages/bnb-x402-client/src/payment-client.ts:65-76 | an answer is turned down if and only if its amount, receipt or hash is not acceptable |
| `BnbPurchases.OnlyPermit2IsApproved` | packages/bnb-x402-client/src/payment-client.ts:57-63 | no allowance is ever granted unless a target asks for Permit2 |
| `BnbPurchases.TurnedDownSignatureIsFollowedByAnother` | packages/bnb-x402-client/src/payment-client.ts:65-76 | a rejected answer releases the key although its signature is out, so a second one can follow |
| `BnbPurchases.Acquire` | packages/bnb-x402-client/src/payment-client.ts:31-77 | on a new key a payment is acquired if and only if the terms are within the ceiling, approved where they need it, and answered for in full, and then it is the signer's; an acquired payment is the one the record holds; a call that fails holds no claim; a claimed key is refused, an authorized one replayed |
| `CrossChainPhase.EveryScheduleHolds` | apps/orchestrator-worker/src/pipeline/cross-chain-procurement-phase.ts:68-352 | over every schedule of attempts, bridge calls, client calls and other runs the row, both stores and the attempts agree |
| `CrossChainPhase.SignedOnlyAfterDelivery` | apps/orchestrator-worker/src/pipeline/cross-chain-procurement-phase.ts:91-114 | whenever an authorization for the target exists, delivery is checkpointed and amount signed, ceiling, amount received are in that order |
| `CrossChainPhase.DeliveryIsTheRunsOneTransfer` | apps/orchestrator-worker/src/pipeline/cross-chain-procurement-phase.ts:208-231 | the checkpointed transfer is the only one the run ever sent |
| `CrossChainPhase.AttemptsAgreeOnPurchase` | apps/orchestrator-worker/src/pipeline/cross-chain-procurement-phase.ts:298-352 | all attempts that get through report one purchase, the authorized one, within the ceiling |
| `CrossChainPhase.RunCrossChainProcurementPhase` | apps/orchestrator-worker/src/pipeline/cross-chain-procurement-phase.ts:68-138 | an attempt that leaves the phase does so with the purchase the row keeps, after a delivery that covers the ceiling |
| `CrossChainPhase.FundDestination` | apps/orchestrator-worker/src/pipeline/cross-chain-procurement-phase.ts:182-295 | skips in PREFUNDED; a stored delivery lets through if and only if it covers the ceiling; otherwise only an executed delivery within the waiting time does |
| `CrossChainPhase.AuthorizeTargetPayment` | apps/orchestrator-worker/src/pipeline/cross-chain-procurement-phase.ts:298-352 | replays a complete stored purchase verbatim, otherwise comes to one if and only if the client acquired a payment under the run's own key |
| `CrossChainMachine.ForwardEventsComeInOrder` | packages/x402-payments/src/cross-chain-procurement.ts:203-277 | over every history the forward events accepted are a prefix of lock, submit, receive, create, confirm, attest; the state says what they said; spent is at most the ceiling, which is at most what arrived |
| `CrossChainMachine.AcceptedExactlyInPlace` | packages/x402-payments/src/cross-chain-procurement.ts:203-277 | an event is accepted if and only if it is complete, its amounts fit the ceiling and, forward, it is the next in order; trouble and refund events from exactly which states, and to which |
| `CrossChainMachine.TroubleIsClosed` | packages/x402-payments/src/cross-chain-procurement.ts:210-226 | FAILED, REFUND_PENDING and REFUNDED are never left for the forward path |
| `CrossChainMachine.RefundsAreCounted` | packages/x402-payments/src/cross-chain-procurement.ts:211-226 | confirmed refunds are one per stay in REFUNDED: one more than the failures reported after a confirmed refund, while refunded |
| `CrossChainMachine.SecondRefundAfterFailure` | packages/x402-payments/src/cross-chain-procurement.ts:210-226 | a failure after a confirmed refund lets a second refund be requested and confirmed |
| `ExactEvm.VerifyExactEvmPayment` | packages/x402-payments/src/exact-evm.ts:272-307 | for every check, it is reported if and only if its own field disagrees; once and in the order of the checks; none if and only if the header pays the terms now |
| `ExactEvm.SignedPaymentVerifies` | packages/x402-payments/src/exact-evm.ts:156-181 | a payment signed for the terms verifies exactly inside its window |
| `ExactEvm.SignatureBindsPayment` | packages/x402-payments/src/exact-evm.ts:118-133 | one signature verifies for one payment on one token of one chain only |
| `ExactEvm.ShipyardTestToken.TransferWithAuthorization` | contracts/src/ShipyardTestToken.sol:53-75 | moves the value and consumes the nonce, or reverts with the first failing check and leaves nothing behind |
| `ExactEvm.SettlesExactlyWhen` | contracts/src/ShipyardTestToken.sol:53-75 | the token settles an authorization if and only if the time is strictly inside its window, its nonce is unused, its sender signed it for this token, the payee is not zero and the balance suffices |
| `ExactEvm.SettlementMovesTheValue` | contracts/src/ShipyardTestToken.sol:53-75 | then the value has moved from sender to receiver and no other balance has changed |
| `ExactEvm.AuthorizationIsConsumed` | contracts/src/ShipyardTestToken.sol:62-75 | once an authorization went through, every later one of that payer and nonce reverts |
| `ExactEvm.VerifiedPaymentSettlesNow` | packages/x402-payments/src/exact-evm.ts:265-271 | a verified payment settles in the same second if and only if the window did not start in it, the nonce is unused, the payee is not the zero address and the balance suffices |
| `ExactEvm.FirstSecondDoesNotSettle` | contracts/src/ShipyardTestToken.sol:62-62 | in the first second of its window the server accepts a payment that the token reverts |
| `PayerClient.SelectExactEvmRequirements` | packages/x402-payments/src/payer-client.ts:133-151 | selects the first payable entry, or none if and only if there is none |
| `PayerClient.AcquireExactEvmPayment` | packages/x402-payments/src/payer-client.ts:71-124 | signs only the first payable entry, for exactly its price and window and within the ceiling; each refusal if and only if its own condition holds |
| `PayerClient.PaymentMovesThePrice` | packages/x402-payments/src/payer-client.ts:101-124 | when such a header settles, the price moves from payer to payee and nothing else changes |
| `DemoTarget.OneDeliveryPerPayment` | apps/x402-demo-target/src/app.ts:171-187 | over every schedule the protected server delivers at most once per payer and nonce |
| `DemoTarget.DeliveriesArePaid` | apps/x402-demo-target/src/app.ts:171-187 | deliveries of the protected server times the price never exceed what the payee received |
| `DemoTarget.LogIsTheLedger` | contracts/src/ShipyardTestToken.sol:53-75 | every balance is its opening plus received less spent, as the transfer log has it |
| `DemoTarget.PayingRequestIsDelivered` | apps/x402-demo-target/src/app.ts:171-187 | left alone, a request whose payment verifies and settles is delivered as settled, and exactly the price has moved |
| `DemoTarget.SettledPaymentConflicts` | apps/x402-demo-target/src/settler.ts:126-138 | a payment delivered for before is answered with 409 inside its window and 402 outside |
| `ReplayRunner.HandlePaidResource` | apps/x402-demo-target/src/app.ts:143-213 | the reply to a request without header, with one that does not decode, with one that does not verify, and with a payment, mode by mode, with others acting at every await |
| `ReplayRunner.Settle` | apps/x402-demo-target/src/settler.ts:77-118 | delivered as settled only with a successful receipt; the vulnerable server delivers regardless |
| `ReplayRunner.ProbeTellsServersApart` | packages/protected-delivery-runner/src/replay-runner.ts:84-113 | after a first delivery the probe passes the protected server, and fails the vulnerable one if and only if the payment still verified when the replay arrived |
| `ReplayRunner.LateReplayPassesVulnerableServer` | packages/protected-delivery-runner/src/replay-runner.ts:84-113 | a schedule in which the vulnerable server delivers, the window closes, the replay is refused and the probe passes |
| `ReplayRunner.VerdictNeedsEvidence` | packages/protected-delivery-runner/src/replay-runner.ts:84-113 | which responses lead to which verdict: failure if and only if a second success, pass if and only if an accepted refusal, each after a confirmed delivery |
| `ReplayRunner.ReplayVerifiesWhileWindowIsOpen` | packages/x402-payments/src/exact-evm.ts:282-285 | a payment that verified once verifies later if and only if its window is still open |
| `ReplayRunner.Run` | packages/protected-delivery-runner/src/replay-runner.ts:84-113 | presents once, and again only after a delivery; the verdict is the judgement of the responses heard |
| `ToolReceiptRoot.BuildToolReceiptRoot` | packages/evidence-sdk/src/tool-receipt.ts:157-170 | terminates with the root of the sorted hashes as defined level by level, and refuses only the empty list |
| `ToolReceiptRoot.HashNeighbours` | packages/evidence-sdk/src/tool-receipt.ts:161-166 | the inner loop computes one level |
| `ToolReceiptRoot.SortedSorts` | packages/evidence-sdk/src/tool-receipt.ts:159-159 | sorting keeps the elements and puts them in order |
| `ToolReceiptRoot.RootIgnoresOrder` | packages/evidence-sdk/src/tool-receipt.ts:157-170 | the root is invariant under permutation of the receipts |
| `ToolReceiptRoot.RootCommitsToReceipts` | packages/evidence-sdk/src/tool-receipt.ts:157-170 | with an injective pair hash, equally many receipts have equal roots if and only if they are the same multiset |
| `ToolReceiptRoot.RepeatedLastReceiptCollides` | packages/evidence-sdk/src/tool-receipt.ts:163-164 | the roots of a, b, c and of a, b, c, c are equal |
| `ToolReceiptRoot.RootsCollideExactlyWhenNodesAgree` | packages/evidence-sdk/src/tool-receipt.ts:157-170 | any two trees, of whatever sizes, have equal roots if and only if the shallower one, odd ones out repeated, is the level of that depth in the other |
| `ToolReceiptRoot.NodeAsReceiptCollides` | packages/evidence-sdk/src/tool-receipt.ts:157-170 | one receipt whose hash is the node of two others has their root |
| `ToolReceiptRoot.RootsCollideExactlyWhenFullTreesAgree` | packages/evidence-sdk/src/tool-receipt.ts:160-168 | trees of the same depth have equal roots if and only if their leaves agree once every odd one out is repeated |
| `CanonicalJson.PrintedTextReadsBack` | packages/protected-delivery-runner/src/scenario-shared.ts:20-32 | a parser inverts the printer: the text of a value reads back as the value with its keys in order |
| `CanonicalJson.ValueReadsBack` | packages/protected-delivery-runner/src/scenario-shared.ts:20-32 | any value printed in member order reads back as itself, whatever delimiter follows |
| `CanonicalJson.EscapedReadsBack` | packages/protected-delivery-runner/src/scenario-shared.ts:21-21 | an escaped string, lone surrogates included, reads back as itself |
| `CanonicalJson.EscapesAsJson` | packages/protected-delivery-runner/src/scenario-shared.ts:21-21 | quote and backslash, the five short escapes, four lower-case hex digits for other controls and lone surrogates, and every other code unit as it is |
| `CanonicalJson.LiteralsAsJson` | packages/protected-delivery-runner/src/scenario-shared.ts:20-25 | null, true, false, numbers, strings, the empty array and the empty object as they are written |
| `CanonicalJson.BracketsAsJson` | packages/protected-delivery-runner/src/scenario-shared.ts:26-31 | an array stands in square brackets, an object with its sorted members in braces |
| `CanonicalJson.SeparatorsAsJson` | packages/protected-delivery-runner/src/scenario-shared.ts:26-31 | commas between items and between members, a colon after each key |
| `CanonicalJson.SortIncreases` | packages/protected-delivery-runner/src/scenario-shared.ts:28-30 | keys come out strictly increasing by code unit |
| `CanonicalJson.TextDeterminesValue` | packages/protected-delivery-runner/src/scenario-shared.ts:20-32 | two values have the same text if and only if they are equal up to the order of keys |
| `SettlementVerifier.VerifySettlement` | packages/x402-payments/src/settlement-verifier.ts:37-91 | for every check, it is reported if and only if the fields it compares disagree, the log checks included; once and in the order of the checks; none if and only if the settlement verifies; the hash material names chain, transaction, log and order |
| `SettlementVerifier.MaterialIdentifiesTransfer` | packages/x402-payments/src/settlement-verifier.ts:84-89 | two payments have the same hash material if and only if they are the same log of the same transaction and chain for the same order |
| `SettlementVerifier.FindLog` | packages/x402-payments/src/settlement-verifier.ts:77-77 | finds the first log that carries the index |
| `SettlementVerifier.VerifiedSettlementPaid` | packages/x402-payments/src/settlement-verifier.ts:37-108 | a settlement verifies if and only if order, proof and receipt agree with the expectation in order, chain, amount, parties and hash, and the first log with the proof's index moves exactly the expected amount of the token from the payer to the recipient |
| `BotChainMerchant.InMemoryBotChainOrderContextStore.Put` | packages/bot-chain-adapter/src/merchant-adapter.ts:209-220 | binds order id and DApp order id to each other, or refuses a second binding and changes nothing |
| `BotChainMerchant.PutKeepsConsistency` | packages/bot-chain-adapter/src/merchant-adapter.ts:205-230 | the two maps of the store stay inverse to each other |
| `BotChainMerchant.FindMatchingTransferLog` | packages/bot-chain-adapter/src/merchant-adapter.ts:245-269 | finds a log whose own fields move exactly the order's amount of its token from payer to recipient, with none such before it; or there is none |
| `BotChainMerchant.ProofIsFoundExactlyWhenPaid` | packages/bot-chain-adapter/src/merchant-adapter.ts:179-202 | asking the chain confirms an order if and only if its submitted transaction succeeded with a log of its transfer; the proof names the order's own terms |
| `BotChainMerchant.BotChainDirectMerchantAdapter.CreateOrder` | packages/bot-chain-adapter/src/merchant-adapter.ts:75-119 | a repeated request is given the stored order if and only if that is an order for this very request; a new one is stored if and only if the capability can take it, with its terms and expiry; nothing else is stored |
| `BotChainMerchant.BotChainDirectMerchantAdapter.SubmitPaymentTransaction` | packages/bot-chain-adapter/src/merchant-adapter.ts:130-139 | replaces the submitted hash unless another one was confirmed |
| `BotChainMerchant.BotChainDirectMerchantAdapter.GetOrderStatus` | packages/bot-chain-adapter/src/merchant-adapter.ts:141-156 | reports confirmed if and only if a proof is stored or the submitted transaction paid, otherwise expired or open by its time, changing no other order |
| `BotChainMerchant.BotChainDirectMerchantAdapter.GetOrderProof` | packages/bot-chain-adapter/src/merchant-adapter.ts:158-167 | returns the stored proof, or one if and only if the submitted transaction went through and paid the order, which is stored with the confirmation |
| `BotChainMerchant.ConfirmedOrderVerifiesExactlyWhen` | packages/bot-chain-adapter/src/merchant-adapter.ts:179-202 | a confirmed order and proof verify if and only if the first log with the proof's index is the payment |
| `BotChainMerchant.RepeatedIndexIsRejected` | packages/x402-payments/src/settlement-verifier.ts:77-82 | with a repeated index the verifier can reject what the adapter confirmed |
| `BotChainMerchant.UnparsablePayerIsNeverConfirmed` | packages/bot-chain-adapter/src/merchant-adapter.ts:279-285 | an order whose payer address does not parse is never confirmed |
| `BotChainSystem.EveryScheduleHolds` | packages/bot-chain-adapter/src/merchant-adapter.ts:75-202 | over every overlap of creations, submissions and queries with a growing chain, the store stays consistent and every stored or given proof stays backed by a mined receipt |
| `BotChainSystem.ConfirmedOrdersSettle` | packages/x402-payments/src/settlement-verifier.ts:37-91 | over every schedule from the empty store, any confirmed order and any proof given for it verify against every request the order was returned for if and only if the first log with the proof's index is the payment, which distinct log indices guarantee |
| `BotChainSystem.ProofIsKeptExactlyWhen` | packages/bot-chain-adapter/src/merchant-adapter.ts:130-167 | over every schedule a confirmed order keeps its proof through a stretch if and only if no call writes back, within it, a context without that proof that it had read before the stretch |
| `BotChainSystem.RacingSubmissionDropsProof` | packages/bot-chain-adapter/src/merchant-adapter.ts:130-139 | from the empty store: a submission that read the order before its confirmation and writes after it leaves the paid order without a proof |
| `BotChainSystem.CreationAlone` | packages/bot-chain-adapter/src/merchant-adapter.ts:75-119 | a creation that nothing overlaps stores exactly what the adapter's method does |
| `BotChainSystem.SubmissionAlone` | packages/bot-chain-adapter/src/merchant-adapter.ts:130-139 | a submission that nothing overlaps changes the store exactly as the adapter's method does |
| `BotChainSystem.QueryAlone` | packages/bot-chain-adapter/src/merchant-adapter.ts:141-167 | a query that nothing overlaps, for the status or for the proof, changes the store exactly as the methods do |
| `QuoteEngine.CreateQuote` | packages/quote-engine/src/quote-engine.ts:102-134 | quotes if and only if costs and fee fit the customer's maximum; the total is the exact sum of the line items, the fee its rate's share of it, rounded down; it covers the refundable budget and lasts its time to live, a minute to a day |
| `QuoteEngine.FeeIsGreatestWithinRate` | packages/quote-engine/src/quote-engine.ts:111-113 | a fee is within the rate's share of the total it brings about if and only if it is at most the computed one |
| `QuoteEngine.FeeIsFixedPoint` | packages/quote-engine/src/quote-engine.ts:111-113 | the fee is the rate times the total it is part of, over 10000, rounded down |
| `QuoteEngine.FeeIsMonotone` | packages/quote-engine/src/quote-engine.ts:111-118 | higher costs or a higher rate never lower the fee or the total |

## Left out

- HTTP routing, session authentication, rate limits, the dashboard, the OpenAI call, IPFS, LayerZero
  response scraping: their answers are arbitrary inputs of the steps that consume them.
- Runtime configuration parsing and request schemas: their results are preconditions.
- Cryptography, ABI decoding and base64: hashes are numbers or texts, a signature is modelled by who
  signed what, logs arrive decoded. Signature malleability (the token refuses high-s signatures that
  address recovery accepts) is not modelled.
- Addresses with mixed-case checksums are modelled by the account they name and a spelling; one that
  does not parse equals nothing.
- Checkpoint columns that only the execution and attestation phases read, settlement legs, the policy
  engine's purchase authorization and the mandate: lists of independent conditions that can only stop
  an attempt, which may stop at any point here anyway.
- Number printing in canonical JSON beyond integers, and the variants of the printer that sort by
  locale.
- Whether the payer's own wallet has the funds, gas, and chain reorganisations; a mined transaction
  stays mined.
- The Postgres versions of the bridge and purchase stores: their claim statements also compare other
  columns and so refuse some replays that the in-memory stores accept.
- RunSystemProofs.ExpiryIsNoReplay: order ids are assumed to be at least seven characters long and
  free of colons, as the merchant side issues them; a client key that imitates an expiry key is ruled
  out by that.
- RunStore.PostgresStore.SaveNew: the quote, the catalog rows and the payment order written in the
  same transaction are not modelled.
- RunStore.PostgresStore.CommitFundedRun: the order snapshot that the commit writes back is not
  modelled.
- Reconciler.Reconcile: the load error for a run without an order is not modelled; the hash function
  of the proof hash is a parameter.
- Reconciler.SweepStopsAtFirstConflict: deadlines are assumed to be written as ISO timestamps, as the
  sweep's query returns them.
- Pipeline.RunOrchestratorPipeline: the phases between two transitions and the errors for a run whose
  quote or payment is missing are not part of it, and nobody else writes the run meanwhile;
  interleaved writers are `RunSystem`'s subject.
- JobHandlers.ProcessNextJob: one turn without interference; overlapping workers are `QueueSystem`'s
  subject. Whether the best-effort finalization succeeds changes nothing about the answer.
- LeasedQueue.JobQueue.ClaimNext: sweep and claim are one call here and two steps in `QueueSystem`;
  which of several equally early rows is leased is left open, as SKIP LOCKED leaves it.
- ProcurementPhase.RunProcurementPhase: sending a refund and waiting for its receipt is one step of
  the attempt and one of the chain.
- StargateAdapter.Submit: the quote's remaining provider data (route id, contract addresses) is not
  modelled; a quote for another payer or without output is refused.
- CrossChainPhase.RunCrossChainProcurementPhase: the bridge adapter and the payment client take their
  own steps at the awaits; their code is modelled in their own modules.
- RequirementPolicy.SelectPayableRequirement: the x402 client that signs is assumed to sign the entry
  it was pinned to.
- ExactEvm.VerifyExactEvmPayment: window bounds are exact here; the original reads them as floating
  point numbers, which round above 2^53.
- DemoTarget.OneDeliveryPerPayment: the reply's body, its provider signature and the failure codes in
  it are not modelled.
- ReplayRunner.Run: request hashes, scenario validation and the evidence record around the verdict are
  not modelled; the response of an attempt is its status and whether it confirmed delivery.
- ToolReceiptRoot.BuildToolReceiptRoot: sorting is a function; the original calls the library's sort
  by locale, which orders hashes of one case like numbers.
- BotChainMerchant.BotChainDirectMerchantAdapter.GetOrderStatus: a method of the class is a call that
  nothing overlaps; overlapping calls are `BotChainSystem`'s subject. The Postgres store of contexts,
  which overwrites where the in-memory one refuses, is not modelled.
- ReplayRunner.HandlePaidResource: response bodies, the failure codes in them and the provider's
  signature are not modelled.
- Procurement.EveryScheduleHolds: the negotiation that yields the target's terms is `PayerClient`'s
  subject; an attempt is handed any terms, account, nonce and window here.
- QuoteEngine.CreateQuote: the quote's id, commitment hash and snapshots of request and capability are
  not modelled.
