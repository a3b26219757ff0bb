# Verified model of reliable-messaging

This project models the protocols of the reliable-messaging SDK in Dafny and proves
what they promise in every run: the transaction-message protocol between a host
database, a broker and any number of senders; the leased outbox and its relay; the
receipt-based ordered outbox; admission, drain, settlement and shutdown; and the
identity encodings, resource names and routes.

`dafny verify dfyconfig.toml` checks the whole project.

## How it is built

* **Transaction messages.** `Protocol` holds plans, executions, references, evidence and
  the decision rules. `TransactionTables` gives every database transaction as one step on
  the committed tables and the open host transactions with their row locks.
  `TransactionInvariants` and `TransactionSafety` prove what every run of such steps keeps,
  `TransactionGrants` exactly when a reachable store grants each operation and exactly what
  it then changes, `RecoveryCheck` which half messages a recovery check decides.
  `TransactionStore` is the store and the guard as objects, each method proved equal to its
  step. `SenderSystem` adds concurrent `Execute` calls and recovery checks, phase by phase,
  with crashes, lost calls and lost acknowledgements. `SenderSafety` proves the broker-side
  results, `SenderFinals` that nothing proven stays unsent and nothing unanswered is
  recorded (`AuditFrames` says what each transaction does to the recorded answers),
  `SenderHalves` what holds of the halves, and `SenderCompletion` and `SenderOutcomes` that
  every call reaches its end by its own steps. `ExecuteOnly` proves what hosts gain that
  commit only from inside `Execute`, `ObservedCommits` exactly which commits are observed, and `Observation` what the
  protocol counters can show. `Reconciliation` is the sweep over expired executions.
* **Outboxes.** `Outbox` and `OutboxSafety` are the leased table and its runs, `OutboxEffects`
  what each operation writes column by column, `Relay` the relays over it, `MongoClaims` the
  document store's claim loop against the relational batch, `OutboxStore` and `MongoStore` the two stores as objects. `Delivery`, `DeliveryEffects`,
  `DeliveryOrder` and `DeliveryStore` are the receipt-based outbox with per-aggregate order.
* **Concurrent sections.** `Drain`, `Handoff` with `HandoffBinding`, `Settlement` with
  `SettlementOutcomes` and `SettlementOverlap`, and `Lifecycle` with `LifecycleLaws` are step machines
  in which each section under a mutex, each channel operation and each call into the driver
  is one event. `Backoff` is the retry delay.
* **Encodings and routes.** `Preimage`, `EnvelopeChecksum`, `Naming`, `Routes`,
  `RouteResolver`, `RouteManifest`.

## Modelling decisions

* A Go string or byte slice is a Dafny `string` whose characters stand for bytes.
* Tables are maps, so their keys are unique: request identity, execution identity,
  (execution, branch), record number, and (producer, destination, message id). A duplicate
  insert is the error path of the operation.
* A conditional update or a `FOR UPDATE` read locks the row exclusively and a `FOR SHARE`
  read locks it shared until the enclosing transaction ends. The SDK's own transactions
  are atomic steps that are refused while another transaction holds the row; only host
  transactions stay open across steps.
* The clock of each database transaction is an argument and need not be monotone. Random
  tokens are arguments and may repeat. Every RPC and every database call may succeed, fail
  without effect, or take effect and report failure.
* A host commits its transaction only if `CommitWitness` returned no error, as
  `storage/transaction/mysql/guard.go:80-82` demands; a host that saw an error rolls back.
* A digest is named by the value it hashes. `Preimage.DigestNames` justifies this: equal
  digests mean equal values unless the hash collides on the very strings it was given.
* Where a promise holds only under a condition, the condition is part of the statement and
  companion lemmas show the failing family: `SettlementOverlap.StaysExactIff`,
  `ObservedCommits.CommittedObservedIff` with `HastyCommitUnobserved`,
  `DeliveryOrder.ReceiptFreeOvertaken` and `LateAppendOvertaken`, `Naming.DotAndDashMeet`,
  `RouteManifest.OrderFreeIff` with `MixedSchemesDependOnOrder`.

## Model

| member | source | states |
|---|---|---|
| `Protocol.NewPlan` | transaction/plan.go:70-108 | a plan is frozen exactly when header and branch bounds hold, branch ids are distinct, every message is valid and of the plan's scope |
| `Protocol.FindReference` | transaction/evidence.go:37-60 | a reference exists exactly for a frozen plan, a fence in range, an epoch and a branch of that id, and is that branch's |
| `Protocol.References` | transaction/store.go:66-76 | one valid reference per branch in plan order, each naming this execution; none for an unusable identity |
| `Protocol.CollectReferences` | transaction/store.go:66-76 | the collecting loop computes References |
| `Protocol.DecideLocalInOrder` | transaction/store.go:156-176 | the branch-by-branch loop decides exactly when all branches of one execution resolve to the same terminal decision |
| `Protocol.ResolveExactly` | transaction/evidence.go:62-75 | a branch is decided exactly by evidence of the very reference with both states terminal and equal |
| `Protocol.DecideExactly` | transaction/store.go:156-176 | a local outcome is known exactly from one exact and equal piece of terminal evidence per reference of one execution |
| `TransactionSafety.WitnessAtomicity` | storage/transaction/mysql/store.go:178-199 | in every reachable store an execution has exactly its plan's witnesses, each with the exact reference and the execution's own state |
| `TransactionSafety.TerminalForever` | storage/transaction/mysql/store.go:261-301 | Committed and Aborted never change again; plan, capability, request and lease of an execution never change |
| `TransactionSafety.BoundUntilHostEnds` | storage/transaction/mysql/guard.go:19-64 | while a host transaction holds an execution it stays Prepared whatever anyone runs and whatever the clock says |
| `TransactionSafety.RequestFences` | storage/transaction/mysql/store.go:123-161 | a request's executions carry fences exactly 1..n, one each; n is the active one, all earlier ones are aborted |
| `TransactionSafety.OneCommitPerRequest` | storage/transaction/mysql/store.go:344-406 | two executions of one request that are committed, now or later, are the same one, and it stays active |
| `TransactionSafety.CommittedNeverAdvances` | storage/transaction/mysql/store.go:344-406 | after a commit every Retry or Replan of the request is refused and changes nothing |
| `TransactionSafety.EpochFencing` | storage/transaction/mysql/store.go:37-50 | once the owner's row shows another epoch, and while the old epoch is not put back, an uncommitted execution of the old epoch never commits |
| `TransactionSafety.AbortSucceeds` | storage/transaction/mysql/store.go:261-301 | an unbound prepared execution of any epoch can be aborted by its winner, or by anyone after its lease, with all its witnesses |
| `TransactionSafety.CommitPath` | storage/transaction/mysql/guard.go:83-112 | bind, witness commit and host commit leave exactly the execution and its witnesses Committed and nothing else changed |
| `TransactionSafety.ReceiptsOnlyGain` | storage/transaction/mysql/receipt.go:65-106 | over any continuation an audit only gains information, and its positive final outcome agrees with the terminal state |
| `TransactionSafety.ApplyKeeps` | storage/transaction/mysql/store.go:123-161 | every database transaction keeps the store invariant and only evolves the tables |
| `TransactionGrants.LookupExactly` | storage/transaction/mysql/store.go:96-122 | in a reachable store a known request always reads its active execution, or an input conflict |
| `TransactionGrants.BindingExactly` | storage/transaction/mysql/store.go:37-50 | the binding check passes exactly for the stored store id and schema, and for a writer the stored epoch |
| `TransactionGrants.FindExactly` | storage/transaction/mysql/store.go:78-122 | a lookup of a reachable store finds exactly the requests of its owner with the same input, in any epoch; another input is a conflict, an unknown request is not found |
| `TransactionGrants.ReserveExactly` | storage/transaction/mysql/store.go:123-161 | Reserve is granted exactly to the current epoch of the owner, with a lease of a millisecond to a day and a frozen plan of the request, on a new request whose execution identity is free or a known one with the same input; the first inserts exactly its request, execution and witness rows at fence 1, the others observe the active execution without its capability; nothing else changes |
| `TransactionGrants.AbortedProves` | storage/transaction/mysql/store.go:373-390 | the locked witnesses of an aborted execution always prove the abort |
| `TransactionGrants.AdvanceExactly` | storage/transaction/mysql/store.go:344-406 | Retry and Replan are granted exactly to the current epoch, over the aborted active execution, for the same plan or the same request under a new operation; the grant is the next fence and inserts exactly its rows |
| `TransactionGrants.BegunOnce` | storage/transaction/mysql/store.go:220-256 | a granted BeginPrepare is the only one its execution ever gets |
| `TransactionGrants.BeginExactly` | storage/transaction/mysql/store.go:220-256 | BeginPrepare is granted exactly to the capability holder with the stored plan, in the current epoch, before the lease ends, for a prepared execution nobody has begun or holds; it sets the started flag of that row and changes nothing else |
| `TransactionGrants.DecisionExactly` | storage/transaction/mysql/store.go:201-218 | evidence decides a reference exactly by the durable state of the execution that recorded it, in any epoch |
| `TransactionGrants.BindExactly` | storage/transaction/mysql/guard.go:19-64 | a guard is granted exactly to the capability holder with the stored plan in the current epoch, under a live lease, while the execution is prepared and held by no other host transaction |
| `TransactionGrants.BindHolds` | storage/transaction/mysql/guard.go:19-64 | Bind touches only its own host transaction: the binding row is shared once read, the execution locked once it matched, the guard kept exactly on success |
| `TransactionGrants.CommitWitnessExactly` | storage/transaction/mysql/guard.go:83-112 | a commit is staged exactly once per guard of the transaction; a failure in between poisons the transaction and stages nothing |
| `TransactionGrants.HostCommitExactly` | storage/transaction/mysql/guard.go:80-112 | the host commit makes exactly the staged executions and their witnesses Committed, unless poisoned |
| `TransactionGrants.AbortExactly` | storage/transaction/mysql/store.go:258-301 | an execution is aborted exactly by its capability, while prepared and held by nobody, and if asked only after its lease; it and its witnesses change state and nothing else changes |
| `TransactionGrants.RecordHalfExactly` | storage/transaction/mysql/receipt.go:28-84 | a half is recorded exactly for a branch of a prepared execution by its capability, if well formed and contradicting neither a definite outcome nor a known broker identity; only its four columns and time change |
| `TransactionGrants.RecordFinalExactly` | storage/transaction/mysql/receipt.go:28-106 | a final outcome is recorded exactly for a branch of an ended execution by its capability, if it agrees with the end and replaces no other definite outcome |
| `TransactionGrants.RecoveryFinalExactly` | storage/transaction/mysql/recovery_receipt.go:14-60 | recovery records a confirmation exactly for the stored reference of an execution that ended that way; a repeated one keeps the first time |
| `RecoveryCheck.CheckedExactly` | transport/rocketmq/transaction_lifecycle.go:160-194 | a recovery check is decided exactly for a half that is byte for byte a branch of a stored ended execution, on its own topic and a current route, and by how that execution ended |
| `TransactionStore.Store.Lookup` | storage/transaction/mysql/store.go:78-122 | an exact request finds its active execution without its capability; other inputs are conflicts or not found |
| `TransactionStore.Store.Reserve` | storage/transaction/mysql/store.go:123-161 | the first caller inserts fence 1 with all witnesses; a later one observes the winner, token 0, tables unchanged |
| `TransactionStore.Store.InsertWitnesses` | storage/transaction/mysql/store.go:178-199 | the loop inserts one prepared witness per branch |
| `TransactionStore.Store.Evidence` | storage/transaction/mysql/store.go:201-218 | a found row is the exact reference of the stored plan's branch with the durable state on both sides; none exactly when execution, branch or binding is missing; an error exactly for a foreign or invalid reference |
| `TransactionStore.Store.BeginPrepare` | storage/transaction/mysql/store.go:220-256 | the checks and the update are the operation of which BeginExactly states the exact condition and effect |
| `TransactionStore.Store.Abort` | storage/transaction/mysql/store.go:258-301 | execution and witnesses become Aborted together, or nothing changes |
| `TransactionStore.Store.Advance` | storage/transaction/mysql/store.go:338-406 | Retry and Replan insert fence + 1 only over durably aborted evidence of the active execution |
| `TransactionStore.Store.OldEvidence` | storage/transaction/mysql/store.go:344-406 | the locked evidence loop reads one row per branch of the previous execution |
| `TransactionStore.Store.ReconcileOnce` | storage/transaction/mysql/store.go:303-336 | the loop is the pass over the query's rows, with any transactions of others before each abort; the count and the first error are the pass's own |
| `Reconciliation.PassEndsExpired` | storage/transaction/mysql/store.go:303-336 | from every reachable store and under any interference a pass without an error leaves every execution the query returned terminal |
| `Reconciliation.QuietSweep` | storage/transaction/mysql/store.go:303-336 | undisturbed, the pass aborts exactly the executions the query returned, each with its witnesses, and counts them |
| `Reconciliation.PassCountsAborted` | storage/transaction/mysql/store.go:303-336 | whatever others do meanwhile, the pass counts no more than the executions it leaves aborted |
| `TransactionStore.Store.RecordHalf` | storage/transaction/mysql/receipt.go:65-84 | a half outcome is recorded or refused as the monotone audit rule says |
| `TransactionStore.Store.RecordFinal` | storage/transaction/mysql/receipt.go:85-106 | a final outcome is recorded only where it agrees with the terminal state |
| `TransactionStore.Store.RecordRecoveryFinal` | storage/transaction/mysql/recovery_receipt.go:14-60 | recovery confirms only a terminal execution and never downgrades |
| `TransactionStore.Store.Bind` | storage/transaction/mysql/guard.go:19-64 | a guard is handed out exactly when epoch, capability, lease and all witnesses match; the locks stay with the host transaction |
| `TransactionStore.Store.CompareWitnesses` | storage/transaction/mysql/guard.go:52-63 | the comparison loop accepts exactly the plan's own prepared witnesses |
| `TransactionStore.Guard.CommitWitness` | storage/transaction/mysql/guard.go:83-112 | the witnesses are staged Committed once; a failure poisons the host transaction |
| `SenderSafety.NextKeeps` | transport/rocketmq/transaction_sender.go:216-308 | every event of any process keeps the system invariant |
| `SenderSafety.BrokerAgreement` | transport/rocketmq/transaction_sender.go:342-382 | in every interleaving each end-transaction request, acknowledged or not, agrees with the durable state of the execution and all its witnesses; commit and rollback are never both sent for one execution |
| `SenderSafety.SentOnlyWhenDurable` | transport/rocketmq/transaction_lifecycle.go:160-194 | the state a request relies on is durable before the request is sent, by Execute or by a recovery check |
| `SenderSafety.ReportsTruth` | transport/rocketmq/transaction_sender.go:309-340 | a reported local outcome is the durable one |
| `SenderSafety.ProofDecides` | transport/rocketmq/transaction_sender.go:309-325 | evidence read branch by branch at different times still proves the durable state |
| `SenderSafety.OneHalfSetOneLocalRun` | transport/rocketmq/transaction_sender.go:216-308 | one caller gets past BeginPrepare, each half is sent at most once, local work runs at most once and only with all halves durable |
| `SenderSafety.LocalOnlyAfterHalves` | transport/rocketmq/transaction_sender.go:216-308 | local work starts only in a state where every branch has a durable prepared half and it has not run before |
| `SenderHalves.LocalAfterAllHalves` | transport/rocketmq/transaction_sender.go:240-289 | when local work begins, the prepare call of every branch had returned before without error, with a handle and a valid prepared receipt |
| `SenderHalves.ReportsOnlyWhatRan` | transport/rocketmq/transaction_sender.go:216-340 | a call that holds a half reports an outcome of local work only if it ran |
| `SenderHalves.HandleEnds` | transport/rocketmq/transaction_sender.go:255-282 | a handle is kept whatever else its prepare call returned; if the call ends knowing the outcome, the half behind it has been told |
| `SenderHalves.GivenUpDelivered` | transport/rocketmq/transaction_sender.go:242-282 | a call that is cancelled, or whose half or audit failed, aborts the execution where that is possible and rolls back every half it holds, reporting that local work never began |
| `SenderFinals.KnownOutcomeSent` | transport/rocketmq/transaction_sender.go:283-308 | a call that ended knowing the local outcome has sent the matching request for every branch of its plan |
| `SenderFinals.RecordedMeansAnswered` | transport/rocketmq/transaction_sender.go:342-382 | a recorded confirmation has an acknowledged request of that execution, branch and decision behind it, a recorded prepared half a valid prepared answer with the recorded identities |
| `SenderCompletion.FinalizeCompletes` | transport/rocketmq/transaction_sender.go:342-382 | finalizing goes through all handles, whatever the broker and the audits answer |
| `SenderCompletion.AnswerRecorded` | transport/rocketmq/transaction_sender.go:342-382 | where the column is open and the call meets no fault, the audit writes what the broker answered: the confirmed decision, or unknown with its code |
| `SenderCompletion.ProofCompletes` | transport/rocketmq/transaction_sender.go:309-325 | readable evidence proves the durable state, whatever it is |
| `SenderOutcomes.OutcomeDelivered` | transport/rocketmq/transaction_sender.go:283-308 | after local work that left a terminal execution the call ends with that outcome and the matching request sent for every branch, whatever the local work said |
| `SenderOutcomes.ReportedAbortDelivered` | transport/rocketmq/transaction_sender.go:290-308 | local work that reports an abort but left the execution prepared and unbound: it is aborted and every branch rolled back |
| `SenderOutcomes.UndecidedStaysSilent` | transport/rocketmq/transaction_sender.go:290-303 | an outcome that is not reported aborted and cannot be proved stays unknown and the broker is told nothing |
| `SenderOutcomes.UnstartedAbortDelivered` | transport/rocketmq/transaction_sender.go:326-341 | giving up before local work rolls back every half the call holds a handle for |
| `SenderOutcomes.StaleCallerReports` | transport/rocketmq/transaction_sender.go:226-239 | a caller that came too late to begin reports what the store proves and asks nothing of the broker |
| `SenderOutcomes.ExecuteReachesLocal` | transport/rocketmq/transaction_sender.go:226-289 | a caller that is granted the start, with every half answered as prepared, sends one half per branch and starts the local work |
| `SenderOutcomes.RecoveryAnswers` | transport/rocketmq/transaction_lifecycle.go:160-194 | a recovery check of an ended execution is answered with its outcome and once acknowledged recorded; while it is prepared the check stays silent |
| `ExecuteOnly.EventRefinesStore` | transport/rocketmq/transaction_sender.go:216-308 | every event is at most one database transaction, so the system refines the runs of the store |
| `ExecuteOnly.CommittedHalvesObserved` | transport/rocketmq/transaction_sender.go:216-308 | if hosts bind only inside started local work, every branch of every committed execution has a durable prepared half |
| `ObservedCommits.ObservedAtBind` | storage/transaction/mysql/guard.go:19-64 | from the grant of a guard to the host's commit, whatever others run, no recorded half changes: the commit is observed exactly if every half was prepared at the bind |
| `ObservedCommits.CommittedObservedIff` | internal/transactionobservation/observation.go:85-87 | over every run a committed execution was locked by some bind, and all its branches are observed exactly if every half was prepared when that bind ran |
| `ObservedCommits.LockedKeepsHalves` | storage/transaction/mysql/receipt.go:28-84 | no transaction changes a recorded half of an execution a host transaction holds |
| `ObservedCommits.CommittedKeepsHalves` | storage/transaction/mysql/receipt.go:65-84 | nor of a committed execution |
| `ObservedCommits.HastyCommitUnobserved` | storage/transaction/mysql/guard.go:83-112 | for every plan and binding of its owner a host that binds right after Reserve commits branches whose halves were never attempted |
| `Observation.Accumulator.Observe` | storage/transaction/mysql/observation.go:20-95 | the first binding, schema, clock or metadata error ends it and no rows is a binding error; otherwise each counter is the number of rows it stands for and the two ages are the maxima over gaps and preparing executions |
| `Observation.Accumulator.Execution` | internal/transactionobservation/observation.go:45-58 | an invalid state or lease is refused without effect; otherwise reserved or preparing is counted, with the oldest expired lease |
| `Observation.Accumulator.Branch` | internal/transactionobservation/observation.go:60-107 | an invalid state or outcome is refused without effect; otherwise the branch adds to exactly the counters whose condition it meets and raises the oldest gap age |
| `Observation.Refused` | storage/transaction/mysql/observation.go:30-84 | the checks on one row, in order, refuse exactly what does not read as a row |
| `Observation.NoMetadataConflicts` | internal/transactionobservation/observation.go:60-107 | no reachable store shows a metadata conflict or a gap without an age |
| `Observation.NoUnobservedCommits` | internal/transactionobservation/observation.go:85-87 | hosts that commit only through Execute never show an unobserved committed branch |
| `OutboxSafety.OneClaimCanSettle` | storage/mysql/store.go:182-201 | at most one handed-out claim of a row can settle it, even if tokens repeat |
| `OutboxSafety.SettlesOnce` | storage/mysql/store.go:182-201 | no two settlements share a grant, and a settled claim never settles again |
| `OutboxSafety.SupersededForever` | storage/mysql/store.go:182-201 | a claim the row has moved past changes nothing in any continuation |
| `OutboxSafety.ExpiredChangesNothing` | storage/mysql/store.go:182-201 | past its lease a claim changes nothing |
| `OutboxSafety.LiveClaimSettles` | storage/mysql/store.go:163-201 | a live current claim settles, and only its own row changes |
| `OutboxSafety.NoLoss` | storage/mysql/store.go:85-161 | in every continuation a row is still there with its fingerprint, and published, quarantined, or eligible exactly from its next attempt time on |
| `OutboxSafety.SelectedIff` | storage/mysql/store.go:102-104 | a scan takes an eligible row exactly if fewer than its limit come before it |
| `OutboxSafety.DueRowPickedUp` | storage/mysql/store.go:102-161 | a due row that is not skipped is claimed with its original message, or quarantined, exactly if fewer than the limit come before it; otherwise it is untouched |
| `OutboxSafety.OnlyOriginalContent` | storage/mysql/store.go:120-146 | a claim hands out the message the row was appended with, whatever happened to its columns |
| `OutboxSafety.FiltersAgree` | storage/mongo/store.go:53-60 | in every table reachable by the claims of either store, and at every instant, the document filter selects the rows of the relational one |
| `OutboxEffects.SettleExactly` | storage/mysql/store.go:163-201 | a settlement is written exactly under a held claim with a usable argument, to that row only, and its columns say what was asked |
| `OutboxEffects.ClaimExactly` | storage/mysql/store.go:116-161 | a batch holds each intact candidate and sets each corrupt one aside, column by column, and hands out a copy of exactly the held rows |
| `OutboxEffects.AppendExactly` | storage/mysql/store.go:43-73 | a new identity is stored pending under its own fingerprint, a known one accepted exactly with the same fingerprint; no other row changes |
| `OutboxEffects.RequeueExactly` | storage/mysql/requeue.go:31-59 | a published row is requeued exactly at the named version and fingerprint; it is due at once and keeps its confirmation |
| `OutboxEffects.EarlierFirst` | storage/mysql/store.go:102-104 | work is handed out by due time, and by age among rows due at the same time |
| `OutboxSafety.ApplyKeeps` | storage/mysql/requeue.go:31-59 | appends, claims, settlements, requeues and corruption keep the outbox invariant; the version grows with every change |
| `Relay.NoFalsePublish` | relay/relay.go:122-158 | a row is published only by a Confirmed publish of its original message under the settling claim |
| `Relay.NothingLost` | relay/relay.go:66-158 | in every continuation an accepted message's row is there: quarantined, or found from its next attempt time on, or published by a Confirmed publish of that very message under the settling claim |
| `Relay.PublishLeavesDue` | relay/relay.go:122-158 | in every run a publish without confirmation leaves its row eligible exactly from the policy's delay on, or quarantined if the policy says so; a confirmed one never; a lost, stale or unusable write leaves it eligible exactly from the end of the lease |
| `MongoClaims.NextPick` | storage/mongo/store.go:49-77 | a find at a later instant takes the head of the batch of an earlier one, or, that exhausted, a record that fell due since |
| `MongoClaims.BatchFirst` | storage/mongo/store.go:42-97 | from every reachable table and for finds at any instants within one lease, the picks begin with the relational batch at the first instant, further ones fell due since, none is picked twice; a loop no failed quarantine cut short picks the whole batch |
| `MongoClaims.SameRecords` | storage/mongo/store.go:42-97 | at one instant both stores claim the same records in the same order |
| `MongoStore.Store.FindOneAndUpdate` | storage/mongo/store.go:53-77 | the found document is held under the token whatever its content |
| `MongoStore.Store.Quarantine` | storage/mongo/store.go:108-152 | one conditional settlement, matched exactly if the claim can still settle, that quarantines that document and changes no other |
| `MongoStore.Store.ClaimDue` | storage/mongo/store.go:42-97 | the loop returns exactly the claims it issues, one per intact document, and ends early exactly when setting a corrupt one aside fails |
| `OutboxStore.Store.Append` | storage/mysql/store.go:43-76 | a message of a known producer, id and destination is accepted without a new row if its content is identical and is a conflict otherwise; a new one gets a pending row |
| `OutboxStore.Store.ClaimDue` | storage/mysql/store.go:85-161 | the loop holds every intact candidate until the end of its lease and quarantines every corrupt one, column by column; the claims are copies of exactly the held rows |
| `OutboxStore.Store.Confirm` | storage/mysql/store.go:163-165 | written exactly under a held claim, to its row only: published, confirmed now, error cleared, claim released, version one up, all else as it was |
| `OutboxStore.Store.Retry` | storage/mysql/store.go:166-175 | written exactly under a held claim with a positive delay and a bounded code, to its row only: waiting, due at the first microsecond at least the delay away, one more failure with the code, claim released, version one up, all else as it was |
| `OutboxStore.Store.Quarantine` | storage/mysql/store.go:176-181 | written exactly under a held claim with a bounded code, to its row only: quarantined, one more failure with the code, claim released, version one up, all else as it was |
| `OutboxStore.Store.RequeueConfirmed` | storage/mysql/requeue.go:31-59 | invalid arguments are refused; a published row of the given version and fingerprint becomes due at once with a new version and the request, every other column as it was; anything else is stale |
| `OutboxStore.Deliver` | relay/relay.go:122-158 | an outcome is written as exactly one conditional settlement; published means Confirmed |
| `DeliveryOrder.ConfirmedForever` | delivery/mysql/outbox.go:111-122 | confirmation by receipt is permanent |
| `DeliveryOrder.DeliveriesFollowSequence` | delivery/mysql/outbox.go:64-89 | in every run with in-order appends all deliveries of a receipt-required record precede those of its successors |
| `DeliveryOrder.ReceiptFreeOvertaken` | delivery/mysql/outbox.go:150-163 | a rearmed record without a receipt is delivered after its successor |
| `DeliveryOrder.LateAppendOvertaken` | delivery/mysql/outbox.go:64-89 | in whatever state, a record appended after its successor was delivered is delivered after it |
| `DeliveryOrder.OutOfSequenceReachable` | delivery/mysql/outbox.go:64-89 | such a run exists for every pair of ordered records |
| `DeliveryEffects.StageExplained` | delivery/mysql/outbox.go:91-149 | in every run a receipt-required record is confirmed only if its receipt came, held only if put on hold, and awaits a receipt only after a publication |
| `DeliveryEffects.HeldUntilReceipt` | delivery/mysql/outbox.go:91-163 | a held record does not change at all until its receipt comes |
| `DeliveryEffects.OthersNeverBlock` | delivery/mysql/outbox.go:64-89 | a record of another producer, destination or aggregate never holds a record back |
| `DeliveryEffects.RetryDue` | delivery/mysql/outbox.go:64-136 | after a failed attempt an open record is pending again exactly from its delay on and once its predecessors are confirmed |
| `DeliveryEffects.PublishedExactly` | delivery/mysql/outbox.go:91-110 | a publication counts exactly for the named record and a wait of 1 to 60 seconds, once, as the record requires, column by column |
| `DeliveryEffects.ConfirmExactly` | delivery/mysql/outbox.go:111-122 | a receipt confirms exactly the named record that requires one |
| `DeliveryEffects.RetryExactly` | delivery/mysql/outbox.go:123-136 | a failed attempt changes exactly attempts, time and code of an open record |
| `DeliveryEffects.HoldExactly` | delivery/mysql/outbox.go:137-149 | exactly an unconfirmed record can be held |
| `DeliveryEffects.RearmExactly` | delivery/mysql/outbox.go:150-163 | exactly a receipt-free record that is not held is staged again |
| `DeliveryStore.Outbox.Locked` | delivery/mysql/outbox.go:44-62 | only the exact record with the exact body is found |
| `DeliveryStore.Outbox.Published` | delivery/mysql/outbox.go:91-110 | awaiting a receipt or confirmed, as the record requires |
| `DeliveryStore.Outbox.Confirm` | delivery/mysql/outbox.go:111-122 | a receipt confirms a record that requires one, otherwise a conflict |
| `DeliveryStore.Outbox.Retry` | delivery/mysql/outbox.go:123-136 | attempts and time advance unless confirmed or held |
| `DeliveryStore.Outbox.Hold` | delivery/mysql/outbox.go:137-149 | held unless confirmed |
| `DeliveryStore.Outbox.RearmAck` | delivery/mysql/outbox.go:150-163 | a receipt-free record is staged again unless held |
| `Drain.BoundedAndClosedOnce` | transport/nsq/publisher.go:72-138 | at most the limit of driver sends at once; the channel is closed exactly when stopping with nothing active, never twice |
| `Drain.NoSendAfterDrain` | transport/nsq/publisher.go:115-125 | once drained, no driver send is in progress or ever starts again |
| `Drain.DrainNeverRetreats` | transport/nsq/publisher.go:72-113 | once stopping, no step of anybody, new callers included, adds to the driver calls in progress |
| `Drain.DrainCompletes` | transport/nsq/publisher.go:93-138 | from every state in which the drain has begun the driver calls in progress lead by their own steps to the closed channel |
| `Drain.Publisher.AdmitSection` | transport/nsq/publisher.go:83-90 | the locked section admits unless stopping or cancelled and gives the slot back otherwise |
| `Drain.Publisher.FinishSection` | transport/nsq/publisher.go:97-102 | the last active send of a stopping publisher closes the channel |
| `Drain.Publisher.BeginDrain` | transport/nsq/publisher.go:127-138 | the first drain stops admission and closes the channel of an idle publisher |
| `Handoff.EveryProducerStoppedOnce` | transport/nsq/handoff_transport.go:149-185 | when a Close succeeds every producer ever created has been stopped exactly once and no send is left, and no continuation creates, stops or sends; also when Close races Ready |
| `Handoff.StopsAfterSends` | transport/nsq/handoff_transport.go:63-185 | producers stop only when no admitted send is left; after the first Close section none is created and nothing admitted |
| `HandoffBinding.BoundForGood` | transport/nsq/handoff_transport.go:63-185 | one topic for good and one producer per address; from the moment a Close has entered nothing is added and no publish starts, also by a Ready in its section |
| `HandoffBinding.AdmittedExactly` | transport/nsq/handoff_transport.go:100-147 | a waiting publish gets through exactly while nothing is closing, for a ready address and the bound topic |
| `Settlement.ExactlyOneAnswer` | transport/nsq/subscription.go:99-149 | a delivery gets at most one Finish or Requeue, exactly one by its return, a Finish only after an acknowledgement or a confirmed handoff; no continuation, late calls after the return included, changes the answer |
| `SettlementOutcomes.AnswerExactly` | transport/nsq/subscription.go:175-210 | in every run an answered delivery that was not acknowledged is requeued exactly while attempts are left or its handoff was not confirmed; the handoff is tried exactly once attempts are used up; only decodable deliveries within their attempts are acknowledged |
| `SettlementOutcomes.FirstCallDecides` | transport/nsq/subscription.go:328-349 | the first Ack or Nack on an open delivery decides its answer in every continuation, whatever is called later |
| `SettlementOutcomes.ResultDecides` | transport/nsq/subscription.go:130-149 | a handler that settles nothing is settled by its result: acknowledged without an error, failed with one |
| `Settlement.SettlementCompletes` | transport/nsq/subscription.go:318-349 | once the handler has returned, the delivery's own steps lead its call back to the driver, whatever the handoffs answer |
| `Settlement.CausesExact` | transport/nsq/subscription.go:175-229 | if deliveries of a message do not overlap, its cause is remembered exactly when its latest answer was a requeue |
| `SettlementOverlap.StaysExactIff` | transport/nsq/subscription.go:175-229 | where all deliveries of a key in progress are undecided and its cause is exact, it is exact again however they go on exactly if at most one is in progress |
| `SettlementOverlap.OverlapLeaks` | transport/nsq/subscription.go:130-137 | from any state any two undecided deliveries of a key, among any number, can leave it finished with its cause remembered, for every limit and attempt count |
| `SettlementOverlap.OverlapReachable` | transport/nsq/subscription.go:130-137 | such overlaps are reachable for every key and limit |
| `Backoff.RetryDelay` | transport/nsq/subscription.go:262-284 | the delay is the base doubled per earlier attempt, capped at the limit, without overflow |
| `Lifecycle.ShutdownOrder` | transport/rocketmq/transaction_lifecycle.go:236-261 | the backend is closed at most once and only after Start, all admitted sends, the maintenance loop and all queued and running checks; no check is sent on the closed channel |
| `Lifecycle.NothingAdmittedAfterStop` | transport/rocketmq/transaction_sender.go:184-205 | after StopAdmission nothing is ever admitted |
| `Lifecycle.ClosedIsFinal` | transport/rocketmq/transaction_lifecycle.go:236-261 | nothing runs again after the backend is closed |
| `Lifecycle.ShutdownCompletes` | transport/rocketmq/transaction_lifecycle.go:228-270 | a begun shutdown whose Start and sends are over reaches the stopped state by its own steps |
| `LifecycleLaws.StartEndsOneWay` | transport/rocketmq/transaction_lifecycle.go:63-110 | a Start that is over has left the sender fully started or a shutdown has begun; a successful one gives up only if stopped; a stopped sender is not started; queue and workers keep their limits |
| `LifecycleLaws.HealthGatesAdmission` | transport/rocketmq/transaction_sender.go:195-215 | after a database failure nothing is admitted until the database has answered again, then a started sender with room admits |
| `Lifecycle.Sender.BeginStart` | transport/rocketmq/transaction_lifecycle.go:63-72 | one Start ever begins, none once stopping |
| `Lifecycle.Sender.EndStart` | transport/rocketmq/transaction_lifecycle.go:92-101 | the maintenance loop starts only if Start succeeded and nobody stopped admission |
| `Lifecycle.Sender.StopAdmissions` | transport/rocketmq/transaction_lifecycle.go:228-235 | the stopping flag is set and nothing else changes |
| `Lifecycle.Sender.AdmitSection` | transport/rocketmq/transaction_sender.go:195-205 | a send is counted exactly when the sender is started, healthy, not stopping and below its check budget, and then the backend is open |
| `Lifecycle.Sender.CloseChecks` | transport/rocketmq/transaction_lifecycle.go:246-249 | the check channel is closed after the maintenance loop, in the section that sets the flag |
| `Preimage.FenceBytes` | transaction/reference_codec.go:73-77 | the shift loop writes the eight big-endian bytes of every fence |
| `Preimage.FieldsInjective` | transaction/plan.go:63-68 | a list of length-prefixed fields is determined by its bytes, its length included |
| `Preimage.WritePlan` | transaction/plan.go:87-104 | the writes of the plan digest are the plan's encoding |
| `Preimage.WriteFields` | message/message.go:51-58 | the writing loop appends the length-prefixed fields |
| `Preimage.DomainsApart` | transaction/store.go:34-43 | encodings under different domains never meet |
| `Preimage.EncodeInjective` | transaction/reference_codec.go:67-82 | plan, request, execution, message, topic and group encodings are injective and pairwise disjoint |
| `Preimage.DigestNames` | transaction/plan.go:87-108 | digests are equal exactly for equal identities, unless the hash collides on the strings at hand |
| `EnvelopeChecksum.Checksum` | wire/legacy/envelope.go:100-121 | the checksum input is the parts in sorted key order, whatever order the map is walked in |
| `EnvelopeChecksum.EnumerationUnique` | wire/legacy/envelope.go:103-107 | a key set has one sorted enumeration |
| `EnvelopeChecksum.ChecksumDetermines` | wire/legacy/envelope.go:100-121 | two envelopes have the same checksum input exactly when uuid, metadata and payload agree |
| `Naming.MatchesReadable` | transport/routing_v3.go:12 | the field pattern's language, character by character |
| `Naming.ReadableName` | transport/routing_v3.go:14-27 | a name exists exactly for readable fields within 64 bytes |
| `Naming.SameNameIff` | transport/routing_v3.go:14-27 | two field lists get one name exactly when equally long with fields equal up to dot against dash |
| `Naming.TopicV3Determines` | transport/routing_v3.go:29-40 | a readable topic fixes the message type exactly and the rest up to dot against dash |
| `Naming.DotAndDashMeet` | transport/routing_v3.go:14-27 | a dotted and a dashed field share a name |
| `Naming.ClassesApart` | transport/routing_v2.go:35-49 | topics and groups of the three schemes never share a name, whatever the digest |
| `Routes.ValidateRoutes` | transport/routing.go:33-72 | accepts exactly nonempty lists of canonical rows without duplicates, topic collisions or group collisions |
| `Routes.CanonicalFields` | transport/routing.go:33-72 | a valid row without a message type has no owner, revision or scheme; every other names one of the two types, an owner and a revision |
| `RouteResolver.NewRouteResolver` | transport/routing_v3.go:94-133 | accepts exactly valid lists with disjoint topics, one group per active subscription and one subscription per group; records the last row of each topic |
| `RouteResolver.AddList` | transport/routing_v3.go:106-131 | one pass of the construction loop fails exactly on an overlap, mixed groups or a group collision |
| `RouteResolver.PublishRoute` | transport/routing_v3.go:135-144 | the first active row of the key, or an error |
| `RouteResolver.FirstFound` | transport/routing_v3.go:135-144 | a publishing route is found exactly for keys of active rows and is such a row |
| `RouteResolver.SubscriptionRoutes` | transport/routing_v3.go:155-168 | the active rows serving the subscription in order, or an error when there is none |
| `RouteResolver.RecordedExactly` | transport/routing_v3.go:146-153 | a recorded route is found exactly for the (key, topic) pairs of either list |
| `RouteResolver.SubscriptionHasOneGroup` | transport/routing_v3.go:155-168 | subscription rows are active, in one consumer group, and share no topic with history |
| `RouteManifest.ParseRouteManifest` | transport/routing_v3.go:176-198 | accepts exactly nonempty input of at most one mebibyte that decodes to a manifest whose rows fit its version and whose lists the resolver accepts |
| `RouteManifest.RowOrderIrrelevant` | transport/routing_v3.go:176-198 | reordering rows keeps acceptance and every published topic, which is the one the version prescribes |
| `RouteManifest.OrderFreeIff` | transport/routing_v3.go:94-144 | without a manifest the published topic is independent of row order exactly when the key's rows share a scheme |
| `RouteManifest.MixedSchemesDependOnOrder` | transport/routing_v3.go:94-144 | rows of one key in two schemes are accepted in both orders and publish differently |

## Left out

- The transaction store over MongoDB and the Python packages: second implementations of the same store and sender.
- The vendored RocketMQ driver, the NSQ driver, discovery, provisioning, subscriber wiring and network start-up: the broker is an environment that accepts, refuses or loses each call.
- JOSE signing and encryption of protected envelopes, JSON, base64, RFC 3339 time parsing and UTF-8 validity of fields.
- SHA-256 itself: the hash is a parameter, and table keys are the identities whose encodings the store hashes.
- `guard_version` and the 64-bit overflow of row versions: neither can change an outcome before 2^64 changes of one row.
- The jitter of the retry delay, which adds a floating-point fraction of the delay computed here.
- `Execute`, the recovery check, `DirectHandoff`, `HandleBusiness` and the relay's scan loop are step machines rather than objects, because other processes move between any two of their steps; the objects modelled are the stores, the guard, the accumulator, the publisher and the sender's guarded fields.
- Plan cloning and payload copying: values are immutable in the model, so aliasing between a plan and its caller is not captured.
- Catalog, outbox status builder, signaling, domain envelope and statistics counters: lookups and wrappers that would add only easy members.
- DeliveryOrder.DeliveriesFollowSequence: needs ordered records of an aggregate appended in increasing sequence, as the host must; LateAppendOvertaken shows what happens otherwise.
- Lifecycle.ShutdownCompletes: assumes that Start and the admitted sends have returned, which are bounded by timeouts that the model does not measure.
- RouteManifest.ParseRouteManifest: takes what the JSON decoder made of the bytes; JSON itself is not modelled.
- Observation.Accumulator.Observe: takes columns as missing, malformed or parsed; the text formats of the clock columns are not modelled.
- MongoClaims.BatchFirst: compares the two stores' claim loops while no other process changes the records; safety under interference is OutboxSafety's, whose runs contain the single claims.
- RecoveryCheck.CheckedExactly: takes what the reference property decodes to; its JSON text is not modelled.
- OutboxEffects.RequeueExactly: whitespace around the request id is recognised for ASCII only.
- OutboxStore.Store.RequeueConfirmed: whitespace around the request id is recognised for ASCII only.
