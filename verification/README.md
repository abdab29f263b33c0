# Durable recovery protocol

An agent run can stop in the middle of a tool call. Recovery commands bring it forward, quarantine it or write it off,
while other workers, an outbox dispatcher, an ACL writer and external providers act on the same SQLite file. Each public
method of the recovery components is one transaction; everything between two transactions may interleave with everybody
else, and any worker may crash between two statements. This project models those components and proves what holds over
every interleaving.

## How the model is built

- `Text`, `Records`, `Database`: identifiers, JavaScript number limits, the stored records, and the tables as maps with
  their UNIQUE keys. `SqliteFile` is the one object every component updates in place.
- Components are classes on that file whose methods write row by row and roll back. Each method is proved equal to a
  specification function on the table contents (`EffectLedger.Stage`, `CommandUnitOfWork.Commit`,
  `ReceiptFinalizer.Finalize`, `OutboxDelivery.ClaimLease`, ...). Where a method awaits between statements, the states
  that rivals leave are parameters, so the statement covers every interleaving.
- `World` is the state machine over all of them: twenty-four kinds of step, atomic and legacy workers with a program
  counter, crashes, ACL changes, and histories of checkpoints, control rows, fences and invocations. `Invariants` holds
  one predicate per group of tables. `LedgerRows`, `LedgerPreservation`, `CommandLinks`, `CommandPreservation`,
  `DeliveryPreservation` and `CommitPreservation` prove that each step keeps them; `Safety` lifts that to every run.
  `Frames` says what each kind of step leaves alone.
- The theorems are in `EffectTheorems`, `CommandTheorems`, `StaleRejection`, `ReceiptTheorems`, `ReceiptPath`,
  `ReplayScenes`, `AuthorityTheorems`, `AuthorityScenes`, `ServiceRefinement` and `OutboxProjection`.
- `LedgerAnswers`, `CommitAnswers`, `ClaimAnswers`, `ReceiptAnswers` and `DeliveryAnswers` pin every answer and every
  stored field of the transactions in terms of the rows alone, over reachable states and over runs, without the checks
  the specifications are made of: when each call is accepted, what it stores, and what later callers are told.
- `ConsumerInbox`, `DeliveryRuns` and `DeliveryTheorems` add the consumer in its own database and a network that loses,
  delays, repeats and reorders; `EndToEnd` joins them with `World`. `FencedDelivery` and `FenceTheorems` add writer epochs.
- `RecoveryPreparation`, `CheckpointCoordinator` and `CoordinatorRuns` are the pure planner, the optimistic loop and any
  number of coordinators. `RecoveryOperations` is the older service, `CommandStore` the in-memory store and executor,
  `Orchestrator` and `EntryDispatcher` the routes.
- `Admission`, `Lifecycle`, `AdmissionRuns` and `AdmissionTheorems` are run admission composed with the lifecycle.

Many lemmas are small on purpose: they isolate one table or one step so that each proof stays far below the solver's
limit, and the assembling lemmas hide the definitions they do not need.

## What the code does not guarantee

These statements are false of the code. For each there is a concrete input that the code can receive, and the exact
condition under which the statement holds is proved for all inputs.

- Once authority has changed, steps that carry the old evidence still write: `confirmApplied`, `markUnknown` and
  `reconcileAgainstSameSQLiteSink` never look at the authority tables. `AuthorityScenes.RevokedAuthorityStillWrites` is a
  run in which all three write after a revocation; `AuthorityTheorems.StaleEvidenceWritesIff` says exactly when they do,
  and that they move the status of one effect and nothing else. The legacy store does not look either, not even for a
  command that was claimed with an evidence (`AuthorityTheorems.LegacyIgnoresAuthority`).
- A rejected adapter commit need not be serial: a rejection that was caused by a stale read commits once the version has
  caught up (`StaleRejection.StaleRejectionCommits`). A commit is serial exactly when its reads did not lag behind the
  versions its command expects, or authorization was refused (`CommandTheorems.AcceptedCommitsAreSerial`).
- A finalization does not imply that the authority of the claim held throughout: the claim's evidence is not stored
  (`AuthorityScenes.FinalizedWithoutClaimedAuthority`). It does exactly when the staged intent carries that evidence
  (`AuthorityTheorems.FinalizeKeepsClaimedAuthorityIff`).
- A replay is not unconditional: the next command of the run ends it (`ReplayScenes.ReplayIsDeniedOnceControlMoved`).
  `ReceiptTheorems.FinalizeReplays` is the equivalence.
- `executeOnce` does not look at the record again when its insert won, so under a store that lets a rival load and start
  between that insert and the load the handler is called twice (`CommandStore.HandlerCalledTwice`). The in-memory store
  answers in the order in which it is called, which leaves a rival no room there, and the SQLite legacy store refuses to
  take an executing record to executing. A command is started twice exactly when some start found it at version 2 or
  later (`CommandStore.StartedTwiceIff`).
- With two records of the same tool call id the checkpoint may never come to rest
  (`RecoveryPreparation.TwoRecordsNeverRest`, exactly when: `RecoveryPreparation.StabilizesIff`).
- "Never executed" does not mean that the tool was not executed when it is retried unasked
  (`RecoveryPreparation.StrictSoundnessIsLost`, exactly when: `RecoveryPreparation.StrictSoundnessKeptIff`).

## Model

| member | source | states |
|---|---|---|
| EffectLedger.SQLiteRecoveryExternalEffectLedger.StageIntent | src/runtime/recovery-external-effect-ledger.ts:244-261 | the file afterwards and the answer are those of the staging specification: one new pending effect at epoch 0, or the stored status for the identical intent, or a denial that writes nothing; unique keys stay unique |
| EffectLedger.SQLiteRecoveryExternalEffectLedger.ClaimForDispatch | src/runtime/recovery-external-effect-ledger.ts:267-300 | only a pending effect under current authority is leased, at the next epoch and with the fence for it; every other status is reported without a write |
| EffectLedger.SQLiteRecoveryExternalEffectLedger.DispatchToSameSQLiteSink | src/runtime/recovery-external-effect-ledger.ts:307-333 | a sink receipt is inserted once, under the leased epoch and the fence that carries it |
| EffectLedger.SQLiteRecoveryExternalEffectLedger.ConfirmApplied | src/runtime/recovery-external-effect-ledger.ts:336-353 | an effect is committed only against its own stored sink receipt at the fenced epoch |
| EffectLedger.SQLiteRecoveryExternalEffectLedger.MarkEffectUnknown | src/runtime/recovery-external-effect-ledger.ts:356-366 | only a leased effect at that epoch becomes unknown |
| EffectLedger.SQLiteRecoveryExternalEffectLedger.ReconcileAgainstSameSQLiteSink | src/runtime/recovery-external-effect-ledger.ts:374-398 | unknown goes to committed or back to pending by the local receipt alone, and never with a remote receipt stored |
| EffectLedger.SQLiteRecoveryExternalEffectLedger.PersistReviewedRemoteAppliedReceipt | src/runtime/recovery-external-effect-ledger.ts:415-494 | the three lookups by receipt, effect and key store a reviewed receipt once, keep the first observation, and deny every clash |
| LedgerAnswers.OnlyAcceptedStepsChange | src/runtime/recovery-external-effect-ledger.ts:244-494 | over every step of the protocol: an effect changes only by an accepted claim, an accepted end of its lease or an accepted end of UNKNOWN |
| LedgerAnswers.InFlightUntilLeaseEnds | src/runtime/recovery-external-effect-ledger.ts:271-272 | in every run, from an accepted claim until its mark-unknown or confirmation, every further claim by any dispatcher is answered in flight and changes nothing |
| LedgerAnswers.ReconcileFirstUntilUnknownEnds | src/runtime/recovery-external-effect-ledger.ts:271-272 | in every run, from mark-unknown until UNKNOWN ends, every claim is answered reconcile first and changes nothing |
| LedgerAnswers.CommittedForGood | src/runtime/recovery-external-effect-ledger.ts:271-272 | in every run, after a confirmation, a committing reconciliation or a finalization every claim is answered already committed, for good |
| LedgerAnswers.PendingIsClaimable | src/runtime/recovery-external-effect-ledger.ts:267-300 | a pending effect is leased to a well-formed claim if and only if its command may act and epochs are left, with the fence of the next epoch |
| LedgerAnswers.StageAnswers | src/runtime/recovery-external-effect-ledger.ts:244-261 | staging is accepted if and only if command and evidence rows allow it and no other effect is in the way; the answer is the status stored afterwards |
| LedgerAnswers.DispatchAnswers | src/runtime/recovery-external-effect-ledger.ts:307-333 | dispatch is accepted if and only if the fence is the current one of a leased effect whose command may act; the first answer is committed, every further one already applied without a write |
| LedgerAnswers.ConfirmAnswers | src/runtime/recovery-external-effect-ledger.ts:336-353 | a confirmation is accepted if and only if the fence is current and the effect has its sink receipt, and commits that row alone |
| LedgerAnswers.ReconcileAnswers | src/runtime/recovery-external-effect-ledger.ts:374-398 | accepted if and only if unknown without a remote receipt; the answer agrees with the sink receipt and with the status stored afterwards |
| ReceiptAnswers.PersistAnswers | src/runtime/recovery-external-effect-ledger.ts:415-494 | a receipt is stored now, known already or refused: each if and only if stated on effect, command, authority, registry answers and stored receipts, without the review function |
| ReceiptAnswers.PlanAnswers | src/runtime/recovery-external-effect-ledger.ts:503-594 | the readiness review is positive if and only if the rows and the registry allow a terminal transaction, and the plan then repeats the stored receipt and the command field by field |
| Authority.BoundFenceIsIssued | src/runtime/recovery-external-effect-fence.ts:51-88 | a fence passes the binding check if and only if it is the one a dispatch claim issues for that intent at a safe epoch |
| Authority.FactsAdvanceTransitive | src/runtime/recovery-authorization-evidence.ts:97-107 | monotone revisions compose over steps, so an unchanged triple means unchanged rows |
| Authority.AuthorityHoldsIff | src/runtime/recovery-authorization-evidence.ts:73-107 | the authority check holds if and only if the evidence is the caller's own and the run, grant and permission rows say exactly what it recorded |
| ReceiptReview.ReviewAcceptsIff | src/runtime/recovery-remote-receipt-review.ts:99-203 | a receipt is accepted for storage if and only if every independent check holds, and the accepted identity is the bound one |
| LedgerPreservation.LedgerStepKeepsInv | src/runtime/recovery-external-effect-ledger.ts:244-494 | each of the seven ledger transactions keeps every cross-table invariant and only advances the state |
| EffectTheorems.ReceiptsAreExclusive | src/runtime/recovery-external-effect-ledger.ts:244-494 | in every reachable state: pending means no receipt, never both kinds, committed means exactly one of a sink receipt and a consumed remote receipt |
| EffectTheorems.EpochsCountClaims | src/runtime/recovery-external-effect-ledger.ts:267-300 | the epoch of an effect counts its successful dispatch claims, stays at most 2^53 - 1, and its fences have distinct epochs |
| EffectTheorems.AcceptedFencesWereIssued | src/runtime/recovery-external-effect-ledger.ts:307-353 | any fence a dispatch, confirmation or receipt storage accepts is the latest one issued for that effect |
| EffectTheorems.AppliedOnceHere | src/runtime/recovery-external-effect-ledger.ts:307-353 | with a sink receipt stored nothing is applied again and no other epoch is accepted |
| EffectTheorems.AppliedEpochIsFinal | src/runtime/recovery-external-effect-ledger.ts:267-398 | once a sink receipt exists its epoch is the effect's epoch in every later state, and no other fence is ever answered committed or already applied |
| EffectTheorems.RemoteReceiptsAreAnInjection | src/runtime/recovery-external-effect-ledger.ts:374-494 | effects and (provider, receipt id) pairs match one to one, rows never change, and the effect leaves unknown only by consumption |
| EffectTheorems.AlreadyStoredIff | src/runtime/recovery-external-effect-ledger.ts:451-479 | "already stored" is answered if and only if fence, authority and review hold and the receipt equals the stored one up to its observation time; nothing is written |
| ReceiptFinalizer.SQLiteRecoveryRemoteReceiptFinalizer.CheckReplay | src/runtime/recovery-remote-receipt-finalizer.ts:163-203 | the replay check found by event id equals the replay condition on the tables |
| ReceiptFinalizer.SQLiteRecoveryRemoteReceiptFinalizer.WriteAll | src/runtime/recovery-remote-receipt-finalizer.ts:261-298 | five writes in order, each reaching its one row, or the reason the transaction must roll back |
| ReceiptFinalizer.SQLiteRecoveryRemoteReceiptFinalizer.FinalizeReceipt | src/runtime/recovery-remote-receipt-finalizer.ts:94-307 | answer and tables are those of the finalization specification; every denial and replay leaves the tables as they were |
| ReceiptFinalizer.ApplyWritesKeepsSchema | src/runtime/recovery-remote-receipt-finalizer.ts:260-299 | what passes the checks violates no UNIQUE constraint |
| ReceiptTheorems.FinalizeIsAllOrNothing | src/runtime/recovery-remote-receipt-finalizer.ts:118-307 | a denial, a fault or a replay changes nothing; a success changes exactly one row in each of five tables, consistently |
| ReceiptTheorems.FinalizationStores | src/runtime/recovery-remote-receipt-finalizer.ts:236-299 | the five rows of a success field by field: the operation's own result and reason at the expected checkpoint version, the control row by a legal move in the requester's name, the receipt's consumption and one event; nothing else of those rows changes |
| ReceiptAnswers.FinalizeDecides | src/runtime/recovery-remote-receipt-finalizer.ts:94-299 | in reachable states a first call succeeds if and only if fence, plan, stored receipt, authority, effect, command, checkpoint, control row and registry are as stated row by row and no fault is injected |
| ReceiptAnswers.FinalizeOnConsumed | src/runtime/recovery-remote-receipt-finalizer.ts:160-207 | a call for a consumed effect is answered from its consumption row if and only if the caller is entitled and the run's control version is still that one; it never writes |
| ReceiptTheorems.FinalizesIff | src/runtime/recovery-remote-receipt-finalizer.ts:209-299 | in reachable states a first finalization succeeds if and only if the checks hold, the operation applies, the registry does not drift and no fault is injected |
| ReceiptTheorems.FinalizeReplays | src/runtime/recovery-remote-receipt-finalizer.ts:160-207 | after a success the same input, at any later state, replays the same version and event if and only if authority holds and the control version has not moved; it never writes |
| ReplayScenes.NextCommandEndsReplay | src/runtime/recovery-remote-receipt-finalizer.ts:196-203 | for every finalization: once the next command of the run is finalized, repeating the first input is denied, though its authority still holds |
| ReplayScenes.ReplayIsDeniedOnceControlMoved | src/runtime/recovery-remote-receipt-finalizer.ts:196-203 | a concrete run in which that happens |
| ReceiptTheorems.NothingIsTaken | src/runtime/recovery-remote-receipt-finalizer.ts:260-293 | the ids a finalization inserts are free in every reachable state |
| ReceiptTheorems.ConsumptionIsForever | src/runtime/recovery-remote-receipt-finalizer.ts:148-299 | a consumption row fixes, now and in every later state, the committed effect, the succeeded command with its operation's own result, the receipt ids, the single event that carries the receipt and the control version it caused |
| ReceiptTheorems.EffectBackedCommandsEndByReceipt | src/runtime/sqlite-recovery-finalization.ts:454-467 | an atomic command with an effect is terminal if and only if a consumption row names it, and at most one does |
| ReceiptTheorems.ReviewedPlansFinalize | src/runtime/recovery-external-effect-ledger.ts:503-594 | a plan made from a positive readiness review finalizes in the same state if and only if checkpoint, applicability, drift and fault allow it |
| ReceiptTheorems.ReviewedPlanPassesChecks | src/runtime/recovery-remote-receipt-consumption.ts:57-103 | the plan built from the review passes every check the finalizer repeats |
| ReceiptPath.FreshCommandsCanFinish | src/runtime/recovery-remote-receipt-finalizer.ts:209-299 | from every reachable state a fresh, authorized command with a reviewed receipt goes through claim, staging, lease, unknown and storage; the finalization then succeeds if and only if the run allowed it before the first step, the registry does not drift and no fault is injected, and it leaves the stated rows |
| ReceiptPath.ReadyToFinalizeIff | src/runtime/recovery-remote-receipt-finalizer.ts:209-258 | what the finalizer will find after those steps is decided by checkpoint, control row and operation as they were before the claim |
| ReceiptPath.SomeCommandFinishes | src/runtime/recovery-remote-receipt-finalizer.ts:209-299 | a concrete reachable state and scenario that meet all those conditions |
| CommandUnitOfWork.SQLiteRecoveryFinalizationUnitOfWork.ClaimOwnership | src/runtime/sqlite-recovery-finalization.ts:145-232 | one transaction looks up, checks owner and evidence, inserts version 1 and moves it to executing version 2, or reports what is stored |
| CommandUnitOfWork.SQLiteRecoveryFinalizationUnitOfWork.AdmitControlOnlyCommand | src/runtime/sqlite-recovery-finalization.ts:365-427 | the older admission: a new control-only command becomes executing version 2, anything else is reported unchanged |
| ClaimAnswers.ClaimDecides | src/runtime/sqlite-recovery-finalization.ts:145-232 | a permitted claim of an unknown command wins and stores exactly the executing record; a known one under the same request and owner is answered with the stored record, replayed with its snapshot when over and suspended otherwise; every refusal is for a reason that holds and writes nothing |
| ClaimAnswers.SnapshotMissingIff | src/runtime/sqlite-recovery-finalization.ts:170-181 | in reachable states the refusal for a missing snapshot is given if and only if the stored command is over without one, which only a legacy command can be |
| ClaimAnswers.AdmitDecides | src/runtime/sqlite-recovery-finalization.ts:365-427 | the exact answer of the older admission for unknown, running and finished commands and for unsupported operations |
| ClaimAnswers.CommittedIsReplayed | src/runtime/sqlite-recovery-finalization.ts:170-181 | after an accepted adapter commit every later claim and admission of that request replays exactly the record and snapshot that commit stored, in every later state |
| ClaimAnswers.FinalizedIsReplayed | src/runtime/sqlite-recovery-finalization.ts:170-181 | the same after a finalization by receipt |
| ClaimAnswers.BusyUntilOver | src/runtime/sqlite-recovery-finalization.ts:183-189 | from the claim that won until the command is over, every further claim under the same owner is suspended with the stored record |
| CommandUnitOfWork.SQLiteRecoveryFinalizationUnitOfWork.InsertLegacyCommandIfAbsent | src/runtime/sqlite-recovery-finalization.ts:299-310 | any offered legacy record is stored at version 1 unless its id is there; another owner's record is refused |
| CommandUnitOfWork.SQLiteRecoveryFinalizationUnitOfWork.UpdateLegacyCommandIfVersion | src/runtime/sqlite-recovery-finalization.ts:312-358 | only accepted to executing and executing to terminal, for legacy rows, identity and version as stored |
| ClaimAnswers.LegacyUpdateDecides | src/runtime/sqlite-recovery-finalization.ts:312-358 | an update is accepted if and only if it is the next status of the same legacy command at the version its caller has seen, and then stores exactly that |
| CommandUnitOfWork.SQLiteRecoveryFinalizationUnitOfWork.AppendOutbox | src/runtime/sqlite-recovery-finalization.ts:646-666 | the loop appends every event under free ids or reports that one was taken |
| CommitAnswers.AppendsIff | src/runtime/sqlite-recovery-finalization.ts:646-666 | any list of events is appended if and only if no id and no event id is taken or repeated, and then adds one pending row for each |
| CommandUnitOfWork.SQLiteRecoveryFinalizationUnitOfWork.WriteRunState | src/runtime/sqlite-recovery-finalization.ts:505-587 | checkpoint and control are compared or moved by one version, even when compare-only |
| CommandUnitOfWork.SQLiteRecoveryFinalizationUnitOfWork.CommitTerminal | src/runtime/sqlite-recovery-finalization.ts:451-673 | the terminal transaction equals its specification; a late denial restores the snapshot |
| CommitAnswers.CommitDecides | src/runtime/sqlite-recovery-finalization.ts:451-673 | for any draft by any caller: accepted if and only if run, command and outbox match it row by row, exact tables and answer when accepted, a true reason and no write when refused |
| CommitAnswers.CommitsIff | src/runtime/recovery-atomic-control-only-adapter.ts:156-190 | whatever its preparation came to, an authorized worker's commit is accepted if and only if its command is at version 2 without an effect, its evidence holds when fenced and is absent when not, and checkpoint and control versions are the expected ones |
| CommitAnswers.CommitStores | src/runtime/recovery-atomic-control-only-adapter.ts:130-190 | an accepted commit stores status, reason and snapshot the command is owed for what was read, moves the control row in the requester's name exactly when applied, announces the outcome in one event and touches nothing else |
| CommitAnswers.AdapterIsItsSteps | src/runtime/recovery-atomic-control-only-adapter.ts:124-204 | the adapter's method is its read, read, authorize and commit steps of the state machine with any rivals in between |
| CommitAnswers.AppliedQuarantineCommits | src/runtime/recovery-atomic-control-only-adapter.ts:124-204 | a concrete run in which an applied quarantine commits |
| CommandUnitOfWork.SQLiteRecoveryFinalizationUnitOfWork.SaveRunCheckpoint | src/runtime/transactional-checkpoint-store.ts:72-111 | insert when absent at expected version 0, update when the version matches, otherwise a conflict |
| CommitAnswers.SaveDecides | src/runtime/transactional-checkpoint-store.ts:72-111 | a save is accepted if and only if the stored version is the expected one, 0 meaning no row, and stores the next version |
| CommandPreservation.LegacyUpdateAdvances | src/runtime/sqlite-recovery-finalization.ts:312-358 | a legacy update keeps identity and owner, moves the version by one and never touches an atomic row |
| CommandPreservation.HoldersAreExclusive | src/runtime/sqlite-recovery-finalization.ts:206-227 | two busy workers never hold the same command, whichever route they are on |
| CommitPreservation.VersionDeterminesControl | src/runtime/sqlite-recovery-finalization.ts:540-587 | a control version number determines its row, across all writers |
| CommitPreservation.AdapterCommitTables | src/runtime/sqlite-recovery-finalization.ts:451-673 | what an accepted adapter commit leaves in each table and what it has compared |
| CommitPreservation.CommitAtomicKeepsInv | src/runtime/recovery-atomic-control-only-adapter.ts:124-204 | an adapter commit, made from reads of any age, keeps every invariant |
| CommitPreservation.FinalizeKeepsInv | src/runtime/recovery-remote-receipt-finalizer.ts:118-307 | a finalization keeps every invariant |
| DeliveryPreservation.SaveExtendsLog | src/runtime/transactional-checkpoint-store.ts:72-111 | a save that wins extends the run's checkpoint history by exactly one version |
| DeliveryPreservation.ClaimKeepsRows | src/runtime/recovery-outbox-delivery-lease.ts:81-146 | a delivery claim adds one attempt and one version to one pending record and leases that attempt |
| DeliveryPreservation.AckKeepsRows | src/runtime/recovery-outbox-delivery-lease.ts:148-190 | an acknowledgement only dispatches one pending record |
| Safety.StepKeepsInv | src/runtime/sqlite-recovery-finalization.ts:145-673 | every kind of step keeps the whole invariant and only advances the state |
| Safety.RunKeepsInv | src/runtime/sqlite-recovery-finalization.ts:145-673 | every state of every run satisfies the invariant and advances all earlier ones |
| Safety.LaterFacts | src/runtime/sqlite-recovery-finalization.ts:145-673 | what can never be undone along any run, table by table |
| CommandTheorems.AtMostOnce | src/runtime/recovery-entry-dispatcher.ts:97-159 | over any run and any crashes each command id reaches an authorizer or executor at most once; owner and identity never change; versions 1, 2, 3 are exactly accepted, executing, terminal; terminal is final |
| CommandTheorems.OwnerRunsAlone | src/runtime/sqlite-recovery-finalization.ts:162-188 | a busy worker is on the route that owns its command |
| CommandTheorems.ControlVersionsAreConsecutive | src/runtime/sqlite-recovery-finalization.ts:540-587 | control versions of a run count 1, 2, 3, ... and each was caused by a different command |
| CommandTheorems.SameExpectedVersionAppliesOnce | src/runtime/sqlite-recovery-finalization.ts:540-587 | two commands that expect the same control version of a run are never both applied |
| CommandTheorems.AppliedAtExpected | src/runtime/recovery-control-preparation.ts:83-134 | an applied command wrote exactly the version after the one it expected, by a legal move and in its requester's name, and its stored result says so |
| CommandTheorems.DeadLetterIsAbsorbing | src/runtime/recovery-control-preparation.ts:99-103 | a dead-lettered run keeps its control row in every later state |
| CommandTheorems.AcceptedCommitsAreSerial | src/runtime/recovery-atomic-control-only-adapter.ts:124-204 | an accepted commit has the effect of preparing on the rows inside the transaction if and only if authorization was refused or both versions read were the expected ones; applied outcomes always do |
| CommandTheorems.SerialCore | src/runtime/sqlite-recovery-finalization.ts:505-587 | reads whose versions are still stored are the stored rows |
| StaleRejection.StaleRejectionCommits | src/runtime/recovery-atomic-control-only-adapter.ts:124-190 | a concrete reachable state in which a rejection caused by a stale read commits after the version has caught up |
| ControlPreparation.AppliedIff | src/runtime/recovery-control-preparation.ts:49-154 | an operation is applied if and only if authorized, versions match, the run is not completed and the move is legal; only then is the control row to be written, naming the command, and it is reported under the operation's own status and reason |
| ControlPreparation.DeadIsFinal | src/runtime/recovery-control-preparation.ts:99-103 | nothing applies to a dead-lettered run |
| ControlPreparation.PreparedIsOwed | src/runtime/recovery-control-preparation.ts:49-154 | status and reason of every preparation, each if and only if the versions, the completion, the decision and the control status call for it |
| AtomicAdapter.AtomicRecoveryControlOnlyAdapter.ExecuteAlreadyAdmitted | src/runtime/recovery-atomic-control-only-adapter.ts:124-204 | the four statements against three possibly different states give the stated answer and tables |
| AtomicAdapter.AtomicRecoveryControlOnlyAdapter.ExecuteClaimed | src/runtime/recovery-atomic-control-only-adapter.ts:51-75 | a replayed or suspended claim authorizes and writes nothing; only a won claim is executed |
| ClaimAnswers.AdapterProceedsIff | src/runtime/recovery-atomic-control-only-adapter.ts:51-75 | with the answer of its own claim the adapter proceeds if and only if the command was unknown; a stored one is replayed with its snapshot or left suspended |
| AtomicAdapter.AtomicRecoveryControlOnlyAdapter.ExecuteCommand | src/runtime/recovery-atomic-control-only-adapter.ts:77-122 | flag, look, admission and execution against rivals in between give the specified answer and tables; with the flag off nothing is touched |
| ClaimAnswers.UnclaimedDecides | src/runtime/recovery-atomic-control-only-adapter.ts:77-122 | the unclaimed entry executes only a supported command that is there neither at the look nor at the admission; a stored one is reported as replayed or in flight, and switched off it does nothing |
| AtomicAdapter.LookAnswersAsAdmission | src/runtime/recovery-atomic-route-decision.ts:60-105 | the look before the admission answers what the admission would in the same state, so the branch for an unexpected admission is dead |
| Orchestrator.DurableRecoveryOperationOrchestrator.ExecuteCommand | src/runtime/durable-recovery-operation-orchestrator.ts:139-263 | look, insert, load, start, executor and record, each against whatever rivals left since the one before, give the specified answer, with the facts of a command in flight, and tables; the executor is reached exactly when insert and start were won |
| Orchestrator.RunsIff | src/runtime/durable-recovery-operation-orchestrator.ts:215-263 | among protocol-following rivals the executor is reached if and only if neither look nor insert found the command and nobody moved it from version 1 |
| Orchestrator.StoppedReports | src/runtime/durable-recovery-operation-orchestrator.ts:139-260 | among protocol-following rivals, a call that does not reach the executor reports the command as the look that stopped it finds it, or fails on an illegal transition exactly when a rival had started the row before this call loaded it and nobody moved it since |
| Orchestrator.SecondStartNeverRuns | src/runtime/durable-recovery-operation-orchestrator.ts:242-260 | after one call has started a command no other call reaches the executor for it |
| Orchestrator.DurableRecoveryOperationOrchestrator.ExecuteClaimedCommand | src/runtime/durable-recovery-operation-orchestrator.ts:154-183 | only a won legacy claim for this very request runs the executor; every other claim is answered without a write, one in flight with the current facts or the missing checkpoint |
| Orchestrator.ClaimedRunsIff | src/runtime/durable-recovery-operation-orchestrator.ts:154-183 | with the answer of its own legacy claim a call reaches the executor if and only if the command was unknown when it claimed; otherwise it reports the stored end, or the stored record with the run's checkpoint and control versions, boundary and status in their places |
| Orchestrator.OneClaimedRun | src/runtime/durable-recovery-operation-orchestrator.ts:154-183 | of any two claimed calls for one command id, with any protocol-following rivals between their claims, at most one reaches the executor |
| Orchestrator.ClaimExcludesPlainRun | src/runtime/durable-recovery-operation-orchestrator.ts:211-263 | after a won claim no unclaimed call reaches the executor for that command |
| Orchestrator.PlainInsertExcludesClaimedRun | src/runtime/durable-recovery-operation-orchestrator.ts:154-183 | after an unclaimed call has inserted a command no claimed call reaches the executor for it |
| Orchestrator.ForeignClaimsNeverRun | src/runtime/durable-recovery-operation-orchestrator.ts:158-164 | a claim of the other route or of another request runs nothing and changes nothing |
| Orchestrator.LookReports | src/runtime/durable-recovery-operation-orchestrator.ts:185-209 | a call that may not run reports the stored end or the in-flight facts, refuses another identity, or has lost the command, each if and only if |
| Orchestrator.ClaimStartsTheWorker | src/runtime/durable-recovery-operation-orchestrator.ts:154-183 | the state machine's claim starts a legacy worker exactly when the claimed call may run, for the same record |
| Orchestrator.DurableRecoveryOperationOrchestrator.ExecuteAlreadyClaimed | src/runtime/durable-recovery-operation-orchestrator.ts:265-340 | the nested catches: a result is saved by version, a lost save is answered from the store, any other refusal is recorded as a failure |
| Orchestrator.OutcomeIsSettled | src/runtime/durable-recovery-operation-orchestrator.ts:268-339 | a started command ends exactly as its executor did, with its reason and snapshot, unless a rival has ended it, and then that end is answered; a result is never recorded as a failure |
| EntryDispatcher.RecoveryEntryDispatcher.ExecuteWithSharedClaim | src/runtime/recovery-entry-dispatcher.ts:97-121 | the claim under the selected owner is the dispatch |
| EntryDispatcher.NoFallback | src/runtime/recovery-entry-dispatcher.ts:97-121 | a handler is reached only on the flag's route, as the stored owner; a refusal writes nothing and tries nothing else |
| ClaimAnswers.DispatchHandsOnTheClaim | src/runtime/recovery-entry-dispatcher.ts:97-121 | a shared claim reaches the flag's handler if and only if it is answered for that owner, with that very answer; the other refusals are told apart exactly |
| ClaimAnswers.GuardDecides | src/runtime/recovery-entry-dispatcher.ts:123-159 | without a shared claim: each answer if and only if flag, operation and the guarded look at the stored row call for it |
| EntryDispatcher.OneRoutePerCommand | src/runtime/recovery-entry-dispatcher.ts:123-159 | once one flag has claimed a command the other flag is refused for good |
| CommandStore.InMemoryRecoveryCommandStore.InsertIfAbsent | src/runtime/recovery-command-store.ts:65-69 | inserts at version 1 and never overwrites |
| CommandStore.InMemoryRecoveryCommandStore.UpdateIfVersion | src/runtime/recovery-command-store.ts:71-87 | replaces a record only at the expected version and moves it by one |
| CommandStore.DurableRecoveryCommandExecutor.ExecuteOnce | src/runtime/recovery-command-store.ts:96-135 | final records, answer and whether the handler was called, for any rivals between the statements and any end of the handler |
| CommandStore.OnceDecides | src/runtime/recovery-command-store.ts:96-135 | when the handler is called, what is recorded for how it ended and what is answered, and what is reported when it is not called, for any rivals |
| CommandStore.CarefulRunsCallOnce | src/runtime/recovery-command-store.ts:96-135 | as long as the inserter finds version 1 when it loads, each handler is called at most once |
| CommandStore.StartedTwiceIff | src/runtime/recovery-command-store.ts:96-118 | over every run: a command is started twice if and only if some start found its record at version 2 or later |
| CommandStore.SecondStartIff | src/runtime/recovery-command-store.ts:100-109 | the inserter starts a command a second time if and only if a rival had already moved the record on |
| CommandStore.HandlerCalledTwice | src/runtime/recovery-command-store.ts:100-118 | a run in which the handler is called twice |
| AuthorityTheorems.AuthorityHoldsFromClaimToCommit | src/runtime/sqlite-recovery-finalization.ts:468-482 | with monotone revisions, a generic commit of a claimed command implies the claim's authority held, by the same rows, in every state in between |
| AuthorityTheorems.AuthorityHoldsFromStagingToFinalize | src/runtime/recovery-remote-receipt-finalizer.ts:67-92 | an accepted finalization implies its intent was staged earlier and its authority held in every state since |
| AuthorityTheorems.FinalizeKeepsClaimedAuthorityIff | src/runtime/recovery-remote-receipt-finalizer.ts:146-147 | the claim's authority held from claim to finalization if and only if the intent carries the claim's evidence |
| AuthorityScenes.FinalizedWithoutClaimedAuthority | src/runtime/recovery-remote-receipt-finalizer.ts:146-147 | a disciplined run that claims, is granted anew, stages under the new grant and finalizes while the claim's evidence no longer holds |
| AuthorityTheorems.EffectsWereStaged | src/runtime/recovery-external-effect-ledger.ts:244-261 | every effect was added by staging exactly its intent under authority that held then |
| AuthorityTheorems.StaleAuthorityWritesIff | src/runtime/recovery-external-effect-ledger.ts:336-398 | over every disciplined run: once the rows behind an evidence have changed, a later step that carries it changes a table if and only if it is one of the three unchecked writes, and no step that checks it ever does |
| AuthorityTheorems.StaleEvidenceWritesIff | src/runtime/recovery-external-effect-ledger.ts:336-398 | with the evidence not granted, a step that carries it writes if and only if it confirms a leased or unknown effect with its own sink receipt at its epoch, marks a leased effect unknown, or reconciles an unknown one without remote or foreign receipt; it then moves that effect's status and nothing else |
| AuthorityScenes.RevokedAuthorityStillWrites | src/runtime/recovery-external-effect-ledger.ts:336-398 | a reachable disciplined run after whose revocation confirming, marking unknown and reconciling all write |
| AuthorityTheorems.LegacyIgnoresAuthority | src/runtime/sqlite-recovery-finalization.ts:312-358 | the legacy update gives the same answer and rows under every ACL |
| AuthorityTheorems.StaleEvidenceWritesNothing | src/runtime/sqlite-recovery-finalization.ts:250-290 | the seven kinds of step that check authority, from claim, staging, dispatch claim, dispatch and receipt storage to finalization and generic commit, change no table under evidence that is not granted |
| AuthorityTheorems.RevokedForGood | src/runtime/sqlite-recovery-finalization.ts:285-289 | authority that was lost is never granted to the same evidence again |
| RecoveryOperations.InMemoryRecoveryControlStore.SaveState | src/runtime/recovery-operations.ts:136-168 | saves one version on at the expected version, keeping the row's causation |
| RecoveryOperations.RecoveryOperationService.CarryOut | src/runtime/recovery-operations.ts:331-524 | audits, saves and recovers as ruled, against a rival between load and save |
| RecoveryOperations.RecoveryOperationService.ExecuteOperation | src/runtime/recovery-operations.ts:219-561 | answer, control rows and audit trail with its reasons are those of the service specification |
| RecoveryOperations.RecoveryOperationService.RunRecovery | src/runtime/recovery-operations.ts:526-561 | the coordinator's answer is reported and audited, a throw is audited as failed with its message |
| RecoveryOperations.ServeDecides | src/runtime/recovery-operations.ts:219-561 | for all six operations: the control row is saved, recovery is run, a no-op or refusal is answered and an audit event is written exactly when stated on decision, versions, completion and control status; a resume releases first and stays released when recovery throws |
| RecoveryOperations.RulingIsVerdict | src/runtime/recovery-operations.ts:238-460 | the service's decision chain and the preparation's reach the same verdict |
| RecoveryOperations.PreparationRefinesService | src/runtime/recovery-control-preparation.ts:49-154 | the preparation gives the service's status, reason and next control row, apart from causation and time |
| RecoveryOperations.PathsAgree | src/runtime/recovery-operations.ts:219-460 | over any sequence of control-only commands both paths give the same answers and control rows |
| ServiceRefinement.AdapterRefinesService | src/runtime/sqlite-recovery-finalization.ts:555-587 | an accepted commit whose reads did not lag ends its command and leaves the control row as the service would on the rows stored at the commit |
| OutboxDelivery.SQLiteRecoveryOutboxDeliveryClaimer.ClaimDelivery | src/runtime/recovery-outbox-delivery-lease.ts:81-146 | answer and tables are those of the claim specification, with rollback when the token is taken |
| OutboxDelivery.SQLiteRecoveryOutboxDeliveryClaimer.AcknowledgeDelivery | src/runtime/recovery-outbox-delivery-lease.ts:148-190 | answer and tables are those of the acknowledgement specification |
| OutboxDelivery.SQLiteRecoveryOutboxDeliveryClaimer.AcknowledgeVerifiedConsumerDelivery | src/runtime/recovery-outbox-authenticated-dispatch.ts:17-60 | inspection, verification and acknowledgement against whatever rivals leave while the verifier is asked; nothing is acknowledged without evidence bound to the inspected record, the consumer and a fresh observation |
| DeliveryAnswers.LeaseDecides | src/runtime/recovery-outbox-delivery-lease.ts:81-146 | in reachable states a lease is granted if and only if the record is sound and pending, the consumer dedupes durably for at least the recovery window and acknowledges authentically, and no lease is live; busy, dispatched and held are answered exactly otherwise |
| DeliveryAnswers.AckDecides | src/runtime/recovery-outbox-delivery-lease.ts:148-190 | in reachable states a record is dispatched if and only if the latest token comes before its lease ends; a dispatched one is confirmed and nothing else changes |
| DeliveryAnswers.VerifiedAckDecides | src/runtime/recovery-outbox-authenticated-dispatch.ts:17-60 | the verified call acknowledges if and only if the event was found and the evidence names record and consumer throughout within the allowed age |
| DeliveryRuns.AckIsInspectThenAck | src/runtime/recovery-outbox-authenticated-dispatch.ts:32-60 | that call is an inspection and a later acknowledgement of the inspected record, with anything in between |
| ConsumerInbox.SQLiteRecoveryOutboxConsumerInbox.ConsumeEvent | src/runtime/recovery-outbox-consumer-inbox.ts:90-149 | both rows or neither, a replay for a known event, and a rollback at either fault point |
| DeliveryAnswers.ConsumeDecides | src/runtime/recovery-outbox-consumer-inbox.ts:90-149 | a record is applied if and only if it is consumable, unknown and nothing fails, and replayed if and only if both stored rows are its own; exact rows and answers |
| DeliveryAnswers.AppliedThenReplayed | src/runtime/recovery-outbox-consumer-inbox.ts:100-122 | an applied event, delivered again under any later attempt, is replayed with the payload and the time of the first |
| DeliveryRuns.NextKeepsInv | src/runtime/recovery-outbox-delivery-lease.ts:81-190 | claims, deliveries, lost and repeated messages, faults and verified acknowledgements keep producer, network and consumer consistent |
| DeliveryTheorems.ExactlyOnce | src/runtime/recovery-outbox-consumer-inbox.ts:90-149 | each business effect runs exactly once with the producer's payload, inbox and effect rows match one to one, and dispatched implies the effect |
| DeliveryTheorems.ConsumeNeverConflicts | src/runtime/recovery-outbox-consumer-inbox.ts:43-52 | a sent record always passes the envelope check and is never refused as rebound or inconsistent; a delivery is refused exactly for an unsafe consumer clock or an injected fault on first delivery |
| DeliveryTheorems.LeasesAreSuccessive | src/runtime/recovery-outbox-delivery-lease.ts:108-137 | for any clocks: attempts count claims, the version is 1 + attempts plus one once dispatched, lease windows are disjoint, expiries increase, tokens differ |
| DeliveryTheorems.AttemptsStaySafe | src/runtime/recovery-outbox-delivery-lease.ts:110-118 | attempts and versions never leave the safe integers, because every claim takes a millisecond of the range of dates |
| DeliveryTheorems.OnlyTheLatestTokenDispatches | src/runtime/recovery-outbox-delivery-lease.ts:157-171 | only the latest claim's token dispatches, and only before its lease ends |
| DeliveryTheorems.DoneIsFinal | src/runtime/recovery-outbox-delivery-lease.ts:166-169 | dispatched records, inbox rows and effects never change again |
| OutboxProjection.StepsMoveTheQueue | src/runtime/recovery-outbox-delivery-lease.ts:81-190 | every step of the whole protocol does to outbox and leases only what the delivery protocol allows |
| EndToEnd.RunSimulated | src/runtime/recovery-outbox-delivery-lease.ts:81-190 | every joint run of protocol, network and consumer projects to a run of the delivery protocol with the same outbox and leases |
| EndToEnd.ExactlyOnceFromCommandToConsumer | src/runtime/recovery-outbox-consumer-inbox.ts:90-149 | over every such run each business effect ran exactly once, carries the payload of one outbox record, and that record announces the end of a finished atomic command; dispatched implies the effect |
| FencedDelivery.SQLiteWriterEpochStore.RotateScope | src/runtime/recovery-writer-epoch-store.ts:28-39 | the next epoch of a scope for a new owner, or a denial that writes nothing |
| FencedDelivery.SQLiteWriterEpochStore.UpdateGuarded | src/runtime/recovery-writer-epoch-store.ts:41-54 | the guarded rows change only under the stored fence, and the number of changed rows is answered |
| FencedDelivery.SQLiteFencedOutboxDelivery.RotateOwner | src/runtime/recovery-fenced-outbox-delivery.ts:21-30 | the next epoch of the outbox scope |
| FencedDelivery.SQLiteFencedOutboxDelivery.ClaimFenced | src/runtime/recovery-fenced-outbox-delivery.ts:48-64 | the fence is checked first, in the transaction of the claim |
| FencedDelivery.SQLiteFencedOutboxDelivery.AcknowledgeFenced | src/runtime/recovery-fenced-outbox-delivery.ts:66-79 | the fence and the leasing worker are checked in the transaction of the acknowledgement |
| FenceTheorems.EpochsAreFenced | src/runtime/recovery-writer-epoch-store.ts:28-54 | in every trace epochs count rotations and never overflow, and the accepted writes of one epoch form one block by one owner |
| FenceTheorems.SupersededForGood | src/runtime/recovery-fenced-outbox-delivery.ts:31-34 | a writer of an older epoch changes nothing, now and at every later point |
| FenceTheorems.StaleFenceChangesNothing | src/runtime/recovery-fenced-outbox-delivery.ts:31-34 | a call under another fence than the stored one changes no table |
| FenceTheorems.CasNeverFails | src/runtime/recovery-fenced-outbox-delivery.ts:44-47 | the compare-and-set inside the transaction cannot fail |
| FenceTheorems.FencedDeliveryIsDelivery | src/runtime/recovery-fenced-outbox-delivery.ts:48-79 | on all inputs: claims under the stored fence move the tables as without fences, acknowledgements by the lease holder do if and only if they do not dispatch under a blank id, and anything else changes nothing |
| FenceTheorems.FencedAckIsAck | src/runtime/recovery-fenced-outbox-delivery.ts:66-79 | in every trace nothing is leased under a blank id, so the lease holder's acknowledgement is the unfenced one |
| FenceTheorems.FencedAnswersAreUnfenced | src/runtime/recovery-fenced-outbox-delivery.ts:48-79 | under the stored fence claims and acknowledgements are answered as without fences, on all inputs |
| FenceTheorems.RotateDecides | src/runtime/recovery-writer-epoch-store.ts:28-39 | in every trace a rotation is granted if and only if scope and owner are named and epochs are left, and ends every older fence of the scope |
| FenceTheorems.GuardDecides | src/runtime/recovery-writer-epoch-store.ts:41-54 | a guarded statement runs if and only if the fence is the stored one; its rows and count are kept unless it raises |
| RecoveryPreparation.UpsertToolExecution | src/runtime/checkpoint.ts:52-70 | the loop and the copy give the list with the first match replaced, or the record appended |
| RecoveryPreparation.UpsertedHoldsRecord | src/runtime/checkpoint.ts:52-70 | the upserted record is the first under its id and every other id keeps its first record |
| RecoveryPreparation.PreparedInBrief | src/runtime/recovery-preparation.ts:61-235 | status, boundary, record and whether to save, in terms of the record alone |
| RecoveryPreparation.RecoveryDecides | src/runtime/recovery-preparation.ts:61-235 | which outcome, boundary, status and save follow from the pending record's outcome, side effect, retry safety and key and from the reconciler's answer |
| RecoveryPreparation.RecoveryIsSound | src/runtime/recovery-runtime.ts:56-131 | soundness is kept, and a retry is asked for only when nothing happened or the tool is retry safe; otherwise only on a reconciler's "never executed" in this call |
| RecoveryPreparation.StrictSoundnessKeptIff | src/runtime/recovery-planner.ts:23-62 | the stricter reading is kept for every truth of the matter if and only if the record is not retried unasked |
| RecoveryPreparation.StrictSoundnessIsLost | src/runtime/recovery-planner.ts:23-62 | a record that claims nothing false and is rewritten to "never executed" although the call happened |
| RecoveryPreparation.RecoveryStabilizes | src/runtime/recovery-preparation.ts:61-165 | at most two saves; two exactly for an uncertain, non-retry-safe record reconciled as never executed |
| RecoveryPreparation.StabilizesIff | src/runtime/recovery-preparation.ts:37-49 | recovery comes to rest if and only if the pending record is the first with its id or keeps its outcome |
| RecoveryPreparation.DuplicatesNeverStabilize | src/runtime/recovery-preparation.ts:37-49 | with duplicated ids every round saves again |
| RecoveryPreparation.TwoRecordsNeverRest | src/runtime/recovery-preparation.ts:37-49 | a checkpoint with two records of one id that is saved again in every round |
| CheckpointCoordinator.TransactionalCheckpointStore.SaveCheckpoint | src/runtime/transactional-checkpoint-store.ts:72-111 | a save wins exactly at the expected version |
| CheckpointCoordinator.CheckpointRecoveryCoordinator.RecoverRun | src/runtime/checkpoint-recovery-coordinator.ts:91-350 | the loop against any schedule of rivals gives the specified rows and answer |
| CheckpointCoordinator.RecoverInBrief | src/runtime/checkpoint-recovery-coordinator.ts:104-349 | gives up after exactly maxConflicts + 1 lost commits and never before, reports a missing run exactly when its last load finds none, and otherwise answers and saves the preparation of the last row loaded |
| CoordinatorRuns.TurnIsThreeMoves | src/runtime/checkpoint-recovery-coordinator.ts:104-349 | one iteration of the loop is a load, a preparation and a commit of the interleaved coordinators |
| CoordinatorRuns.VersionsAreLinear | src/runtime/checkpoint-recovery-coordinator.ts:262-311 | with any number of coordinators each version has one commit, and a coordinator's version is its preparation of the one before |
| CoordinatorRuns.ConflictsWitnessRivals | src/runtime/checkpoint-recovery-coordinator.ts:312-347 | after every conflict the run has at least that many versions since the first load, none of them written by this coordinator, and there are never more conflicts than allowed |
| CoordinatorRuns.LostCommitHasWinner | src/runtime/checkpoint-recovery-coordinator.ts:262-323 | a commit is lost if and only if the store has moved past the loaded version, and every version after it has another author |
| Admission.RunAdmissionController.AcquireSlot | src/runtime/run-admission-controller.ts:86-114 | a slot, a place in the queue, or the refusal the options and counters call for |
| Admission.RunAdmissionController.RemoveWaiter | src/runtime/run-admission-controller.ts:116-119 | the search and the splice remove the first occurrence |
| Admission.RunAdmissionController.FailWaiter | src/runtime/run-admission-controller.ts:99-105 | a pending waiter settles and leaves the queue; a settled one is left alone |
| Admission.RunAdmissionController.CloseAdmission | src/runtime/run-admission-controller.ts:74-84 | the queue is emptied and its pending waiters are rejected in order |
| Admission.RunAdmissionController.ReleaseSlot | src/runtime/run-admission-controller.ts:126-141 | the first pending waiter inherits the slot, otherwise the counter goes down; a second call does nothing |
| Lifecycle.RuntimeLifecycle.Enter | src/runtime/runtime-lifecycle.ts:20-30 | a run is counted only while running |
| Lifecycle.RuntimeLifecycle.Leave | src/runtime/runtime-lifecycle.ts:25-30 | a run leaves once, and the last one out of a drain stops the runtime |
| Lifecycle.RuntimeLifecycle.StartDrain | src/runtime/runtime-lifecycle.ts:32-36 | draining begins, and ends at once when nobody is inside |
| Lifecycle.RuntimeLifecycle.AwaitDrain | src/runtime/runtime-lifecycle.ts:38-42 | the promise resolves at once when stopped, otherwise it is queued |
| Lifecycle.RuntimeLifecycle.FinishDrainIfPossible | src/runtime/runtime-lifecycle.ts:44-48 | the runtime stops when the last run has left, and the loop resolves every drain promise in order |
| Lifecycle.ProductionAgentRuntime.StartRun | src/runtime/production-runtime.ts:65-69 | entering comes before asking for a slot; a refused entry asks for none |
| Lifecycle.ProductionAgentRuntime.FinishRun | src/runtime/production-runtime.ts:69-72 | the slot is released before the lifecycle is left |
| Lifecycle.ProductionAgentRuntime.StartDraining | src/runtime/production-runtime.ts:62-63 | draining the lifecycle closes admission in the same stretch |
| AdmissionRuns.NextKeepsInv | src/runtime/run-admission-controller.ts:60-142 | every event keeps slots, queue, settlements, lifecycle and runs consistent |
| AdmissionTheorems.SlotsAndQueue | src/runtime/run-admission-controller.ts:86-141 | active equals outstanding handles within the limit, and a non-empty queue means all slots taken and accepting |
| AdmissionTheorems.AcquireDecides | src/runtime/run-admission-controller.ts:86-114 | in every state: slot, place in the queue, overloaded, closed, cancelled and bad timeout, each if and only if; overloaded only with every slot held and the queue full, and no slot while somebody waits |
| AdmissionTheorems.ReleaseDecides | src/runtime/run-admission-controller.ts:126-141 | in every state a returned slot goes to whoever has waited longest and is free only when nobody waits |
| AdmissionTheorems.FailDecides | src/runtime/run-admission-controller.ts:99-119 | a timed out or cancelled waiter leaves the queue and the others keep their order |
| AdmissionTheorems.CloseDecides | src/runtime/run-admission-controller.ts:74-84 | closing rejects everybody who waits in order of arrival and keeps the slots held |
| AdmissionTheorems.BeginDecides | src/runtime/production-runtime.ts:65-69 | a run begins if and only if the runtime is running, and stands where admission put it |
| AdmissionTheorems.LeaveDecides | src/runtime/runtime-lifecycle.ts:25-48 | the last one out of a drain, and nobody else, stops the runtime and resolves the drain promises in order |
| AdmissionTheorems.DrainDecides | src/runtime/runtime-lifecycle.ts:32-48 | a drain ends at once if and only if nobody is inside; otherwise the promise is queued |
| AdmissionTheorems.SettlesOnceInOrder | src/runtime/run-admission-controller.ts:99-141 | every waiter settles at most once and admission is first in first out among those not removed |
| AdmissionTheorems.LifecycleCoversAdmission | src/runtime/production-runtime.ts:65-72 | the lifecycle counts at least the slots taken plus the waiters queued |
| AdmissionTheorems.StoppedIsEmpty | src/runtime/runtime-lifecycle.ts:44-48 | stopped means no slot held, no waiter queued, every run over and every drain promise resolved |
| AdmissionTheorems.DrainIsOneWay | src/runtime/runtime-lifecycle.ts:32-48 | a draining runtime only winds down and a stopped one never changes |
| Text.DerivedIdsInjective | src/runtime/recovery-atomic-control-only-adapter.ts:163-166 | the event and outbox ids derived from different commands differ |
| Text.DerivedKindsDistinct | src/runtime/recovery-remote-receipt-finalizer.ts:163-163 | generic and receipt terminal events never share an id |

## Left out

- SQLite itself: WAL, busy timeouts, SQL text and `json_extract` are not modelled; a transaction is one step with rollback.
- JSON encoding: records compare as values, so key order and number formatting of the stored text are not modelled.
- String lengths count Dafny characters, not UTF-16 units; only the 256-character limit of identifiers depends on it.
- Timestamps are opaque except for integer clocks, and for the range in which `toISOString` does not throw.
- `randomUUID` is a supply of tokens never issued before; the UNIQUE key alone does not exclude an overwritten token.
- The provider registry and conformance review are answers supplied to each call; candidate, capability and profile checks are not modelled.
- The clock, the authorizer, the business executor, the reconciler and the acknowledgement verifier are arbitrary answers; the verifier is assumed to vouch only for events the consumer holds.
- Direct SQL writes, raw command seeding and raw acknowledgements without a verifier are excluded steps in `DeliveryRuns` and `EndToEnd`; `World` alone does allow raw acknowledgements.
- Drafts that callers hand to the transition committer, with checkpoint writes or several events, are covered by `CommandUnitOfWork.Commit` but are not steps of `World`.
- The source lets a legacy update drop the authorization fence of its row; `World` allows it, and no theorem claims the fence of a legacy command.
- The legacy service's own control store is a separate in-memory store in the source and is not part of `World`.
- The provider circuit breaker, budgets, retries, shutdown wrappers and the HTTP mapping are not modelled.
- Observability events are not modelled, nor an audit sink that throws; reasons are values, not the text they are rendered to.
- Tool records keep the fields the planner reads; start time and error text are not modelled.
- Liveness: nothing here says that a step happens, only what holds whenever steps happen, and for a fresh command that a run to its end exists.
- CommandTheorems.AcceptedCommitsAreSerial: times stamped on rows are outside the comparison, because the code stamps them inside the transaction.
- AuthorityTheorems.AuthorityHoldsFromClaimToCommit: assumes that the ACL writer never deletes rows and moves a revision with every change, because the code cannot see a change that moves none.
- DeliveryTheorems.ExactlyOnce: says nothing about a fenced acknowledgement using the epoch of its claim, because the lease row stores no epoch.
- CommandStore.CarefulRunsCallOnce: one direction only, because a run can lose the race without starting anything twice; StartedTwiceIff is the exact statement over every run.
- FencedDelivery.SQLiteWriterEpochStore.UpdateGuarded: the trusted statement writes separate rows only, because one that wrote the fence or delivery tables itself would bypass what it is guarded by.
