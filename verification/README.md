# A verified model of the marketplace's hardest protocols

This project models four protocols of a compute marketplace (a web service on
Cloudflare D1 and R2, and the supplier's node and agent) and proves what they
promise over every run.

1. **Money, leases and authorizations** (`Totals`, `Market*`,
   `ArtifactCancellation`). Every write of the service is a guarded statement or
   an atomic batch. `MarketSteps` gives each one as a transition on the tables;
   a run is any sequence of transitions with any arguments, so every interleaving
   of buyers, suppliers, reviewers, sweeps and purges is a run.
   `MarketInvariants` says what every reachable state satisfies, `MarketSafety`,
   `MarketRuns`, `MarketAuths` and `MarketEveryRun` prove it, `MarketLifecycles`
   and `MarketHistory` say what one state may become later, `MarketTheorems`,
   `MarketLeases`, `MarketWorkers` and `MarketReview` state the promises,
   `MarketJobs`, `MarketTasks`, `MarketEndings` and `MarketCredentials` say of each
   operation exactly when it takes effect and what it then leaves,
   `MarketFirstTrade` goes from the empty database to paid work, and `MarketStore`
   runs the batches statement by statement on mutable tables and proves each of
   them to be one transition. The worker's calls there (`RequireLeasedTask`,
   `CheckpointArtifactTask`, `FailArtifactTask`) are the transitions `MarketWorkers` speaks about.
2. **Immutable chunk generations across two stores** (`Chunk*`). Uploaders, the
   stale-chunk sweep, the deletion queue and the purges are program counters, so
   the gap between a SELECT, an R2 call and the following batch is a real step.
   `ChunkUploads` and `ChunkCleaning` say what undisturbed actors achieve and when
   a call takes effect; `ChunkStore` runs a whole purge request on mutable tables.
3. **Replay protection of a supplier node** (`Replay*`, `Supplier*`,
   `CapacityGate`). Classes hold the maps, the file outlives the process, and
   `SupplierRuns.Drive` feeds a node any sequence of calls, failures, crashes and
   restarts. `SupplierConflict` is one particular run.
4. **Artifact execution and local checkpoints** (`ArtifactSegments`,
   `SummaryGroups`, `ArtifactExecutor`, `ArtifactAnswers`, `CleanupRotation`,
   `CheckpointStore`).

`dafny verify dfyconfig.toml` checks all of it.

## Assumptions

- A D1 batch is atomic, and a batch that throws did not commit.
- Amounts and token counts are non-negative integers without a width. The charge
  is the price per million tokens rounded up and the fee at most half of it
  (`packages/marketplace-domain/src/settlement.ts`); the supplier's credit is the
  rest. Policy values are the defaults of `apps/web/server/runtime-policy.ts`.
- Random identifiers, operation tokens, lease tokens and storage keys are fresh.
  Digests, keyed commitments and authenticated encryption are injective, so each
  is a datatype constructor.
- An evidence digest determines the settlement it prices
  (`MarketStore.Store.CompleteInference`).
- The transitions of protocol 1 take arbitrary clock readings: nothing there
  depends on clocks agreeing or advancing. In protocols 2 and 3 clocks never run
  backwards, not even across restarts.
- An R2 PUT takes effect, if at all, before its key's `retain_until`, and a
  request lives for less than the 24-hour retention period.
- A file replaced by rename holds its old content or its new content, never a
  mixture. A compaction may fail before the rename or after it. A line of the
  journal that lost no more than its newline counts as written.
- Rows written before authorization ids were stored (null ids) are excluded.

## Findings

- **An approval can orphan its own review claim.** The approval batch claims the
  review target without looking at the supplier version
  (`apps/web/server/review-invariants.ts:22-44`) but approves only under the
  version it read (lines 87-102), so two approvals prepared against the same
  version leave the second request pending with its target taken. It can still
  expire or be withdrawn, but no reviewer can approve or reject it any more.
  `MarketReview.ApprovalOrphansExactlyOnStaleVersion` gives the exact condition,
  `SecondApprovalIsOrphaned` a run from the empty database, and
  `NoReviewerDecidesAnOrphan` and `OrphanedRequestIsNeverApproved` the
  consequence. The lifecycle claims, whose comment promises the same, keep it:
  `MarketTheorems.NoOrphanLifecycleClaim`.
- **A conflicting body within the time to live is not always called a conflict.**
  The full result cache answers "capacity exceeded" before the journal is asked
  (`apps/supplier-node/src/runtime.ts:178`). A verified, well-formed call whose
  identifier is live with another body is answered as a conflict if and only if
  this process remembers the identifier or its cache is not full
  (`SupplierRuntime.Node.HandleInference`). `SupplierConflict.FullCacheAnswersFirst`
  is a run from an empty file that ends in the other answer, for any clock reading
  at which its calls fit into the file, such as zero (`CallsFitNow`). Such a call
  is never executed.
- **The completion gates' balance clauses never decide.** In every reachable
  state the funds were set aside at reservation, so a completion stands or falls
  with its lease (or its reservation's expiry) alone:
  `MarketTheorems.JobGateIgnoresBalance`, `TaskSettlesIffLeaseHeld`.

## Model

| member | source | states |
|---|---|---|
| MarketEveryRun.EveryRunIsSafe | apps/web/server/financial-invariants.ts:8-120 | From the empty database, any sequence of any operations keeps all seven invariants at once: rows, settlement, money, capacity, authorizations, lifecycle claims and leases |
| MarketEveryRun.StepKeeps | apps/web/server/financial-invariants.ts:8-120 | Each of the thirty-one operations, with any arguments and in any safe state, leaves a safe state |
| MarketTheorems.BalanceCoversReservations | apps/web/server/financial-invariants.ts:16-23 | In every reachable state a tenant's balance is at least the sum of its open reservations, which is not negative |
| MarketTheorems.MoneyIsConserved | apps/web/server/marketplace-service.ts:1433-1448 | In every reachable state the balances of all tenants, the platform included, add up to the promotional credit issued |
| MarketTheorems.BalancesAddUp | apps/web/server/financial-invariants.ts:122-130 | Summing balances tenant by tenant is summing the ledger entries of those tenants once each |
| MarketSafety.PostingBalances | apps/web/server/marketplace-service.ts:1433-1448 | The three entries of one settlement move each tenant's balance by its own share and leave the sum over the ledger where it was |
| MarketSafety.PostingAddsOnlyItsEffects | apps/web/server/marketplace-service.ts:2688-2710 | Posting a settlement keeps every older entry, adds entries of that work only, and adds a fee entry exactly when the fee is not zero |
| MarketSteps.SettlementPrices | packages/marketplace-domain/src/settlement.ts:29-33 | The charge is the least whole amount that covers tokens times price per million, the fee is the charge times the rate in hundredths of a percent rounded down and at most half of it, and the supplier gets the rest |
| MarketJobs.JobSettles | apps/web/server/marketplace-service.ts:1300-1451 | In every reachable state a completion takes effect exactly on a running job, before its reservation expires, whose tokens its reservation pays for; then its evidence holds the price of its tokens and the exact split by the fee rate, every balance moves by its share, the reservation is released, and nothing else changes |
| MarketTasks.TasksSettle | apps/web/server/artifact-worker-service.ts:404-552 | The same for an artifact task: exactly the finished work, on unchanged progress, whose lease is held |
| MarketJobs.WelcomeCreditsOnce | apps/web/server/marketplace-service.ts:1493-1524 | A tenant is credited once, the first time it is seen, and nobody else's account moves |
| MarketTheorems.JobSettledOnce | apps/web/server/marketplace-service.ts:1344-1451 | In every reachable state a job is completed exactly when it has its one evidence row, usage record, debit and credit; these agree to the micro, stay within the reservation, and a fee entry exists exactly for a non-zero fee |
| MarketTheorems.TaskSettledOnce | apps/web/server/artifact-worker-service.ts:478-552 | The same for artifact tasks |
| MarketTheorems.SettlementIsFinal | apps/web/db/index.ts:473 | Whatever follows, settled work keeps its evidence and exactly its entries: racing or retried completions add and change nothing |
| MarketTheorems.SettledEffects | apps/web/server/marketplace-service.ts:1433-1448 | Which ledger effects settled work has is decided by its evidence alone |
| MarketTheorems.JobGateIgnoresBalance | apps/web/server/financial-invariants.ts:91-99 | In every reachable state the balance clause of the completion gate never decides: status, expiry and reservation do |
| MarketTheorems.TaskSettlesIffLeaseHeld | apps/web/server/financial-invariants.ts:106-120 | In every reachable state an accepted completion settles if and only if the lease is still held on unchanged progress; neither funds nor the reservation can stop it |
| MarketTheorems.CapacityIsRespected | apps/web/server/financial-invariants.ts:39-44 | In every reachable state an offer's reserved and running jobs plus leased tasks stay within its concurrency, and a buyer's active tasks within the policy maximum |
| MarketWorkers.ReservedJobSetsAside | apps/web/server/financial-invariants.ts:8-44 | A reservation sets aside the least amount that covers its tokens at the offer's price, for exactly two minutes; it ties a buyer to a different tenant under the current revision of an approved authorization, moves that amount from what the buyer may spend (which stays non-negative), concerns nobody else, and takes one place within the offer's concurrency |
| MarketWorkers.ReservedTaskSetsAside | apps/web/server/financial-invariants.ts:46-83 | The same for an artifact task, which takes one of its buyer's active places within the policy maximum and no place of the offer |
| MarketJobs.ReservationsAreUsable | apps/web/server/marketplace-service.ts:1248-1290 | Whatever anyone does in the two minutes after a reservation: while it is reserved it can be started, and while it is running it can be settled for any number of tokens up to those reserved |
| MarketJobs.StartsWhileReserved | apps/web/server/marketplace-service.ts:1281-1284 | A start moves exactly a reserved, unexpired job to running |
| MarketJobs.FailsWhileActive | apps/web/server/marketplace-service.ts:1484-1490 | A failure gives exactly an active job's reservation and place back, without a charge |
| MarketJobs.SweepFailsTheExpired | apps/web/server/marketplace-service.ts:2297-2302 | The sweep fails exactly the active jobs whose reservation has run out |
| MarketFirstTrade.MarketOpens | apps/web/server/marketplace-service.ts:415-515 | For any sensible tenants, credential, offer and time, six operations from the empty database leave a buyer with its credit and an offer it can use |
| MarketFirstTrade.FirstJobIsPaid | apps/web/server/marketplace-service.ts:1248-1451 | A buyer whose credit covers the tokens it reserves then gets its job reserved, started and settled for any number of them, at their exact price and split |
| MarketFirstTrade.FirstTaskIsPaid | apps/web/server/artifact-worker-service.ts:164-552 | An uploaded file is then reserved for, claimed, checkpointed and settled, for any progress that covers it within the token budget |
| MarketStore.Store.AvailableBalance | apps/web/server/financial-invariants.ts:122-130 | The balance query equals balance minus reservations as the invariants define them |
| MarketStore.Store.ReserveInference | apps/web/server/financial-invariants.ts:8-44 | Evaluated clause by clause on the live tables, the guarded INSERT is exactly the reservation transition and reports exactly whether it reserved |
| MarketStore.Store.ReserveArtifactTask | apps/web/server/financial-invariants.ts:46-83 | The same for an artifact task |
| MarketStore.LedgerStatements | apps/web/server/artifact-worker-service.ts:735-754 | The three guarded INSERT OR IGNORE statements post the whole settlement beside matching evidence and nothing otherwise |
| MarketStore.Store.InferenceStatements | apps/web/server/marketplace-service.ts:1344-1451 | Run statement by statement, committed or aborted by a unique index, the inference settlement batch is one transition |
| MarketStore.Store.TaskStatements | apps/web/server/artifact-worker-service.ts:478-552 | The same for the artifact settlement batch, where a second completion always aborts at the usage record |
| MarketStore.Store.CompleteInference | apps/web/server/marketplace-service.ts:1344-1451 | After the batch the tables are those of the settlement transition, or unchanged |
| MarketStore.Store.CompleteTask | apps/web/server/artifact-worker-service.ts:478-552 | The same for an artifact task |
| MarketStore.PostedTwice | apps/web/db/index.ts:473 | Posting again beside the same evidence changes no entry |
| MarketStore.ReachableIsConsistent | apps/web/server/marketplace-service.ts:1344-1451 | In every reachable state each job and task has either all of its settlement or none of it, which is what the settlement batches assume |
| MarketStore.Store.ClaimArtifactTask | apps/web/server/artifact-worker-service.ts:175-218 | The claim UPDATE is the claim transition and reports whether it claimed |
| MarketStore.Store.ExpireSupplierLeases | apps/web/server/artifact-worker-service.ts:94-131 | Three updates in order are one pass in which each row meets at most one of them |
| MarketStore.ExpiryStatements | apps/web/server/artifact-worker-service.ts:94-131 | Cancel, requeue and fail statements composed over a whole table equal the single-row expiry rule |
| MarketStore.Store.SweepArtifactTasks | apps/web/server/artifact-service.ts:725-765 | The retention sweep's three updates, whose conditions overlap, are one pass as well |
| MarketStore.SweepStatements | apps/web/server/artifact-service.ts:725-765 | A row requeued by the second statement is not failed by the third |
| MarketStore.Store.CancelArtifactTask | apps/web/server/artifact-service.ts:627-663 | Claiming the target and updating under its token is one transition |
| MarketStore.Store.MaintenanceBatch | apps/web/server/maintenance-service.ts:166-195 | The job sweep and the three credential statements in order are one transition |
| MarketStore.Store.RewrapBatch | apps/web/server/maintenance-service.ts:425-440 | A batch of compare-and-swaps rewraps row by row and never touches a row whose ciphertext changed since it was read |
| MarketStore.Store.ClaimAndBind | apps/web/server/authorization-lifecycle-invariants.ts:7-31 | The lifecycle target is won exactly when every clause holds and nobody holds it; a win always binds the command to its payload |
| MarketStore.Store.RevokeStatements | apps/web/server/marketplace-service.ts:1668-1759 | Claim, revocation, supplier update and cascade run one by one are one transition, also when the batch is replayed after it committed |
| MarketStore.Store.RevokeBatch | apps/web/server/marketplace-service.ts:1642-1759 | The same on the live tables |
| MarketStore.CascadeIsIdle | apps/web/server/authorization-lifecycle-invariants.ts:250-283 | After a revocation has committed, replaying its cascade changes no job and no task |
| MarketStore.Store.WithdrawBatch | apps/web/server/marketplace-service.ts:1559-1605 | The withdrawal batch is one transition |
| MarketStore.Store.RotateStatements | apps/web/server/marketplace-service.ts:826-936 | Claim, rotation and the failing of displaced reservations are one transition, also in a replay |
| MarketStore.Store.RotateBatch | apps/web/server/marketplace-service.ts:826-936 | The same on the live tables |
| MarketStore.RotationIsIdle | apps/web/server/authorization-lifecycle-invariants.ts:229-248 | No reservation of a displaced generation is left once the revision has moved on |
| MarketStore.Store.ApproveBatch | apps/web/server/marketplace-service.ts:644-686 | The approval batch is one transition, with a claim that does not test the supplier version |
| MarketTheorems.ReservedJobsAreCurrent | apps/web/server/authorization-lifecycle-invariants.ts:229-248 | In every reachable state each reserved job carries the current revision of an approved authorization |
| MarketTheorems.RevocationIsFinal | apps/web/server/authorization-lifecycle-invariants.ts:250-283 | From a revocation on, for ever: it stays revoked, nothing is reserved or queued under it, every lease under it is being cancelled, and no artifact task under it is debited that was not debited before |
| MarketTheorems.NoOrphanLifecycleClaim | apps/web/server/authorization-lifecycle-invariants.ts:1-36 | In every reachable state a lifecycle claim on a revision exists exactly when the stored revision has passed it |
| MarketTheorems.AtMostOneTransition | apps/web/server/authorization-lifecycle-invariants.ts:1-6 | Of all withdrawals, revocations and rotations in a run at most one leaves a given revision |
| MarketTheorems.CredentialIsNeverRestored | apps/web/server/credential-rotation-invariants.ts:1-10 | Once rejected, withdrawn or revoked, an authorization stays so at that revision with an empty credential, whatever rewraps, rotations and lookup migrations follow |
| MarketCredentials.RegistersOnce | apps/web/server/marketplace-service.ts:415-435 | Registration creates an inactive supplier once |
| MarketCredentials.SupplySwitches | apps/web/server/marketplace-service.ts:1108-1130 | Supply can always be switched off, and on exactly by an active supplier with an authorization that serves |
| MarketCredentials.SubmissionsArePending | apps/web/server/marketplace-service.ts:480-515 | A submission is stored as given, pending, at its first revision |
| MarketCredentials.RejectionsClear | apps/web/server/review-invariants.ts:72-85 | A rejection takes effect exactly on what the reviewer may decide and leaves no credential |
| MarketCredentials.ApprovalsActivate | apps/web/server/review-invariants.ts:87-115 | Under the version that was read an approval takes effect exactly on what the reviewer may decide, keeps the submitted credential and activates the supplier at its next version |
| MarketCredentials.WithdrawalsClear | apps/web/server/authorization-lifecycle-invariants.ts:74-89 | A withdrawal takes back exactly the pending request and revision it names |
| MarketCredentials.RevocationsClear | apps/web/server/authorization-lifecycle-invariants.ts:91-110 | A revocation takes effect exactly on the valid approved revision it names; it empties the credential, fails reserved jobs and waiting tasks, asks held work to stop, and keeps the supplier enabled exactly if it was and another of its authorizations serves |
| MarketCredentials.RotationsInstall | apps/web/server/authorization-lifecycle-invariants.ts:117-153 | A rotation takes effect exactly on the valid approved revision and ciphertext it names while no other tenant's authorization answers to the new token; it installs the given ciphertext and lookup at the next revision on unchanged terms and fails the reservations of the displaced revision |
| MarketCredentials.RotationMovesTheToken | apps/web/server/authorization-lifecycle-invariants.ts:117-153 | After a rotation the new token finds the authorization and a replaced one does not |
| MarketCredentials.BatchSwaps | apps/web/server/maintenance-service.ts:425-440 | A rewrap batch gives the new ciphertext to exactly the rows that still hold the one that was read |
| MarketCredentials.MigrationsMoveLookups | apps/web/server/agent-auth.ts:161-176 | A migration moves exactly the rows that answer to a token to its active lookup |
| MarketCredentials.MaintenanceClears | apps/web/server/maintenance-service.ts:166-195 | Maintenance turns down requests pending for seven days or past their validity, empties expired credentials, and leaves every other row alone |
| MarketCredentials.OffersAreListed | apps/web/server/authorization-lifecycle-invariants.ts:160-179 | An offer is listed as given exactly under its tenant's serving authorization at the revision and version that were read |
| MarketHistory.RunEvolves | apps/web/server/authorization-lifecycle-invariants.ts:74-115 | Over any continuation the status graph is acyclic, revisions only grow, and ledger, evidence, keys and grants are never rewritten or deleted |
| MarketReview.ApprovalOrphansExactlyOnStaleVersion | apps/web/server/review-invariants.ts:22-44 | The approval batch leaves its target claim without a decision if and only if it wins the claim while its supplier version is stale |
| MarketReview.RejectionNeverOrphans | apps/web/server/review-invariants.ts:72-85 | A rejection never does |
| MarketReview.NoReviewerDecidesAnOrphan | apps/web/server/review-invariants.ts:8-44 | In every reachable state neither an approval nor a rejection changes the row of an orphaned request, and only its expiry or its own withdrawal ends that state |
| MarketReview.OrphanedRequestIsNeverApproved | apps/web/server/review-invariants.ts:1-6 | A request with an orphan claim is never approved in any continuation |
| MarketReview.SecondApprovalIsOrphaned | apps/web/server/review-invariants.ts:87-102 | Such a state is reachable from the empty database |
| MarketTheorems.CancellationIsFinal | apps/web/server/artifact-service.ts:644-663 | Once requested, a cancellation stays requested; until the task is cancelled it keeps its lease and reservation; it is never completed, failed, requeued or debited |
| MarketTheorems.FinishedTasksAreFrozen | apps/web/server/artifact-worker-service.ts:94-131 | The row of a finished task never changes again |
| ArtifactCancellation.DecisionMatchesStore | packages/marketplace-domain/src/artifact-cancellation.ts:29-56 | The decision taken before the batch is what the batch stores and what deciding again on the stored row says, and it says release exactly when the reserved amount is given back |
| ArtifactCancellation.ReportedAsStored | packages/marketplace-domain/src/artifact-cancellation.ts:14-56 | In every reachable state the decision on a task being cancelled agrees with its stored status and its reservation |
| ArtifactCancellation.RefusedIsBeyondReach | packages/marketplace-domain/src/artifact-cancellation.ts:57-63 | Work whose cancellation is refused never changes again, and no later cancellation of it can succeed |
| ArtifactCancellation.ActiveWorkIsCancellable | apps/web/server/artifact-service.ts:627-643 | In every reachable state, active work nobody has asked to cancel can be cancelled by its buyer: no leftover target claim stands in the way |
| ArtifactCancellation.TargetsStayOnRecord | apps/web/server/artifact-service.ts:627-663 | Over any run a taken cancellation target has its task's cancellation on record; unlike a review claim it is never orphaned |
| MarketEndings.CommandsBindOnce | apps/web/server/artifact-service.ts:609-623 | A cancel command is bound once, to one of the buyer's own tasks that has not finished |
| MarketEndings.BuyersCanCancel | apps/web/server/artifact-service.ts:609-663 | In every reachable state active work nobody has asked to cancel is cancelled or asked to stop by its buyer's next fresh command |
| MarketEndings.CancelsExactlyOnce | apps/web/server/artifact-service.ts:625-663 | A cancellation takes effect exactly for the buyer, on active work, under a command bound to it, the first time; waiting work ends and gives its reservation back, held work keeps its lease |
| MarketEndings.PurgeCancelsWaitingWork | apps/web/server/privacy-service.ts:141-146 | A buyer's purge cancels exactly its waiting work |
| MarketLeases.EveryWriterHoldsTheLease | apps/web/server/artifact-worker-service.ts:333-387 | In every step from a reachable state a leased task's progress and result change only when the step presents that task's live lease, and within one lease they never decrease |
| MarketLeases.LeaseProgressIsMonotone | apps/web/server/artifact-worker-service.ts:333-387 | Within one lease, over any run of anyone's steps, segments, bytes and usage never decrease and the deadline does not move |
| MarketLeases.LostLeasesStayLost | apps/web/server/artifact-worker-service.ts:164-218 | A lease that is lost never comes back |
| MarketLeases.LiveLeaseIsNewest | apps/web/server/artifact-worker-service.ts:164-218 | In every reachable state the live lease is strictly newer than every other lease its task was granted |
| MarketLeases.AttemptsAndDeadlinesAreBounded | apps/web/server/artifact-worker-service.ts:164-218 | A task is claimed at most three times and no lease outlives its execution deadline |
| MarketLeases.CompletedMeansAllOfIt | apps/web/server/artifact-worker-service.ts:404-412 | A completed task has processed every byte and every segment within its token budget |
| MarketTasks.ClaimGrantsALease | apps/web/server/artifact-worker-service.ts:164-218 | A claim leaves a lease that its claimant, with its digest, holds at exactly the instants of the next five minutes, a deadline in six hours, one more attempt, and the progress of the resume point; it moves no money |
| MarketTasks.ReadsNeverOvertake | apps/web/server/artifact-worker-service.ts:610-633 | In every reachable state, while a lease lasts the row has progressed at least as far as any row read under it |
| MarketTasks.CheckpointsAreStored | apps/web/server/artifact-worker-service.ts:330-387 | In every reachable state a checkpoint is stored exactly when the lease is held and it goes on from the current row within file, segments and budget, however old the row that was read; then exactly that progress is stored and the lease runs for five minutes within its deadline |
| MarketEndings.HeldWorkCanBeFinished | apps/web/server/artifact-worker-service.ts:404-552 | From any reachable state whoever holds a lease can finish the work by reading, checkpointing, reading and completing, and is paid |
| MarketEndings.FailuresAreRecorded | apps/web/server/artifact-worker-service.ts:580-600 | The lease holder's failure report always takes effect, and nobody else's; the task waits again exactly when it is retryable with fewer than three attempts |
| MarketEndings.ExpiryTakesLapsedLeases | apps/web/server/artifact-worker-service.ts:94-131 | Before a claim exactly the supplier's lapsed leases are taken: cancelled if that was asked, waiting again under three attempts with its worker while the deadline lasts, failed otherwise |
| MarketEndings.SweepTakesOverdueTasks | apps/web/server/artifact-service.ts:725-765 | The sweep fails waiting tasks thirty minutes old, takes lapsed leases without a second chance for those, and leaves fresh waiting tasks and held work alone |
| MarketEndings.AcknowledgementEnds | apps/web/server/artifact-worker-service.ts:634-672 | An acknowledgement ends exactly a leased task whose cancellation was requested, for the holder of that lease |
| MarketWorkers.LeaseHolderIsNewest | apps/web/server/artifact-worker-service.ts:610-633 | In every reachable state at most one supplier and digest can answer for a task, and that lease is the latest one ever granted for it |
| MarketWorkers.StaleReadsAreRefused | apps/web/server/artifact-worker-service.ts:341-357 | Once the lease behind a selected row is lost, no checkpoint, failure or completion decided on that row has any effect, whatever happened since |
| MarketWorkers.CheckpointOnlyAdvances | apps/web/server/artifact-worker-service.ts:330-387 | A checkpoint that has an effect leaves the current row's progress no lower, within the file and the token budget, keeps its lease within its deadline, and touches no other task and no money |
| MarketWorkers.FailureReleases | apps/web/server/artifact-worker-service.ts:580-600 | A failure that has an effect takes the lease; the task is queued again exactly when it may be retried and has an attempt left on the current row, keeping its reservation, and otherwise ends and gives it back, never with a debit |
| MarketWorkers.AcknowledgementReleases | apps/web/server/artifact-worker-service.ts:634-672 | Only a cancellation pending on the very lease presented is acknowledged; it ends the task and gives its reservation back without a debit |
| ChunkPurges.EveryRunIsSafe | apps/web/server/artifact-service.ts:202-382 | Every interleaving of uploads, late PUTs, sweeps, queue passes and purges keeps the invariants on keys, slots, artifacts, tasks and actors |
| ChunkTheorems.ActiveInputIsWhole | apps/web/server/artifact-service.ts:430-448 | While any task on an artifact is active, the artifact is ready and unpurged and each declared part has a ready row whose object is in the bucket |
| ChunkTheorems.EveryObjectIsTracked | apps/web/server/artifact-service.ts:307-353 | Every object in the bucket is under a ready row or in the deletion queue |
| ChunkTheorems.GenerationsNeverReturn | apps/web/server/artifact-service.ts:829-857 | A storage key that has left pending and ready never becomes live again |
| ChunkTheorems.NoReadyObjectIsDeleted | apps/web/server/artifact-service.ts:1052-1105 | No step of any actor, however old its SELECT, deletes the object of a ready row |
| ChunkTheorems.DeletedOnlyWhenEmpty | apps/web/server/artifact-storage-invariants.ts:30-39 | An artifact becomes deleted only at a step that leaves it no chunk row |
| ChunkTheorems.DeletedArtifactsHoldNoContent | apps/web/server/artifact-service.ts:1058-1076 | Whatever a late uploader leaves under a deleted artifact is a row awaiting deletion |
| ChunkPurges.EveryPartReady | apps/web/server/artifact-service.ts:436-439 | As many ready rows as declared parts means every part has one |
| ChunkUploads.UploadsAreCommitted | apps/web/server/artifact-service.ts:325-355 | In every reachable state the commit of a stored upload makes its row ready, with its object kept and its deletion record gone, if and only if the row still waits and the artifact is uploading, unpurged and unexpired at the upload's own instant; otherwise the upload is to be undone |
| ChunkUploads.FailedCommitsAreUndone | apps/web/server/artifact-service.ts:356-370 | A commit that throws has changed nothing, and its upload is to be undone too |
| ChunkUploads.LateUploadsAreUndone | apps/web/server/artifact-service.ts:356-372 | An upload that comes too late, undone without a failure, leaves neither row nor object and takes nothing else with it |
| ChunkUploads.LateUploadsNeverReturn | apps/web/server/artifact-service.ts:1052-1083 | Whatever anyone does afterwards, neither its row nor its object comes back |
| ChunkUploads.FailedPutsLeaveNoRow | apps/web/server/artifact-service.ts:314-324 | A PUT that throws takes its waiting row back, and an object that lands all the same is queued for deletion |
| ChunkUploads.FailedUndosAreRecorded | apps/web/server/artifact-service.ts:1055-1076 | An undo that fails at the object leaves a row for the sweeper, exactly where the slot is its own or free |
| ChunkUploads.UndisturbedUploadsAreStored | apps/web/server/artifact-service.ts:202-382 | An upload into a free slot of an accepting artifact, undisturbed and within a day, ends with its row ready and its object stored |
| ChunkUploads.WholeArtifactsBecomeReady | apps/web/server/artifact-service.ts:384-454 | In every reachable state completion makes an artifact ready exactly when it accepts uploads and every declared part is ready |
| ChunkUploads.WholeUploadsBecomeReady | apps/web/server/artifact-service.ts:148-454 | From any reachable state a new file of any number of parts, uploaded undisturbed within a day and completed, is ready with every part stored |
| ChunkCleaning.StaleChunksAreSwept | apps/web/server/artifact-service.ts:719-724 | An undisturbed sweep removes exactly an unfinished row ten minutes old, with its object |
| ChunkCleaning.DueObjectsAreDeleted | apps/web/server/artifact-service.ts:829-850 | An undisturbed queue pass deletes every object it selected, drops the records past their retention and puts the others off for ten minutes |
| ChunkCleaning.PassesOnlyTakeDueKeys | apps/web/server/artifact-service.ts:829-837 | A pass selects at most four keys, all of them due and none with a pending or ready row |
| ChunkCleaning.FailedPassesDropNothing | apps/web/server/artifact-service.ts:851-857 | A pass whose delete throws drops no record |
| ChunkCleaning.TasksTakeReadyArtifacts | apps/web/server/financial-invariants.ts:57-61 | A task may take exactly a ready, unpurged, unexpired artifact |
| ChunkStore.ArtifactStore.SelectGenerations | apps/web/server/artifact-storage-invariants.ts:4-7 | Selects the lowest parts, at most four and all of them if there are fewer |
| ChunkStore.ArtifactStore.DeleteGenerations | apps/web/server/artifact-storage-invariants.ts:9-13 | Row by row, exactly the selected generations disappear and a newer generation in the same slot survives |
| ChunkStore.ArtifactStore.DeleteArtifactBytes | apps/web/server/privacy-service.ts:178-238 | One undisturbed purge request removes exactly the lowest parts and their objects, makes their keys due for deletion now and for a day, and finishes exactly when no row is left or the artifact was deleted before; while a task is active it changes nothing |
| ChunkStore.ArtifactStore.PurgeUntilDeleted | apps/web/server/privacy-service.ts:178-238 | Retried, an undisturbed purge of n rows takes exactly max(1, ceil(n / 4)) requests and touches no other artifact; on an artifact deleted before, one request, which leaves no row exactly when there were at most four |
| ReplayJournal.PersistentJournal.Open | apps/supplier-node/src/replay-journal.ts:64-96 | Startup refuses a torn file; otherwise it remembers exactly the live claims of this and every earlier process |
| ReplayJournal.PersistentJournal.Load | apps/supplier-node/src/replay-journal.ts:153-175 | Loading a file whose keys repeat only after expiry never trips the duplicate check and yields its live records |
| ReplayRecords.NoFalseDuplicate | apps/supplier-node/src/replay-journal.ts:165-173 | No line of such a file finds its key already loaded |
| ReplayRecords.MemoryDecides | apps/supplier-node/src/replay-journal.ts:118-151 | Asking the maps is asking the history of all claims ever written |
| ReplayRecords.CompactionKeeps | apps/supplier-node/src/replay-journal.ts:229-270 | Rewriting the file from the pruned maps loses no live claim and adds none |
| ReplayRecords.LiveBytesAgree | apps/supplier-node/src/replay-journal.ts:177-201 | Two files with the same live records need the same number of bytes for them, so whether a record fits does not depend on when the file was compacted |
| ReplayJournal.LiveLinesFit | apps/supplier-node/src/replay-journal.ts:229-270 | The rewritten file always fits the size limit |
| ReplayJournal.PersistentJournal.Compact | apps/supplier-node/src/replay-journal.ts:229-270 | A compaction leaves the old file or a whole new one of exactly the live records, also when it fails after the rename; what is remembered of live claims and the bytes they take do not change |
| ReplayJournal.PersistentJournal.Append | apps/supplier-node/src/replay-journal.ts:177-201 | A record is wholly written or a terminal failure follows, with at most that record more in the file; when nothing breaks, it is written exactly when it fits into sixteen megabytes beside the live lines |
| ReplayJournal.PersistentJournal.Persist | apps/supplier-node/src/replay-journal.ts:177-216 | After every accepted claim fewer than a thousand lines and less than the interval have passed since the last compaction, and the file holds less than eight megabytes or only live lines |
| ReplayJournal.PersistentJournal.ClaimNonce | apps/supplier-node/src/replay-journal.ts:118-129 | A healthy journal answers replay if and only if some process's claim of the nonce is still live; a fresh one, when nothing breaks, is accepted exactly when there is room |
| ReplayJournal.PersistentJournal.ClaimRequest | apps/supplier-node/src/replay-journal.ts:131-151 | A healthy journal answers conflict if and only if another body holds a live claim of the identifier and replay if and only if the same body does; otherwise, when nothing breaks, it accepts exactly when there is room |
| SupplierRuntime.EnvelopeIsNew | apps/supplier-node/src/signature.ts:30-43 | An envelope inside its window with a free nonce was never accepted before, by any process |
| SupplierRuntime.NonceGuard.VerifyAndRecord | apps/supplier-node/src/signature.ts:30-49 | Passes only an envelope never accepted before; expired, seen, full and broken-down each hold exactly under their own condition on the state before the call, and without a fault any other envelope passes exactly when the journal is healthy and has room |
| SupplierRuntime.ExecutionIsLate | apps/supplier-node/src/runtime.ts:181-186 | A free identifier was last started more than the time to live ago |
| SupplierRuntime.Node.HandleInference | apps/supplier-node/src/runtime.ts:146-193 | Each answer holds exactly under its own condition: another body under a live claim is a conflict if and only if the identifier is remembered or the cache is not full, the same body is replayed or refused, and a free identifier is started, when nothing breaks, exactly when cache and journal have room |
| SupplierRuntime.Node.Attest | apps/supplier-node/src/runtime.ts:111-145 | A challenge is answered by the same conditions as a call's envelope, spends its nonce and touches nothing else |
| SupplierRuns.Drive | apps/supplier-node/src/runtime.ts:146-193 | Over any calls, write failures, torn lines, failed compactions, crashes and restarts: no two replies let the same timestamp and nonce pass; two replies that started one identifier are more than the time to live apart; each restart that comes up holds exactly the live acknowledged claims, besides at most those in flight at a breakdown, and is refused only after a torn write or a broken compaction; every live cached result has its live claim |
| SupplierRuns.OnePendingEach | apps/supplier-node/src/replay-journal.ts:177-201 | Each process leaves at most one claim that no reply acknowledged, its last |
| SupplierConflict.FullCacheAnswersFirst | apps/supplier-node/src/runtime.ts:178-186 | From an empty file, a run of a thousand and two calls and one restart ends with another body of a live identifier answered "capacity exceeded" and not "conflict" |
| CapacityGate.Gate.Acquire | apps/supplier-node/src/capacity.ts:18-36 | Refuses exactly when the unreleased handles reach the concurrency or the last minute of the whole history leaves no room |
| CapacityGate.Gate.Release | apps/supplier-node/src/capacity.ts:31-36 | Only the first release of a handle gives its slot back |
| CapacityGate.EveryMinuteWithinLimits | apps/supplier-node/src/capacity.ts:18-42 | Every 60-second window over the whole admission history is within both limits |
| CapacityGate.AdmittingKeepsLimits | apps/supplier-node/src/capacity.ts:24-27 | Admitting one more keeps every window within limits though only the last minute was looked at |
| CapacityGate.WindowIsKept | apps/supplier-node/src/capacity.ts:38-42 | What survives pruning is exactly the current window |
| ArtifactSegments.ByteSegments | apps/supplier-node/src/artifact-executor.ts:204-235 | Yields the cut of the whole file if and only if the chunks cover the manifest; otherwise only full segments of the verified prefix |
| ArtifactSegments.CutIsExact | apps/supplier-node/src/artifact-executor.ts:81-82 | The cut has ceil(size / n) pieces, all but the last full, and joins back to the file |
| ArtifactSegments.FewSegments | apps/supplier-node/src/artifact-executor.ts:77-81 | A file within the largest configurable size, cut into segments no shorter than the executor accepts, has at most 16,384 of them |
| ArtifactSegments.WholeExtends | apps/supplier-node/src/artifact-executor.ts:226-230 | More bytes extend the segments already cut and never change them |
| SummaryGroups.GroupSummaries | apps/supplier-node/src/artifact-executor.ts:330-350 | Groups keep order and content within the limit, are as few as any partition allows, fail exactly when an item is too large or, of several, no neighbours fit, and are otherwise strictly fewer than the items |
| SummaryGroups.TotalIsTextAndOverhead | apps/supplier-node/src/artifact-executor.ts:335 | What counts against the limit is the text of a group and sixty-four bytes an item |
| SummaryGroups.OpeningStaysAhead | apps/supplier-node/src/artifact-executor.ts:338-342 | When the greedy scan opens a group, every other partition has had to as well |
| ArtifactExecutor.ResumingIsSeamless | apps/supplier-node/src/artifact-executor.ts:84-106 | Stopping after any map checkpoint and resuming ends in the state of the uninterrupted run |
| ArtifactExecutor.Executor.MapPhase | apps/supplier-node/src/artifact-executor.ts:84-106 | The map loop is exactly so many steps of the run and asks each open segment once, in order, and no checkpointed one; it finishes exactly at the last segment, is interrupted exactly by the signal, and fails only where the next question has no valid answer |
| ArtifactExecutor.MapWithInterruptions | apps/supplier-node/src/artifact-executor.ts:64-121 | For every file and segment length a node accepts, any number of interruptions and resumes ends as one run would, with no segment asked twice |
| ArtifactAnswers.MapPhaseAnswers | apps/supplier-node/src/artifact-executor.ts:84-106 | The summaries of a map phase are the provider's answers to the file's prefixes in the order of the segments, each within the longest output that limits, 512 tokens and budget left, with their identifiers and summed usage, up to the first question without a valid answer |
| ArtifactExecutor.Executor.Invoke | apps/supplier-node/src/artifact-executor.ts:175-201 | A call charges the work with a valid answer that the budget affords, and otherwise charges nothing that is kept |
| ArtifactExecutor.Executor.ReduceRound | apps/supplier-node/src/artifact-executor.ts:128-141 | One question per group in order, charged in order, up to the first failure |
| ArtifactAnswers.RoundAnswers | apps/supplier-node/src/artifact-executor.ts:128-141 | The new summaries of a round are the answers to its groups in order, and it succeeds exactly when every group was answered |
| ArtifactExecutor.Executor.ReducePhase | apps/supplier-node/src/artifact-executor.ts:123-144 | A chain of rounds, each a fewest-groups partition answered group by group and strictly shorter, so the loop ends without its cap; it finishes exactly at one summary, with usage equal to the sum of what the provider charged and within the budget, and fails only after thirty-two rounds or where no round follows |
| ArtifactExecutor.MapCheckpointsResume | apps/supplier-node/src/artifact-executor.ts:237-266 | For every file and segment length a node accepts, every non-empty map checkpoint that the platform agrees with resumes with exactly its work; the limit of 100,000 summaries is out of reach |
| ArtifactExecutor.ForeignCheckpointsAreRefused | apps/supplier-node/src/artifact-executor.ts:243-264 | A checkpoint of another task, file, cut or position is refused, and nothing but the checkpoint's own work is ever resumed |
| ArtifactExecutor.FinishedCoversFile | apps/supplier-node/src/artifact-executor.ts:114-121 | A finished map phase has processed the declared size in ceil(size / n) segments |
| CheckpointStore.Store.Read | apps/supplier-agent/src/artifact-checkpoint-store.ts:52-73 | Content comes back exactly from a file sealed with it under this key and task, with the lifetime it shows, begun at most five minutes ahead, at most six hours long and not over; any other file is removed |
| CheckpointStore.Store.Write | apps/supplier-agent/src/artifact-checkpoint-store.ts:75-109 | Overwriting a live checkpoint never moves its expiry, a new one lives for the configured time, and no lifetime exceeds six hours |
| CheckpointStore.Store.ReadBack | apps/supplier-agent/src/artifact-checkpoint-store.ts:52-109 | What was written is read back until its lifetime runs out, and under another key or for another task never |
| CheckpointStore.Store.KeepWriting | apps/supplier-agent/src/artifact-checkpoint-store.ts:75-109 | However often a task checkpoints before its first expiry, that expiry stands |
| CheckpointStore.Store.CleanupExpired | apps/supplier-agent/src/artifact-checkpoint-store.ts:123-164 | Inspects exactly the next names in round-robin order, removes exactly the temporaries and unusable files among them, and moves the cursor to the last |
| CheckpointStore.Store.CleanUp | apps/supplier-agent/src/artifact-checkpoint-store.ts:123-164 | While others remove files but add none, ceil(n / batch) calls leave only finished files, each unchanged and found within its lifetime by one of those calls |
| CleanupRotation.EveryFileIsInspected | apps/supplier-agent/src/artifact-checkpoint-store.ts:138-162 | With no new names, any ceil(n / batch) consecutive calls inspect every file that persists, from any cursor |
| CleanupRotation.PassedOverMovesUp | apps/supplier-agent/src/artifact-checkpoint-store.ts:138-143 | A file passed over loses a whole batch of the names before it |

## Left out

- ClaimTask: the worker table and its heartbeat guard are not modelled, nor are model, media type and size matching, so the model allows more claims than the service.
- ReadLease: the joins to artifact and offer and the identity's own authorization list are dropped, so the model lets more rows be selected; settlement and checkpoints still need both rows.
- Invoke: for an answer over the budget the source has already added summary, identifier and usage to the state in memory when it throws (`apps/supplier-node/src/artifact-executor.ts:102-104`); no checkpoint follows, and the model leaves the state unchanged.
- ReducePhase: equivalence of a run resumed during reduction is not claimed, because the round counter, and with it the questions, restart.
- PutArtifact: in the money protocol an artifact's readiness, purge and expiry change arbitrarily; the chunk protocol models them.
- MigrateLookups: the per-row compare-and-swap of a verified agent request is covered by the sweep over all readable namespaces.
- CreateOffer: the command key of an offer is not modelled; offers are never paused here.
- RevokeStatements: requires what the service established before the batch, that the row had not expired at the same clock reading (`apps/web/server/marketplace-service.ts:743`) and that its supplier version was read while the row was still approved.
- NewJob: the reservation's expiry is counted from the request's one clock reading; the service reads the clock again a moment later.
- DeleteArtifactBytes: is stated for a purge that no other actor disturbs; disturbed purges are steps of `ChunkSteps`.
- CleanupExpired: a file that the operating system refuses to remove is not modelled.
- NonceGuard: signature checking before the nonce is recorded; only verified calls reach the model.
- Uploads, the sweep and the deletion queue run as transitions on values, not as methods on mutable tables, because their calls interleave.
- The tenant's byte quota: completion can extend an artifact that had stopped counting against it.
- The exact resume point across a claim's separate SELECT and UPDATE: any number is allowed.
- Error codes and messages, audit events, supplier aggregate events, ciphertext and content columns, output retention.
- Evidence and signature verification, key rings, key lifecycle and preflight.
- Encryption, HMAC, SHA-256, base64, JSON and UTF-8 decoding; the prompts built from a segment or a group.
- Version 1 journal records; the journal's timer is an event of `SupplierRuns`.
- Rate limits, sessions, HTTP handlers, schema bootstrap, configuration, the vault, the CLI and all user interface code.
