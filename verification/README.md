# Indexing relay: control plane, ledgers and tables

A Dafny model of the relay's multi-tenant indexing control plane and of the small tables beside it, with proofs about
every run of it.

The control plane is a transition system (`ControlPlane.dfy`). One action is one SQL transaction, one SQL statement or
one event inside the upstream engine; any number of starts, uploads, completions, reconciliations, client failures,
dismissals, deletion workers, configuration workers and sweepers interleave. An operation in flight is keyed by the
token of its lease and remembers what it has read so far. It can stop between any two statements (`Abandon`), and its
lease can expire, be purged, be renewed late or be released at any point. Messages to upstream go into a set that only
grows: each may arrive never, late, out of order or many times, and any reply may be lost. An action that is not
enabled does nothing, so a run is any sequence of actions (`IsRun`), and `Reachable` ranges over all runs.

Two inductive invariants carry the results. `Safe` (`Safety.dfy`, `SafetySteps.dfy`) speaks about leases, operations in
flight, jobs, stored snapshots, deletion and configuration rows. `Agreed` (`Agreement.dfy`, `UpstreamMoves.dfy`,
`AgreementSteps.dfy`) links them to messages and to the upstream engine. Each is a conjunction of named conditions, so
that a step opens only the conditions it needs. `Theorems.dfy` states what follows for every reachable state and, with
`History.dfy`, for any two states of a run. `Progress.dfy` shows that the guards leave every manifest a way to being
indexed, and `Runs.dfy` gives the runs for which the theorems make an exception.

Some exceptions are part of the source, and the state remembers them. `late` holds the fences that a renewal has
breached: a deletion, or an embedding change together with a tenant, that refused an expired lease when it was renewed.
`doubts.usurped` holds the jobs that were handed off when a begin failure was recorded for them, which happens without a
lease and without regard to the phase. `doubts.stripped` holds the running jobs that lost their file rows because that
record failed and only the removal of the rows, the statement after it, succeeded. `doubts.parted` holds the roots on
which relay and upstream have parted. A root parts only by the clear of a dismissal, which has no operation id, or
through a usurped or stripped job that upstream has published, and it is taken out again by a clear of a deletion or by
a publication or dismissal that fits. For each exception an if-and-only-if lemma says which step makes it, in terms of
the state before the step, and a lemma in `Runs.dfy` reaches it.

Tables that the relay updates in place are classes whose methods are proved against specification functions:
`LeaseTable`, `DeletionTable`, `ConfigTable`, `ByteLedger`, `RequestCounters`, `SessionTable`, `Limiter`. The loops over
manifests are methods in `ManifestLists.dfy`.

## Assumptions about the environment

- Upstream job states published and unpublished are absorbing (`Upstream.Arrive`), and a reply that names a terminal
  state or carries a revision is true when it is read (`Upstream.Truthful`); everything else a reply says is free.
- Staging overlays files by path, until the upstream job is submitted, and a stage call is answered only after its files
  are staged (`StageAcknowledged`).
- A clear is idempotent by operation id (deploy/root-deletion-recovery.md:3), a configuration commit likewise
  (deploy/platform-config-recovery.md:7).
- Content is identified by hash and size; hashes are injective.
- An operation acts only while its lease row exists and is unexpired, except that a start whose begin call failed sends
  its abort and records the failure with or without a lease (index_jobs.go:776-790). Nothing is assumed about renewals.
- Tokens, job ids, deletion ids and attempt ids are fresh. A root's workspace id is its root id, as the lifecycle tool
  sets it (mcp_index_tool.go:431-440).

## Where the transitions come from

| actions | source |
|---|---|
| `Attempt`, `Renew`, `Release` | index_operations.go:45-57, 141-227 |
| `InspectActive`, `InsertJob`, `AbortBegun`, `FailBegun` | index_jobs.go:538-618, 646-805 |
| `PrepareBatch`, `StageBatch`, `CommitBatch` | index_jobs.go:918-962, 1049-1219 |
| `CheckComplete`, `HandOff`, `CallPublish`, `ReadPublishReply`, `RecordRevision`, `CommitSnapshot` | index_jobs.go:1237-1415 |
| `FinishFailed`, `CheckReconcile`, `ReadStatusReply`, `ReadAbortReply`, `Rotate` | index_jobs.go:1572-1716 |
| `CheckFail`, `CommitFail`, `Sweep`, `Beat` | index_jobs.go:1754-1818, 1891-1987, mcp_index_tool.go:479-482 |
| `CheckDismiss`, `CallWipe`, `ReadWipeReply`, `CommitDismiss` | root_admin.go:533-587, 616-660 |
| `SubmitDeletion`, `ClaimDeletion`, `RecordDeletionError`, `CheckDeletionCurrent`, `CallClear`, `ReadReceipt`, `FinishDeletion`, `PruneDeletions` | root_deletion_jobs.go:62-385, index_jobs.go:1850-1877 |
| `EnqueueConfig`, `ClaimConfig`, `SettleConfig`, `PostponeConfig`, `RecoverConfig` | platform_config_jobs.go:54-184, platform_model_config.go:141-160 |

## Model

| member | source | states |
|---|---|---|
| `Theorems.SnapshotAgreement` | index_jobs.go:1366-1409 | in every reachable state without a relay-wide reset, every root that has not parted is in step: upstream's content is the stored snapshot, or a deletion of the root is active, or a handed-off job is published and not stored yet; in the last case the content is that job's manifest, and once the deletion's clear has taken effect there is none |
| `Theorems.UnsuspectedRootIsInStep` | index_jobs.go:1366-1409 | a root has not parted, and is in step, if no dismissal has called its clear and upstream has published no job of the root whose begin failure was recorded after its handoff or that lost its file rows |
| `Theorems.WipeKeepsInStepIff` | root_admin.go:643-656 | the clear of a dismissal, whenever it arrives, leaves its root in step exactly if an empty content fits what is stored, what is being deleted and what waits to be stored; otherwise, and only then, the root has parted afterwards |
| `Theorems.UsurpationInStepIff` | index_jobs.go:782-788 | recording a begin failure for a handed-off job leaves its root in step exactly if upstream has what the relay has stored |
| `Theorems.StrippingInStepIff` | index_jobs.go:782-788 | removing the file rows of a running job, without that record, leaves a root in step exactly if the job is not published already, or upstream is empty there |
| `Theorems.OvertakenPublicationInStepIff` | index_jobs.go:776-790 | a publication of a job that is no longer handed off leaves its root in step exactly if the resulting content fits what is stored, what is being deleted and what waits to be stored; otherwise, and only then, the root has parted afterwards |
| `Theorems.HandedOffPublicationInStepIff` | index_jobs.go:1237-1298 | a publication of a handed-off job leaves its root in step exactly if the result is the job's manifest, as it is for a job with its file rows that replaces the root or finds it in step; then the root has not parted, whatever happened before |
| `Theorems.ClearBringsBackInStep` | root_deletion_jobs.go:340-361 | a deletion's clear that takes effect brings its root back in step, whatever happened before |
| `Theorems.FinishedDeletionIsInStep` | root_deletion_jobs.go:273-304 | the cleanup of a deletion whose root has not parted since leaves the root empty on both sides |
| `Runs.LateWipeEmptiesStoredRoot` | root_admin.go:643-658 | from every reachable state with an idle, unfenced tenant: a run in which the clear of a dismissal arrives after a manifest was stored for the root, so that the root is stored but empty upstream |
| `Runs.LateWipeEmptiesFirstRoot` | root_admin.go:643-658 | such a run from the empty relay |
| `Theorems.PublishIntentIsNeverAbandoned` | index_jobs.go:1268-1298 | once a publish call may have been made, the job is handed off still, or completed, or failed by upstream's own verdict, under every interleaving, exactly if no begin failure was recorded for it after its handoff |
| `Theorems.HandedOffJobIsNotLost` | index_jobs.go:1268-1298 | without relay-wide reset: a job with a publish call and no such begin failure is handed off, or upstream has decided on it, so its row does not vanish before |
| `Theorems.FailBegunKeepsHandoffsIff` | index_jobs.go:782-788 | the cleanup after a failed begin takes a handoff back exactly if its update succeeds and the job it finds by id, tenant and status is in phase publishing |
| `Runs.BeginFailureOvertakesPublication` | index_jobs.go:776-790 | from every reachable state with an idle, unfenced tenant: a run in which a start loses its lease while it cancels its begin call, others stage, hand off and publish the job, and the begin failure is recorded then, although upstream has published the job; if the root was in step before, upstream then has the manifest, and the root is in step exactly if the manifest is what was stored |
| `Runs.BeginFailureOvertakesFirstPublication` | index_jobs.go:776-790 | such a run from the empty relay, for every manifest: upstream has it, nothing is stored, and the root is out of step unless it is empty |
| `Runs.StrippedJobStoresNothing` | index_jobs.go:782-790 | from every reachable state with an idle, unfenced tenant: a run in which only the removal of the file rows succeeds, and the job completes with an empty stored snapshot while upstream has its manifest |
| `Theorems.LocallyEndedWasNeverPublished` | index_jobs.go:1899-1931 | a job that timed out, was failed by its client or failed to begin never had a publish call and is not published upstream, except for begin failures recorded after a handoff |
| `Theorems.OutcomesAreTruthful` | index_jobs.go:1572-1600 | with lost replies, crashes and the abort race: failed publication implies terminally unpublished upstream, completed implies published with the recorded revision, and any positive recorded revision is upstream's |
| `Theorems.RecordedRevisionIsNotPublishedAgain` | index_jobs.go:1279-1292 | a publish call is made only for a job that is handed off, or was when a begin failure was recorded, and never for one whose row has a revision |
| `Theorems.RevisionIsTheFirstRecorded` | index_jobs.go:1279-1329 | a job row has a positive revision exactly if one was ever recorded for the job, and it is the first one recorded |
| `Theorems.RevisionNeverChanges` | index_jobs.go:1279-1329 | between any two states of any run, a positive revision of a job row is the same |
| `Theorems.LeasesStayCompatible` | index_operations.go:141-227 | any two lease rows of a tenant, expired or not, are shared, and on the same resource only if both are upload batches, under every interleaving of attempt, failed attempt, release, expiry and late renewal |
| `Theorems.AtMostFourUploads` | index_operations.go:25-29 | a job never has more than four upload lease rows |
| `Theorems.DeletionFenceHolds` | root_deletion_jobs.go:98-111 | while a deletion is queued or running, flagged or not, no job of its tenant runs and live leases of its tenant are deletion leases, unless an expired lease was renewed that this very deletion refused |
| `Theorems.ResetFenceHolds` | platform_config_jobs.go:73-83 | while an embedding change is active no deletion is, and a live lease belongs to a tenant of which an expired lease was renewed under this very change |
| `Theorems.RenewalKeepsFenceIff` | index_operations.go:208-212 | a renewal keeps the lease fences exactly unless it revives an expired lease that a fence not yet breached refuses now, and exactly then a breach is remembered |
| `Runs.LateRenewalBreaksFence` | index_operations.go:208-212 | from every reachable state with an idle, unfenced tenant without running jobs: a run in which a start renews its lease after it expired and a deletion was admitted, and then inserts a running job under the fence |
| `Runs.LateRenewalBreaksFirstFence` | index_operations.go:208-212 | such a run from the empty relay |
| `Theorems.FencedTenantHasNoHandoff` | root_deletion_jobs.go:98-111 | even with late renewals, a tenant with an active deletion has no handed-off job |
| `Theorems.OneActiveDeletion` | root_deletion_jobs.go:62-123 | at most one deletion per tenant is active |
| `Theorems.OneRunningJobPerRoot` | index_jobs.go:538-618 | at most one job per root runs, although a start is several transactions |
| `Theorems.CountersRefineFileTable` | index_jobs.go:1182-1219 | total, indexed and deleted counters of a running job are the sizes of the needed, the staged and the announced sets |
| `Theorems.EveryJobHasWork` | index_jobs.go:704-723 | a running job replaces its root or has files to upload or paths to delete, and a handed-off job has the time of its handoff |
| `Theorems.HandoffImpliesStaged` | index_jobs.go:1262-1267 | every needed file of a handed-off job is staged upstream with the manifest's content, if the job has its file rows |
| `Theorems.SnapshotStableWhileRunning` | index_jobs.go:1130-1166 | the snapshot a running job was compared with is still stored, an upload sends exactly the announced deletions until they are sent if the job has its file rows, and a full job started from an empty snapshot |
| `Theorems.DeletionCleansOnce` | root_deletion_jobs.go:271-304 | a deletion row is succeeded exactly if its cleanup was committed, and no cleanup was committed twice |
| `Theorems.CleanupNeedsOwnReceipt` | root_deletion_jobs.go:352-377 | a worker with a current claim that has read a receipt clears the root its row names, with upstream's receipt for this operation and root, and the row was not cleaned before |
| `Theorems.CleanupIsComplete` | root_deletion_jobs.go:273-304 | the cleanup commits with the success marker, leaves no job, file or workspace row of the root, touches no other root, and reports upstream's count or else the relay's |
| `Theorems.CleanedIsNeverCurrentAgain` | root_deletion_jobs.go:238-244 | in any run: once a deletion is cleaned up, no claim of it is current in any later state, at any time |
| `Theorems.DeletionTouchesOnlyActiveRoot` | root_deletion_jobs.go:271-304 | in every reachable state no action of a deletion worker, current, stale, replayed or recovered, changes jobs, stored files or workspace of a root without an active deletion row |
| `Theorems.StaleClearIsHarmless` | root_deletion_jobs.go:271-272 | a clear call that arrives after its deletion ended changes nothing upstream |
| `Theorems.DeletionBudgetHolds` | root_deletion_jobs.go:220-265 | attempts lie between 0 and 5 and count the dispatched, unrefunded attempts since the last recovery; a flagged row is running and unclaimed |
| `Theorems.DeletionIsNeverLost` | root_deletion_jobs.go:220-236 | once its claim and delay have passed, an active deletion is flagged, due to be flagged, or claimable |
| `Theorems.ConfigClearsOnce` | platform_config_jobs.go:129-169 | the relay was emptied exactly once for every succeeded embedding change and for nothing else |
| `Theorems.OnlyCompletedEmbeddingChangeClears` | platform_config_jobs.go:129-158 | a settlement that adds a reset has a completed receipt for this operation and this embedding change, a current attempt and a job not reset before; it marks success and empties leases, jobs, snapshots and workspaces |
| `Theorems.ResetIsNeverSettledAgain` | platform_config_jobs.go:129-158 | in any run: once a change has emptied the relay, no claim of it settles in any later state, whatever receipt it brings |
| `History.RunGrows` | platform_config_jobs.go:146-165 | between any two states of a run, committed cleanups, resets and first revisions are only added |
| `Theorems.OneActiveConfig` | platform_config_jobs.go:73-83 | at most one configuration job is active |
| `Theorems.ConfigBudgetHolds` | platform_config_jobs.go:107-184 | the attempt budget of configuration jobs |
| `Progress.StagedJobCanComplete` | index_jobs.go:1237-1415 | from every reachable state, a fully staged job that upstream holds open can reach completion with its manifest stored, if its tenant is idle and unfenced |
| `Progress.RemainderCanBeStaged` | index_jobs.go:918-1037 | from every reachable state, one batch with all that a running job still needs makes it fully staged, if upstream holds it open and its tenant is idle and unfenced |
| `Progress.ManifestCanBeIndexed` | index_jobs.go:620-1415 | from every reachable state, any manifest that differs from what is stored can become the stored snapshot of a root without a running job, through a start, one upload and one completion, if the tenant is idle and unfenced |
| `SafetySteps.StepKeepsSafe` | index_jobs.go:620-805 | every action keeps the safety invariant |
| `SafetySteps.InspectActiveKeepsSafe` | index_jobs.go:538-618 | reclaiming expired jobs before a replacement |
| `SafetySteps.InsertJobKeepsSafe` | index_jobs.go:679-776 | inserting a job whose table is the diff with the stored snapshot |
| `SafetySteps.NewJobShaped` | index_jobs.go:704-771 | a new job's counters and needs flags are those of the diff |
| `SafetySteps.PrepareBatchKeepsSafe` | index_jobs.go:1049-1168 | a prepared batch holds needed files with the manifest's content and the announced deletions or none |
| `SafetySteps.BatchCommittedShaped` | index_jobs.go:1191-1214 | a committed batch counts each of its files once |
| `SafetySteps.FailBegunKeepsSafe` | index_jobs.go:776-790 | a begin failure is recorded, or only the file rows are removed, without a lease and in whatever phase the job is |
| `SafetySteps.CommitBatchKeepsSafe` | index_jobs.go:1182-1219 | committing a batch beside up to three concurrent ones |
| `SafetySteps.HandOffKeepsSafe` | index_jobs.go:1268-1278 | the handoff happens only to a fully staged, unfenced job |
| `SafetySteps.CommitSnapshotKeepsSafe` | index_jobs.go:1331-1409 | the snapshot swap ends the only running job of the root |
| `SafetySteps.CommitFailKeepsSafe` | index_jobs.go:1776-1812 | a client failure ends only jobs that are not handed off |
| `SafetySteps.SweepKeepsSafe` | index_jobs.go:1891-1987 | a sweep ends only expired jobs that are not handed off |
| `SafetySteps.CommitDismissKeepsSafe` | root_admin.go:553-587 | a dismissal removes failed jobs and, if nothing was published, the workspace row |
| `SafetySteps.SubmitDeletionKeepsSafe` | root_deletion_jobs.go:62-123 | admission raises the fence only over an idle tenant |
| `SafetySteps.FinishDeletionKeepsSafe` | root_deletion_jobs.go:273-304 | cleanup and success marker in one step |
| `SafetySteps.SettleConfigKeepsSafe` | platform_config_jobs.go:129-169 | settlement, with or without the relay-wide reset |
| `UpstreamMoves.PublishedIsManifest` | index_jobs.go:1111-1166 | what upstream publishes for a fully staged job is exactly its manifest |
| `UpstreamMoves.BaseIsStored` | index_jobs.go:1237-1298 | until its publication takes effect, upstream has the stored snapshot of a handed-off job's root, if the root has not parted |
| `UpstreamMoves.PublicationKeepsAgreed` | index_jobs.go:1302-1329 | a publication that takes effect keeps relay and upstream linked, its root included unless the result does not fit |
| `UpstreamMoves.ClearKeepsAgreed` | root_deletion_jobs.go:340-361 | a clear takes effect only while its deletion is active |
| `UpstreamMoves.WipeKeepsAgreed` | root_admin.go:643-656 | a dismissal's clear takes effect at any time, and its root parts exactly if an empty content does not fit |
| `AgreementSteps.CommitSnapshotKeepsAgreed` | index_jobs.go:1331-1409 | completion stores what upstream published, or nothing if the job has lost its file rows |
| `AgreementSteps.FinishFailedKeepsAgreed` | index_jobs.go:1572-1600 | failure is recorded only for an unpublished job |
| `AgreementSteps.ReadPublishReplyKeepsAgreed` | index_jobs.go:1292-1319 | what is remembered of a publish reply stays true |
| `AgreementSteps.ReadStatusReplyKeepsAgreed` | index_jobs.go:1667-1715 | what is remembered of a status reply stays true, and an overdue publication is aborted |
| `AgreementSteps.CommitBatchKeepsAgreed` | index_jobs.go:1026-1037 | everything counted as indexed is staged upstream |
| `AgreementSteps.FailBegunKeepsAgreed` | index_jobs.go:776-790 | a begin failure, recorded or not, keeps all links but those of the job it may end or strip, and of that job's root if it parts |
| `AgreementSteps.FinishDeletionKeepsAgreed` | root_deletion_jobs.go:273-304 | after a deletion relay and upstream agree on an empty root |
| `AgreementSteps.StepKeepsAgreed` | index_jobs.go:1237-1415 | every action keeps relay and upstream linked |
| `AgreementSteps.Invariants` | index_jobs.go:620-1987 | both invariants hold in every reachable state |
| `Leases.AttemptKeepsCompatible` | index_operations.go:153-187 | an attempt, granted or not, keeps all rows pairwise compatible |
| `Leases.AttemptShape` | index_operations.go:153-187 | an attempt leaves surviving rows alone and adds its row exactly if grantable |
| `Leases.GrantKeepsUploadCap` | index_operations.go:169-172 | a granted upload batch is at most the fourth of its job |
| `Leases.RenewalKeepsCompatible` | index_operations.go:208-212 | a renewal, however late, keeps rows compatible |
| `Leases.ReleaseKeepsCompatible` | index_operations.go:45-57 | a release removes the row of its token only and keeps rows compatible |
| `Leases.LeaseTable.TryAcquire` | index_operations.go:141-192 | granted exactly if no fence is up, no live row conflicts and an upload slot is free; the purge and insert, and compatibility of all rows |
| `Leases.LeaseTable.Renew` | index_operations.go:208-220 | extends the row by token whether or not it is live |
| `Leases.LeaseTable.Release` | index_operations.go:45-57 | removes the row of the token |
| `Manifest.PatchReproducesManifest` | index_jobs.go:411-432 | removing the deleted and overlaying the pending paths yields the manifest |
| `Manifest.PatchIsMinimal` | index_jobs.go:411-432 | every such patch removes and overlays at least these paths |
| `Manifest.UnreadableIsKept` | index_jobs.go:377-409 | an indexed unreadable path outside the manifest keeps its entry and is neither pending nor deleted; every other path is as without grafting |
| `ManifestLists.NormalizeManifest` | index_jobs.go:322-349 | accepts exactly small, complete, duplicate-free manifests; the result is the cleaned files, ascending by path |
| `ManifestLists.SortByPath` | index_jobs.go:347-348 | ascending and a permutation |
| `ManifestLists.GraftUnreadablePaths` | index_jobs.go:377-409 | the result is the manifest plus the old entries of indexed unreadable paths, ascending; when it is refused |
| `ManifestLists.DiffManifest` | index_jobs.go:411-432 | pending and deleted are exactly the changed and the vanished paths, ascending, with the chunk estimate of the changed files |
| `Dispatch.RetryDelayDoublesUpToCap` | root_deletion_jobs.go:267-269 | five seconds, doubling, at most ten minutes |
| `Durable.NeverLost` | root_deletion_jobs.go:220-236 | a ticket within its budget is flagged, exhausted or dispatchable once its claim and delay have passed |
| `Durable.ClaimDeletionKeeps` | root_deletion_jobs.go:220-236 | a claim statement keeps budgets, held counts and once-only cleanup |
| `Durable.RecordErrorKeeps` | root_deletion_jobs.go:246-265 | giving a claim back, refunded or not, keeps budgets and held counts |
| `Durable.FinishedKeeps` | root_deletion_jobs.go:286-298 | success and cleanup record appear together, once |
| `Durable.SettledResets` | platform_config_jobs.go:146-165 | a settlement adds a reset exactly for a completed embedding change |
| `RootDeletion.SubmittedKeepsOneActive` | root_deletion_jobs.go:62-123 | a submission keeps one active deletion per tenant |
| `RootDeletion.DeletionTable.Submit` | root_deletion_jobs.go:62-123 | resumes, replays, refuses or admits, and the new table |
| `RootDeletion.DeletionTable.ClaimNext` | root_deletion_jobs.go:220-236 | flags at most 100 spent rows, all of them if fewer, and hands out a claimable row if there is one, as a current claim, skipping locked rows |
| `RootDeletion.DeletionTable.RecordError` | root_deletion_jobs.go:246-265 | the claim is given back and is no longer current |
| `RootDeletion.DeletionTable.Finish` | root_deletion_jobs.go:279-298 | succeeds exactly for a current claim, after which no claim of the row is current |
| `PlatformConfig.EnqueuedKeepsOneActive` | platform_config_jobs.go:54-90 | an enqueue keeps one active job |
| `PlatformConfig.ConfigTable.Enqueue` | platform_config_jobs.go:54-90 | replay, mismatch, busy or insert, and the new table |
| `PlatformConfig.ConfigTable.ClaimNext` | platform_config_jobs.go:107-119 | flags exhausted rows and hands out a claimable row that is not locked if there is one |
| `PlatformConfig.ConfigTable.Finish` | platform_config_jobs.go:129-169 | settles exactly with a matching final receipt and a current attempt; clears exactly for a completed embedding change |
| `PlatformConfig.ConfigTable.Postpone` | platform_config_jobs.go:171-182 | gives the claim back without refunding the attempt |
| `PlatformConfig.ConfigTable.Recover` | platform_config_jobs.go:92-105 | resets the budget of a flagged running job; repeating it changes nothing |
| `IndexBytes.BytesAreConserved` | quota.go:741-769 | after any sequence of file and part calls the counters over all pools and days sum to the recorded contents and parts |
| `IndexBytes.FilesConserve` | quota.go:741-769 | a file call keeps conservation |
| `IndexBytes.PartConserves` | swift_quota.go:147-158 | a part call keeps conservation |
| `IndexBytes.AcceptedCall` | quota.go:757-768 | an accepted limited file call records all its contents and, if it charged, ends within its limit |
| `IndexBytes.AcceptedPart` | swift_quota.go:147-158 | an accepted part is recorded with its token and, if it charged a limited pool, ends within its limit |
| `IndexBytes.PoolIsNeverOverdrawn` | swift_quota.go:147-158 | a pool whose limit stays the same is never overdrawn by any sequence of file and part calls |
| `IndexBytes.ReplayChargesNothing` | quota.go:708-710 | recorded contents are charged nothing |
| `IndexBytes.SplitChargesTheSame` | quota.go:565-567 | however a batch is split, the same contents are recorded and the same bytes charged |
| `IndexBytes.JobLedgerIsBounded` | swift_quota.go:135-137 | a job ledger has at most 512 parts |
| `IndexBytes.ByteLedger.ChargeFiles` | quota.go:710-769 | the answer, the charged bytes and the new ledger |
| `IndexBytes.ByteLedger.Collect` | quota.go:748-756 | the script's loop records each unseen content once |
| `IndexBytes.ByteLedger.ChargePart` | swift_quota.go:103-169 | bounds, conflict, replay, limit and the new ledger |
| `RequestQuota.CountersCountAdmitted` | quota.go:826-858 | a limited counter counts exactly the calls that the script admitted there, answered or not, and stays within its limit, in every run with a failing store |
| `RequestQuota.CountersCoverAllowed` | quota.go:860-884 | a limited counter is the number of calls that went ahead there plus those whose answer was lost, within its limit, in every run with a failing store |
| `RequestQuota.RejectedExactlyWhenSpent` | quota.go:833-844 | the script rejects a call exactly when the calls it admitted at one of the limited levels have reached the limit |
| `RequestQuota.RejectedLeaveNoTrace` | quota.go:833-844 | a run and the run without its rejected and unexecuted calls end in the same counters and admit the same calls |
| `RequestQuota.PoolCoversMembers` | quota.go:912-942 | a limited pool's counter is at least the sum of its limited members' counters |
| `RequestQuota.RequestCounters.Script` | quota.go:826-858 | both levels are charged or neither, and the level, use and limit that decided |
| `RequestQuota.RequestCounters.Reserve` | quota.go:860-907 | an unlimited call does not ask the store, a failing store admits nothing even if the script took effect, otherwise all or nothing; the reported use, limit and scope, personal, member or organization |
| `Sessions.OldestIsUnique` | main.go:2058-2077 | an eviction is determined by its size |
| `Sessions.SessionTable.PruneExpired` | main.go:2047-2056 | removes exactly the expired sessions |
| `Sessions.SessionTable.EvictOldest` | main.go:2058-2077 | evicts the least by last activity and id among the user's sessions, or among all for the empty user |
| `Sessions.SessionTable.CountForUser` | main.go:2079-2086 | the number of the user's sessions |
| `Sessions.SessionTable.MakeRoomForUser` | main.go:2097-2103 | evicts the fewest and oldest of the user's sessions, or of all for the empty user, so that one more of the user's fits |
| `Sessions.SessionTable.MakeRoom` | main.go:2104-2110 | evicts the fewest and oldest sessions that must go |
| `Sessions.SessionTable.PrepareSlot` | main.go:2088-2112 | both evictions after expiry, and room for one more under both caps |
| `Sessions.SessionTable.Initialize` | main.go:2263-2284 | both caps hold after every insert, for every user |
| `Sessions.SessionTable.Touch` | main.go:2114-2126 | refreshes only the user's own session |
| `RateLimit.WaitIsLeast` | mcp_index_tool.go:57-61 | the returned wait is the least whole number of seconds that suffices |
| `RateLimit.AdmittedAreSpaced` | mcp_index_tool.go:50-71 | admitted calls of one key are at least one interval apart |
| `RateLimit.PrunedRemembers` | root_admin.go:401-407 | pruning forgets only calls that no longer matter |
| `RateLimit.Limiter.Check` | mcp_index_tool.go:53-71 | the bounded map answers every chronological call like a limiter with unbounded memory |
| `RateLimit.Limiter.Prune` | mcp_index_tool.go:63-69 | removes exactly the entries at least one interval old |

## Left out

- SnapshotAgreement: runs in which an embedding change has emptied the relay are excluded, because what upstream then does with staged jobs is not shown in the repository; parted roots are excepted, because it fails in such runs (BeginFailureOvertakesFirstPublication, StrippedJobStoresNothing, LateWipeEmptiesFirstRoot). The lemmas ending in InStepIff give the exact condition of each step that parts a root, and UnsuspectedRootIsInStep one for the whole run.
- PublishIntentIsNeverAbandoned: false for jobs whose begin failure is recorded after their handoff; it gives the exact condition.
- LocallyEndedWasNeverPublished: the same jobs are excepted, for the same reason.
- DeletionFenceHolds: a deletion that refused a lease renewed after its expiry is excepted, because it fails then (LateRenewalBreaksFence); RenewalKeepsFenceIff gives the exact condition.
- ResetFenceHolds: the part about leases, for tenants with such a renewal under the same change, for the same reason.
- HandoffImpliesStaged: a job that has lost its file rows has no needed files to speak of; it is excepted.
- SnapshotStableWhileRunning: the deletion list of such a job is recomputed from no rows; that clause excepts it.
- DeletionTable.ClaimNext: does not promise that no spent row is left unflagged, because the statement flags at most 100 rows and skips locked ones.
- FailBegun: its two statements are one step, because the file rows of an ended job are not read again; the update may fail alone.
- Index job, file, snapshot and workspace rows are values in the state of the transition system, not objects updated in place.
- The synchronous delete-root and clear-index endpoints and the reset of a workspace that changed its root: the cloud is cleared first and they heal only by retry.
- Chunk counters, error texts, diagnostics, timestamps other than heartbeats, claims and delays.
- Row selection order (`created_at`): a claim or sweep of the transition system takes any eligible rows, however many it skips.
- The polling loop of lease acquisition: each attempt is one action.
- Path normalisation, trimming and case folding are parameters; files are keyed by their results.
- Redis expiry, Lua number precision, wall-clock drift, and PostgreSQL behaviour below one statement.
- `chargeIndexBytes`, plan and tier resolution, the Swift per-minute rate script, HTTP, JSON, streaming, metrics, migrations, cryptography.
- The session id of an initialize request is assumed unused and not empty; its uniqueness is that of a random UUID.
