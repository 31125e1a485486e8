/** What holds in every state that any interleaving of the control plane's actions can reach. */
module Theorems {
  import opened RelayTypes
  import opened Leases
  import opened IndexJobs
  import opened Upstream
  import opened ControlPlane
  import opened Safety
  import opened SafetySteps
  import opened Agreement
  import opened UpstreamMoves
  import opened AgreementSteps
  import opened Durable
  import opened History
  import D = RootDeletion
  import C = PlatformConfig

  // ---- leases ----------------------------------------------------------------------------------------

  /** Any two lease rows of a tenant, expired or not, may coexist, so a late renewal never revives a conflict. */
  lemma LeasesStayCompatible(s: State, t: Token, u: Token)
    requires Reachable(s) && t in s.leases && u in s.leases && t != u && s.leases[t].tenant == s.leases[u].tenant
    ensures s.leases[t].mode == Shared && s.leases[u].mode == Shared
    ensures s.leases[t].resource == s.leases[u].resource ==> s.leases[t].kind == UploadBatch && s.leases[u].kind == UploadBatch
  {
    Invariants(s);
    Given(LeaseRows, s);
    assert !Conflicts(s.leases[t], s.leases[u]);
  }

  lemma AtMostFourUploads(s: State, tenant: Tenant, j: JobId)
    requires Reachable(s)
    ensures |set t | t in s.leases && s.leases[t].tenant == tenant && s.leases[t].kind == UploadBatch && s.leases[t].resource == JobResource(j)| <= 4
  {
    var rows := set t | t in s.leases && s.leases[t].tenant == tenant && s.leases[t].kind == UploadBatch && s.leases[t].resource == JobResource(j);
    Invariants(s);
    Given(LeaseRows, s);
    if rows != {} {
      var t :| t in rows;
      assert rows == UploadSlots(s.leases, s.leases[t]);
    }
  }

  // ---- jobs --------------------------------------------------------------------------------------------

  lemma OneRunningJobPerRoot(s: State, i: JobId, j: JobId)
    requires Reachable(s) && RunningJob(s.jobs, i) && RunningJob(s.jobs, j) && s.jobs[i].root == s.jobs[j].root
    ensures i == j
  {
    Invariants(s);
    Given(RunningJobs, s);
  }

  /** Counters count the file table; each file counts once however batches overlapped. */
  lemma CountersRefineFileTable(s: State, j: JobId)
    requires Reachable(s) && RunningJob(s.jobs, j)
    ensures s.jobs[j].totalFiles == |Needed(s.jobs[j].files)|
    ensures s.jobs[j].indexedFiles == |Staged(s.jobs[j].files)|
    ensures s.jobs[j].deletedCount == |s.jobs[j].announced|
  {
    Invariants(s);
    JobFacts(s, j);
    assert Has(Progress, s.jobs[j], Stored(s.snapshots, s.jobs[j].root), s.jobs[j].root in s.workspaces);
  }

  /** A start that finds nothing to do inserts no job; a handed-off job knows since when. */
  lemma EveryJobHasWork(s: State, j: JobId)
    requires Reachable(s) && RunningJob(s.jobs, j)
    ensures s.jobs[j].full || Needed(s.jobs[j].files) != {} || s.jobs[j].announced != {}
    ensures s.jobs[j].phase == Publishing ==> s.jobs[j].publishingSince.Some?
  {
    Invariants(s);
    JobFacts(s, j);
    CountersRefineFileTable(s, j);
    assert Has(Lifecycle, s.jobs[j], Stored(s.snapshots, s.jobs[j].root), s.jobs[j].root in s.workspaces);
  }

  /** A job is handed off only when every needed file is staged upstream with the manifest's content. */
  lemma HandoffImpliesStaged(s: State, j: JobId, p: Path)
    requires Reachable(s) && PublishingJob(s.jobs, j) && !s.jobs[j].lost && p in s.jobs[j].files && s.jobs[j].files[p].needsIndex
    ensures p in StagedAt(s.cloud, j) && StagedAt(s.cloud, j)[p] == s.jobs[j].files[p].entry
  {
    Invariants(s);
    JobFacts(s, j);
    assert Has(Lifecycle, s.jobs[j], Stored(s.snapshots, s.jobs[j].root), s.jobs[j].root in s.workspaces);
    AllNeededStaged(s.jobs[j], Stored(s.snapshots, s.jobs[j].root), s.jobs[j].root in s.workspaces);
    assert p in Staged(s.jobs[j].files);
    Gives(Staging, s);
  }

  /** The snapshot a running job was compared with is still the stored one, so the deletion list that an upload
      recomputes is the one that start announced; a job that replaces its root started from nothing. */
  lemma SnapshotStableWhileRunning(s: State, j: JobId)
    requires Reachable(s) && RunningJob(s.jobs, j)
    ensures Stored(s.snapshots, s.jobs[j].root) == s.jobs[j].base
    ensures !s.jobs[j].lost ==>
              DeletionsToSend(s.jobs[j], Stored(s.snapshots, s.jobs[j].root)) == if s.jobs[j].deletionsSent then {} else s.jobs[j].announced
    ensures s.jobs[j].full ==> Stored(s.snapshots, s.jobs[j].root) == map[]
  {
    Invariants(s);
    JobFacts(s, j);
    var job := s.jobs[j];
    assert Has(DiffOfSnapshot, job, Stored(s.snapshots, job.root), job.root in s.workspaces);
    assert Has(Lifecycle, job, Stored(s.snapshots, job.root), job.root in s.workspaces);
    assert Has(Progress, job, Stored(s.snapshots, job.root), job.root in s.workspaces);
    assert Entries(job.files).Keys == job.files.Keys;
    Given(StoredFiles, s);
  }

  // ---- publication -----------------------------------------------------------------------------------------

  /** Once a publish call may have been made, the job stays handed off until upstream decides, exactly if no begin
      failure was recorded for it after its handoff. */
  lemma PublishIntentIsNeverAbandoned(s: State, j: JobId)
    requires Reachable(s) && j in s.jobs && Publish(j) in s.sent
    ensures (PublishingJob(s.jobs, j) || s.jobs[j].status == Completed || s.jobs[j].status == Failed(PublicationFailed))
              <==> j !in s.doubts.usurped
  {
    Invariants(s);
    Gives(Handoffs, s);
    Given(Usurpations, s);
  }

  /** Nor does its row vanish before upstream has decided. */
  lemma HandedOffJobIsNotLost(s: State, j: JobId)
    requires Reachable(s) && s.resets == [] && Publish(j) in s.sent && j !in s.doubts.usurped
    ensures PublishingJob(s.jobs, j) || IsTerminal(s.cloud, j)
  {
    Invariants(s);
    Gives(Endings, s);
  }

  lemma FailBegunRecords(s: State, t: Token, j: JobId)
    requires t in s.creates && s.creates[t].stage == Aborted(j) && HitBy(s.jobs, s.creates[t])
    ensures FailBegun(s, t, true).jobs == s.jobs[j := Ended(s.jobs[j], Failed(BeginFailed)).(heartbeat := s.now)]
    ensures j in FailBegun(s, t, true).doubts.usurped <==> j in s.doubts.usurped || s.jobs[j].phase == Publishing
  {
  }

  lemma FailBegunStrips(s: State, t: Token, j: JobId)
    requires t in s.creates && s.creates[t].stage == Aborted(j) && HitBy(s.jobs, s.creates[t])
    ensures FailBegun(s, t, false).jobs == s.jobs[j := s.jobs[j].(lost := true)]
    ensures FailBegun(s, t, false).doubts.usurped == s.doubts.usurped
  {
  }

  lemma FailBegunMisses(s: State, t: Token, recorded: bool)
    requires t in s.creates && s.creates[t].stage.Aborted? && !HitBy(s.jobs, s.creates[t])
    ensures FailBegun(s, t, recorded).jobs == s.jobs && FailBegun(s, t, recorded).doubts == s.doubts
  {
  }

  /** Cleaning up after a failed begin takes a handoff back exactly if it records the failure for a job in phase
      publishing, and exactly then is the job remembered as usurped. */
  lemma FailBegunKeepsHandoffsIff(s: State, t: Token, recorded: bool)
    requires t in s.creates && s.creates[t].stage.Aborted?
    ensures (forall j | PublishingJob(s.jobs, j) :: PublishingJob(FailBegun(s, t, recorded).jobs, j))
              <==> !(recorded && HitBy(s.jobs, s.creates[t]) && s.jobs[s.creates[t].stage.job].phase == Publishing)
    ensures s.creates[t].stage.job in FailBegun(s, t, recorded).doubts.usurped <==>
              || s.creates[t].stage.job in s.doubts.usurped
              || (recorded && HitBy(s.jobs, s.creates[t]) && s.jobs[s.creates[t].stage.job].phase == Publishing)
  {
    var j := s.creates[t].stage.job;
    if HitBy(s.jobs, s.creates[t]) {
      FailBegunRecords(s, t, j);
      FailBegunStrips(s, t, j);
      assert PublishingJob(s.jobs, j) <==> s.jobs[j].phase == Publishing;
    } else {
      FailBegunMisses(s, t, recorded);
    }
  }

  /** A job that timed out, was failed by its client or never began was never submitted for publication, except for
      jobs whose begin failure was recorded after their handoff. */
  lemma LocallyEndedWasNeverPublished(s: State, j: JobId)
    requires Reachable(s) && j in s.jobs && EndsLocally(s.jobs[j].status)
    ensures j !in s.doubts.usurped ==> Publish(j) !in s.sent && !PublishedIn(s.cloud, j)
    ensures j in s.doubts.usurped ==> s.jobs[j].status == Failed(BeginFailed)
  {
    Invariants(s);
    Gives(Handoffs, s);
    Gives(Submissions, s);
    Given(Usurpations, s);
  }

  /** Recorded outcomes of handed-off jobs are upstream's own, whatever replies were lost. */
  lemma OutcomesAreTruthful(s: State, j: JobId)
    requires Reachable(s) && j in s.jobs
    ensures s.jobs[j].status == Completed ==> IsPublished(s.cloud, j, s.jobs[j].cloudRevision)
    ensures s.jobs[j].status == Failed(PublicationFailed) ==> IsUnpublished(s.cloud, j)
    ensures s.jobs[j].cloudRevision > 0 ==> IsPublished(s.cloud, j, s.jobs[j].cloudRevision)
  {
    Invariants(s);
    Gives(Outcomes, s);
    Gives(Revisions, s);
  }

  /** A publish call is made only for a job that is handed off, or was until its begin failure was recorded, and never
      for one whose row has a recorded revision. */
  lemma RecordedRevisionIsNotPublishedAgain(s: State, t: Token)
    requires Reachable(s) && PublishEnabled(s, CallPublishA(t))
    ensures PublishingJob(s.jobs, s.publishers[t].job) || s.publishers[t].job in s.doubts.usurped
    ensures s.publishers[t].job in s.jobs ==> s.jobs[s.publishers[t].job].cloudRevision <= 0
  {
    Invariants(s);
    PublishFacts(s, t);
  }

  /** A positive revision on a job row is the first one that was ever recorded for the job. */
  lemma RevisionIsTheFirstRecorded(s: State, j: JobId)
    requires Reachable(s) && j in s.jobs
    ensures s.jobs[j].cloudRevision > 0 <==> j in s.revisions
    ensures j in s.revisions ==> s.jobs[j].cloudRevision == s.revisions[j]
  {
    Invariants(s);
    Gives(Revisions, s);
  }

  /** What is recorded as a job's revision in one state of a run is its revision in every later one. */
  lemma RevisionNeverChanges(states: seq<State>, actions: seq<Action>, m: nat, n: nat, j: JobId)
    requires IsRun(states, actions) && m <= n <= |actions| && j in states[m].jobs && j in states[n].jobs && states[m].jobs[j].cloudRevision > 0
    ensures states[n].jobs[j].cloudRevision == states[m].jobs[j].cloudRevision
  {
    RunKeepsInvariants(states, actions, m);
    RunKeepsInvariants(states, actions, n);
    Gives(Revisions, states[m]);
    Gives(Revisions, states[n]);
    RunGrows(states, actions, m, n);
  }

  // ---- content --------------------------------------------------------------------------------------------------

  ghost predicate InStep(s: State, root: Root) {
    RootInStep(s.jobs, s.snapshots, s.deletions, s.cloud, root)
  }

  /** Every root that has not parted is in step. Runs with a relay-wide reset are not covered. */
  lemma SnapshotAgreement(s: State, root: Root)
    requires Reachable(s) && s.resets == [] && root !in s.doubts.parted
    ensures InStep(s, root)
  {
    Invariants(s);
    Gives(Contents, s);
  }

  /** A root has not parted, and so is in step, unless a dismissal has called its clear, or upstream has published a
      job of the root that was recorded as never begun or stripped of its file rows. */
  lemma UnsuspectedRootIsInStep(s: State, root: Root)
    requires Reachable(s) && s.resets == [] && (forall t: Token :: Wipe(t, root) !in s.sent)
    requires forall j | j in s.doubts.usurped && s.doubts.usurped[j] == root :: !PublishedIn(s.cloud, j)
    requires forall j | j in s.doubts.stripped && s.doubts.stripped[j] == root :: !PublishedIn(s.cloud, j)
    ensures root !in s.doubts.parted && InStep(s, root)
  {
    Invariants(s);
    Gives(Contents, s);
    Gives(Suspicions, s);
    assert !Suspect(s.doubts, s.cloud, s.sent, root);
  }

  // The steps that can part relay and upstream, each with the exact condition, told before the step.

  /** A dismissal's clear, whenever it arrives. */
  lemma WipeKeepsInStepIff(s: State, call: Token, root: Root)
    requires CloudEnabled(s, ArriveA(Wipe(call, root)))
    ensures var s' := DoCloud(s, ArriveA(Wipe(call, root)));
            && (InStep(s', root) <==> !Misfits(s, root, map[]))
            && (root in s'.doubts.parted <==> Misfits(s, root, map[]))
  {
    WipedRootInStepIff(s, call, root);
  }

  /** The publication of a job whose begin failure was recorded after its handoff. */
  lemma OvertakenPublicationInStepIff(s: State, j: JobId, revision: nat)
    requires CloudEnabled(s, PublicationSucceedsA(j, revision)) && !PublishingJob(s.jobs, j)
    ensures var s', root := DoCloud(s, PublicationSucceedsA(j, revision)), s.cloud.jobs[j].root;
            && (InStep(s', root) <==> !Misfits(s, root, ContentAfter(s.cloud, j)))
            && (root in s'.doubts.parted <==> Misfits(s, root, ContentAfter(s.cloud, j)))
  {
    OvertakenRootInStepIff(s, j, revision);
  }

  /** The publication of a handed-off job. It fits if the job has its file rows and either replaces its root or finds it
      in step. */
  lemma HandedOffPublicationInStepIff(s: State, j: JobId, revision: nat)
    requires Reachable(s) && CloudEnabled(s, PublicationSucceedsA(j, revision)) && PublishingJob(s.jobs, j)
    ensures var s' := DoCloud(s, PublicationSucceedsA(j, revision));
            && (InStep(s', s.jobs[j].root) <==> ContentAfter(s.cloud, j) == ManifestOf(s.jobs[j]))
            && (InStep(s', s.jobs[j].root) ==> s.jobs[j].root !in s'.doubts.parted)
    ensures !s.jobs[j].lost && (s.jobs[j].full || (s.resets == [] && s.jobs[j].root !in s.doubts.parted)) ==>
              ContentAfter(s.cloud, j) == ManifestOf(s.jobs[j])
  {
    Invariants(s);
    PublicationFits(s, j);
    PublishedRootInStepIff(s, j, revision);
    HandedOffJudgement(s, j);
  }

  lemma HandedOffJudgement(s: State, j: JobId)
    requires j in s.cloud.jobs && PublishingJob(s.jobs, j) && s.cloud.jobs[j].root == s.jobs[j].root
    ensures ContentAfter(s.cloud, j) == ManifestOf(s.jobs[j]) ==> s.jobs[j].root !in PartedByPublication(s, j)
  {
  }

  lemma RecordedInStepIff(s: State, t: Token)
    requires t in s.creates && s.creates[t].stage.Aborted? && HitBy(s.jobs, s.creates[t])
    requires s.jobs[s.creates[t].stage.job].phase == Publishing
    requires OneRunning(s.jobs) && !DeletionOn(s.deletions, s.jobs[s.creates[t].stage.job].root)
    ensures var root := s.jobs[s.creates[t].stage.job].root;
            InStep(FailBegun(s, t, true), root) <==> Content(s.cloud, root) == Stored(s.snapshots, root)
  {
    var j := s.creates[t].stage.job;
    UsurpedRootInStep(s.jobs, s.cloud, s.snapshots, s.deletions, j, Ended(s.jobs[j], Failed(BeginFailed)).(heartbeat := s.now));
  }

  lemma UnrecordedInStepIff(s: State, t: Token)
    requires t in s.creates && s.creates[t].stage.Aborted? && HitBy(s.jobs, s.creates[t]) && OneRunning(s.jobs)
    requires InStep(s, s.jobs[s.creates[t].stage.job].root)
    ensures var j, root := s.creates[t].stage.job, s.jobs[s.creates[t].stage.job].root;
            InStep(FailBegun(s, t, false), root) <==> (AwaitsSnapshot(s.jobs, s.cloud, root, j) ==> Content(s.cloud, root) == map[])
  {
    StrippedRootInStep(s.jobs, s.cloud, s.snapshots, s.deletions, s.creates[t].stage.job);
  }

  /** The record of a begin failure for a job that is handed off already. */
  lemma UsurpationInStepIff(s: State, t: Token)
    requires Reachable(s) && t in s.creates && s.creates[t].stage.Aborted? && HitBy(s.jobs, s.creates[t])
    requires s.jobs[s.creates[t].stage.job].phase == Publishing
    ensures var root := s.jobs[s.creates[t].stage.job].root;
            InStep(FailBegun(s, t, true), root) <==> Content(s.cloud, root) == Stored(s.snapshots, root)
  {
    Invariants(s);
    Given(RunningJobs, s);
    HandoffExcludesDeletion(s, s.creates[t].stage.job);
    RecordedInStepIff(s, t);
  }

  /** The removal of the file rows of a running job, when the failure itself could not be recorded. */
  lemma StrippingInStepIff(s: State, t: Token)
    requires Reachable(s) && t in s.creates && s.creates[t].stage.Aborted? && HitBy(s.jobs, s.creates[t])
    requires InStep(s, s.jobs[s.creates[t].stage.job].root)
    ensures var j, root := s.creates[t].stage.job, s.jobs[s.creates[t].stage.job].root;
            InStep(FailBegun(s, t, false), root) <==> (AwaitsSnapshot(s.jobs, s.cloud, root, j) ==> Content(s.cloud, root) == map[])
  {
    Invariants(s);
    Given(RunningJobs, s);
    UnrecordedInStepIff(s, t);
  }

  // The steps that bring a root back.

  /** A deletion's clear that takes effect, whatever has happened to the root before. */
  lemma ClearBringsBackInStep(s: State, id: string, root: Root)
    requires Reachable(s) && Clear(id, root) in s.sent && id !in s.cloud.receipts
    ensures var s' := DoCloud(s, ArriveA(Clear(id, root))); InStep(s', root) && root !in s'.doubts.parted
  {
    Invariants(s);
    Gives(Clears, s);
    assert Authorised(id, root, s.deletions, s.cloud);
    ClearedRootInStep(s, id, root);
  }

  /** The finished deletion of a root that has not parted since its clear leaves nothing on either side. */
  lemma FinishedDeletionIsInStep(s: State, t: Token)
    requires Reachable(s) && s.resets == [] && Acting(s, t) && t in s.deletes && s.deletes[t].stage.ReceiptRead?
    requires D.Current(s.deletions, s.deletes[t].claim, s.now) && s.deletes[t].claim.root !in s.doubts.parted
    ensures var s', root := FinishDeletion(s, t), s.deletes[t].claim.root;
            Content(s'.cloud, root) == map[] && Stored(s'.snapshots, root) == map[] && InStep(s', root)
  {
    var claim := s.deletes[t].claim;
    Invariants(s);
    ReceiptHolder(s, t);
    Gives(Contents, s);
    assert RootInStep(s.jobs, s.snapshots, s.deletions, s.cloud, claim.root) && ClearedOn(s.deletions, s.cloud, claim.root);
    Given(StoredFiles, s);
    WithoutFilesEmpties(s.snapshots, s.workspaces, claim.root);
    FinishLeavesEmpty(s, t);
  }

  lemma FinishLeavesEmpty(s: State, t: Token)
    requires Acting(s, t) && t in s.deletes && s.deletes[t].stage.ReceiptRead? && D.Current(s.deletions, s.deletes[t].claim, s.now)
    requires Content(s.cloud, s.deletes[t].claim.root) == map[]
    requires Stored(WithoutFiles(s.snapshots, s.workspaces, s.deletes[t].claim.root), s.deletes[t].claim.root) == map[]
    ensures var s', root := FinishDeletion(s, t), s.deletes[t].claim.root;
            Content(s'.cloud, root) == map[] && Stored(s'.snapshots, root) == map[] && InStep(s', root)
  {
    var s', root := FinishDeletion(s, t), s.deletes[t].claim.root;
    assert s'.cloud == s.cloud && s'.snapshots == WithoutFiles(s.snapshots, s.workspaces, root) && s'.jobs == WithoutRoot(s.jobs, root);
  }

  // ---- fences -------------------------------------------------------------------------------------------------

  /** While a deletion is active, whatever its state of recovery, no job of its tenant runs and only deletion workers hold
      live leases, unless an expired lease was renewed that this very deletion refused. */
  lemma DeletionFenceHolds(s: State, id: string)
    requires Reachable(s) && id in s.deletions && D.Active(s.deletions[id]) && OfDeletion(id) !in s.late
    ensures !RunningJobOf(s.jobs, s.deletions[id].root.tenant)
    ensures forall t | Acting(s, t) && s.leases[t].tenant == s.deletions[id].root.tenant :: s.leases[t].kind == DeleteRootJob
  {
    Invariants(s);
    Given(LiveLeases, s);
    Given(FencedRunning, s);
    assert D.ActiveIn(s.deletions, s.deletions[id].root.tenant, id);
  }

  /** While an embedding change is active, no deletion is, and a lease is live only if it, or another of its tenant, was
      renewed after it had expired under this very change. */
  lemma ResetFenceHolds(s: State, change: string)
    requires Reachable(s) && C.ResetBy(s.configs, change)
    ensures !D.AnyActive(s.deletions)
    ensures forall t | Acting(s, t) :: OfConfig(change, s.leases[t].tenant) in s.late
  {
    Invariants(s);
    Given(LiveLeases, s);
    Given(Fences, s);
  }

  /** Even with late renewals, no job of a fenced tenant is handed off. */
  lemma FencedTenantHasNoHandoff(s: State, j: JobId)
    requires Reachable(s) && PublishingJob(s.jobs, j)
    ensures !D.Fencing(s.deletions, s.jobs[j].root.tenant)
  {
    Invariants(s);
    JobFacts(s, j);
  }

  lemma RenewedRowKeepsFenceIff(s: State, t: Token)
    requires LeasesUnfenced(s.leases, s.now, s.deletions, s.configs, s.late) && t in s.leases
    ensures LeasesUnfenced(AfterRenewal(s.leases, s.leases[t].tenant, t, s.now), s.now, s.deletions, s.configs, s.late) <==>
              Excused(s.leases[t], s.deletions, s.configs, s.late)
  {
    var after := AfterRenewal(s.leases, s.leases[t].tenant, t, s.now);
    assert Live(after[t], s.now) && after[t].(expires := 0) == s.leases[t].(expires := 0);
    assert Excused(after[t], s.deletions, s.configs, s.late) <==> Excused(s.leases[t], s.deletions, s.configs, s.late);
  }

  lemma RefusedUnlessExcused(s: State, row: Lease)
    ensures Refusals(s, row) <= s.late <==> Excused(row, s.deletions, s.configs, s.late)
  {
    forall id | D.ActiveIn(s.deletions, row.tenant, id) && row.kind != DeleteRootJob ensures OfDeletion(id) in Refusals(s, row) {}
    forall id | C.ResetBy(s.configs, id) ensures OfConfig(id, row.tenant) in Refusals(s, row) {}
  }

  lemma RenewalChanges(s: State, t: Token)
    requires t in s.leases
    ensures Renew(s, t).leases == AfterRenewal(s.leases, s.leases[t].tenant, t, s.now)
    ensures Renew(s, t).late == if Live(s.leases[t], s.now) then s.late else s.late + Refusals(s, s.leases[t])
  {
  }

  /** A renewal breaks a fence exactly if it revives an expired lease that some unbreached fence refuses now, and exactly
      then is something remembered. */
  lemma RenewalKeepsFenceIff(s: State, t: Token)
    requires LeasesUnfenced(s.leases, s.now, s.deletions, s.configs, s.late) && t in s.leases
    ensures LeasesUnfenced(Renew(s, t).leases, s.now, s.deletions, s.configs, s.late) <==>
              Live(s.leases[t], s.now) || Refusals(s, s.leases[t]) <= s.late
    ensures Renew(s, t).late == s.late <==> Live(s.leases[t], s.now) || Refusals(s, s.leases[t]) <= s.late
  {
    RenewalChanges(s, t);
    RenewedRowKeepsFenceIff(s, t);
    RefusedUnlessExcused(s, s.leases[t]);
  }

  /** One active deletion per tenant. */
  lemma OneActiveDeletion(s: State, a: string, b: string)
    requires Reachable(s) && a in s.deletions && b in s.deletions && D.Active(s.deletions[a]) && D.Active(s.deletions[b])
    requires s.deletions[a].root.tenant == s.deletions[b].root.tenant
    ensures a == b
  {
    Invariants(s);
    Given(ActiveDeletions, s);
  }

  // ---- durable deletion -------------------------------------------------------------------------------------------

  /** A succeeded deletion is one whose cleanup was committed, and no cleanup was committed twice. */
  lemma DeletionCleansOnce(s: State)
    requires Reachable(s)
    ensures NoDuplicates(s.cleaned)
    ensures forall id | id in s.deletions :: s.deletions[id].status == D.Succeeded <==> id in s.cleaned
  {
    Invariants(s);
    Given(Duties, s);
    Durable.Keeps(Cleanup, BookOf(s));
  }

  /** A clear call that arrives after its deletion has ended changes nothing, whatever was indexed since. */
  lemma StaleClearIsHarmless(s: State, id: string, root: Root)
    requires Reachable(s) && Clear(id, root) in s.sent
    requires id in s.deletions ==> !D.Active(s.deletions[id])
    ensures Arrive(s.cloud, Clear(id, root)) == s.cloud
  {
    Invariants(s);
    Gives(Clears, s);
    assert Authorised(id, root, s.deletions, s.cloud);
  }

  /** A cleanup is committed only for a row that is still the worker's own, names the root that the worker clears,
      has upstream's receipt and was not cleaned before. */
  lemma CleanupNeedsOwnReceipt(s: State, t: Token)
    requires Reachable(s) && Acting(s, t) && t in s.deletes && s.deletes[t].stage.ReceiptRead?
    requires D.Current(s.deletions, s.deletes[t].claim, s.now)
    ensures var claim := s.deletes[t].claim;
            && s.deletions[claim.id].root == claim.root && claim.id !in s.cleaned
            && claim.id in s.cloud.receipts && s.cloud.receipts[claim.id].target == claim.root
            && s.cloud.receipts[claim.id].files == s.deletes[t].stage.count
  {
    Invariants(s);
    ReceiptHolder(s, t);
    DeletionCleansOnce(s);
  }

  /** What the cleanup of the claim held by `t` does to the tables. */
  ghost predicate CleansUp(s: State, t: Token, s': State)
    requires t in s.deletes && s.deletes[t].stage.ReceiptRead?
  {
    var claim, count := s.deletes[t].claim, s.deletes[t].stage.count;
    && s'.cleaned == s.cleaned + [claim.id] && claim.id in s'.deletions && s'.deletions[claim.id].status == D.Succeeded
    && s'.jobs == (map j | j in s.jobs && s.jobs[j].root != claim.root :: s.jobs[j])
    && SameElsewhere(s.snapshots, s'.snapshots, claim.root) && Stored(s'.snapshots, claim.root) == map[]
    && SameElsewhere(s.workspaces, s'.workspaces, claim.root) && claim.root !in s'.workspaces
    && s'.deletions[claim.id].deletedFiles == if count > 0 then count else |Stored(s.snapshots, claim.root)|
  }

  lemma CurrentDeletionCleansUp(s: State, t: Token)
    requires Holds(StoredFiles, s) && Acting(s, t) && t in s.deletes && s.deletes[t].stage.ReceiptRead?
    requires D.Current(s.deletions, s.deletes[t].claim, s.now)
    ensures CleansUp(s, t, FinishDeletion(s, t))
  {
    WithoutFilesEmpties(s.snapshots, s.workspaces, s.deletes[t].claim.root);
  }

  /** It commits with the success marker, leaves nothing of the root behind, touches no other root, and reports
      upstream's count, or the relay's own if that is zero. */
  lemma CleanupIsComplete(s: State, t: Token)
    requires Reachable(s) && Acting(s, t) && t in s.deletes && s.deletes[t].stage.ReceiptRead?
    requires D.Current(s.deletions, s.deletes[t].claim, s.now)
    ensures CleansUp(s, t, FinishDeletion(s, t))
  {
    Invariants(s);
    Given(StoredFiles, s);
    CurrentDeletionCleansUp(s, t);
  }

  /** Once a deletion is cleaned up, no attempt at it is current in any later state, at any time. */
  lemma CleanedIsNeverCurrentAgain(states: seq<State>, actions: seq<Action>, m: nat, n: nat, claim: D.Claim, now: Time)
    requires IsRun(states, actions) && m <= n <= |actions| && claim.id in states[m].cleaned
    ensures !D.Current(states[n].deletions, claim, now)
  {
    RunGrows(states, actions, m, n);
    RunKeepsInvariants(states, actions, n);
    Given(Duties, states[n]);
    Durable.Keeps(Cleanup, BookOf(states[n]));
  }

  /** Jobs, stored snapshot and workspace of `root` are the same. */
  ghost predicate SameOn(s: State, s': State, root: Root) {
    && (forall j | j in s.jobs && s.jobs[j].root == root :: j in s'.jobs && s'.jobs[j] == s.jobs[j])
    && (forall j | j in s'.jobs && s'.jobs[j].root == root :: j in s.jobs && s.jobs[j].root == root)
    && Stored(s'.snapshots, root) == Stored(s.snapshots, root)
    && (root in s'.workspaces <==> root in s.workspaces) && (root in s.workspaces ==> s'.workspaces[root] == s.workspaces[root])
  }

  lemma CleanupTouchesOneRoot(s: State, t: Token, root: Root)
    requires Acting(s, t) && t in s.deletes && s.deletes[t].stage.ReceiptRead?
    requires D.Current(s.deletions, s.deletes[t].claim, s.now) && s.deletes[t].claim.root != root
    ensures SameOn(s, FinishDeletion(s, t), root)
  {
    var claim, s' := s.deletes[t].claim, FinishDeletion(s, t);
    assert s'.jobs == WithoutRoot(s.jobs, claim.root) && s'.workspaces == s.workspaces - {claim.root};
    assert s'.snapshots == WithoutFiles(s.snapshots, s.workspaces, claim.root);
  }

  lemma StaleCleanupTouchesNothing(s: State, t: Token)
    requires Acting(s, t) && t in s.deletes && s.deletes[t].stage.ReceiptRead? && !D.Current(s.deletions, s.deletes[t].claim, s.now)
    ensures FinishDeletion(s, t) == s.(deletes := s.deletes - {t})
  {
  }

  lemma CleanupTouchesOnlyActiveRoot(s: State, t: Token, root: Root)
    requires Safe(s) && Agreed(s) && Acting(s, t) && t in s.deletes && s.deletes[t].stage.ReceiptRead? && !DeletionOn(s.deletions, root)
    ensures SameOn(s, FinishDeletion(s, t), root)
  {
    if D.Current(s.deletions, s.deletes[t].claim, s.now) {
      ReceiptHolder(s, t);
      CleanupTouchesOneRoot(s, t, root);
    } else {
      StaleCleanupTouchesNothing(s, t);
    }
  }

  ghost predicate Untouched(s: State, s': State) {
    s' == s'.(jobs := s.jobs, snapshots := s.snapshots, workspaces := s.workspaces)
  }

  lemma OtherDeletionStepsTouchNoRoot(s: State, a: DeletionAction)
    requires !a.FinishDeletionA?
    ensures Untouched(s, DoDeletion(s, a))
  {
  }

  /** No action of any deletion worker, stale, replayed or recovered, touches a root without an active deletion row. */
  lemma DeletionTouchesOnlyActiveRoot(s: State, a: DeletionAction, root: Root)
    requires Reachable(s) && !DeletionOn(s.deletions, root)
    ensures SameOn(s, DoDeletion(s, a), root)
  {
    Invariants(s);
    if a.FinishDeletionA? && DeletionEnabled(s, a) {
      CleanupTouchesOnlyActiveRoot(s, a.t, root);
    } else if !a.FinishDeletionA? {
      OtherDeletionStepsTouchNoRoot(s, a);
    }
  }

  /** At most five unrefunded attempts since the last recovery, and a flagged row is unclaimed but still running. */
  lemma DeletionBudgetHolds(s: State, id: string)
    requires Reachable(s) && id in s.deletions && D.Active(s.deletions[id])
    ensures var ticket := s.deletions[id].ticket;
            && 0 <= ticket.attempts == ticket.dispatched - ticket.refunded <= 5
            && (ticket.recovery ==> s.deletions[id].status == D.Running && ticket.claimUntil.Some? && ticket.claimUntil.value <= s.now)
  {
    Invariants(s);
    Given(Duties, s);
    Durable.Keeps(DeletionBudget, BookOf(s));
  }

  /** No active deletion is lost: once its claim and its delay have passed it is flagged for recovery, due to be
      flagged by the next claim statement, or claimable. */
  lemma DeletionIsNeverLost(s: State, id: string, later: Time)
    requires Reachable(s) && id in s.deletions && D.Active(s.deletions[id]) && s.now <= later
    requires var ticket := s.deletions[id].ticket;
             ticket.nextAttempt <= later && (ticket.claimUntil.Some? ==> ticket.claimUntil.value < later)
    ensures s.deletions[id].ticket.recovery || D.Spent(s.deletions[id], later) || D.Claimable(s.deletions[id], later)
  {
    Invariants(s);
    Given(Duties, s);
    Durable.Keeps(DeletionBudget, BookOf(s));
    NeverLost(s.deletions[id].ticket, s.deletions[id].status == D.Running, s.now, later);
  }

  // ---- platform configuration -----------------------------------------------------------------------------------------

  /** The relay is emptied exactly once for every embedding change that succeeded, and never otherwise. */
  lemma ConfigClearsOnce(s: State)
    requires Reachable(s)
    ensures NoDuplicates(s.resets)
    ensures forall id :: id in s.resets <==> id in s.configs && s.configs[id].status == C.Succeeded && s.configs[id].embeddingChanged
  {
    Invariants(s);
    Given(Duties, s);
    Durable.Keeps(Reset, BookOf(s));
  }

  lemma OneActiveConfig(s: State, a: string, b: string)
    requires Reachable(s) && a in s.configs && b in s.configs && C.Active(s.configs[a]) && C.Active(s.configs[b])
    ensures a == b
  {
    Invariants(s);
    Given(Duties, s);
    Durable.Keeps(OneConfig, BookOf(s));
  }

  lemma ConfigBudgetHolds(s: State, id: string)
    requires Reachable(s) && id in s.configs && C.Active(s.configs[id])
    ensures var ticket := s.configs[id].ticket;
            && 0 <= ticket.attempts == ticket.dispatched - ticket.refunded <= 5
            && (ticket.recovery ==> s.configs[id].status == C.Running && ticket.claimUntil.Some? && ticket.claimUntil.value <= s.now)
  {
    Invariants(s);
    Given(Duties, s);
    Durable.Keeps(ConfigBudget, BookOf(s));
  }

  /** A settlement that empties the relay has a receipt for this operation that completes an embedding change, a current
      attempt, and a job that did not empty it before. */
  lemma OnlyCompletedEmbeddingChangeClears(s: State, claim: C.Claim, receipt: C.Receipt)
    requires Reachable(s) && claim in s.configClaims && SettleConfig(s, claim, receipt).resets != s.resets
    ensures receipt.operation == claim.id && receipt.outcome == C.SaysCompleted && receipt.embeddingChanged
    ensures C.Current(s.configs, claim, s.now) && s.configs[claim.id].embeddingChanged && claim.id !in s.resets
    ensures var s' := SettleConfig(s, claim, receipt);
            && claim.id in s'.configs && s'.configs[claim.id].status == C.Succeeded && s'.resets == s.resets + [claim.id]
            && s'.leases == map[] && s'.jobs == map[] && s'.snapshots == map[] && s'.workspaces == map[]
  {
    Invariants(s);
    Given(Duties, s);
    Durable.Keeps(Durable.ConfigClaims, BookOf(s));
    ConfigClearsOnce(s);
  }

  /** Once a change has emptied the relay, no attempt at it settles in any later state, whatever receipt it brings. */
  lemma ResetIsNeverSettledAgain(states: seq<State>, actions: seq<Action>, m: nat, n: nat, claim: C.Claim, receipt: C.Receipt, now: Time)
    requires IsRun(states, actions) && m <= n <= |actions| && claim.id in states[m].resets
    ensures !C.Settles(states[n].configs, claim, receipt, now)
  {
    RunGrows(states, actions, m, n);
    RunKeepsInvariants(states, actions, n);
    Given(Duties, states[n]);
    Durable.Keeps(Reset, BookOf(states[n]));
  }
}
