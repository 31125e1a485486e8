/** What upstream does keeps the relay and the upstream engine linked. */
module UpstreamMoves {
  import opened RelayTypes
  import opened Manifest
  import opened IndexJobs
  import opened Upstream
  import opened ControlPlane
  import opened Safety
  import opened Agreement
  import D = RootDeletion

  /** Terminal job states are absorbing. */
  ghost predicate TerminalKept(before: Cloud, after: Cloud) {
    forall j | IsTerminal(before, j) :: j in after.jobs && after.jobs[j].state == before.jobs[j].state
  }

  lemma TerminalKeepsOutcomes(jobs: Jobs, publishers: map<Token, PublishOp>, before: Cloud, after: Cloud)
    requires TerminalKept(before, after) && OutcomesTrue(jobs, before) && RepliesTrue(publishers, before)
    ensures OutcomesTrue(jobs, after) && RepliesTrue(publishers, after)
  {
  }

  lemma TerminalKeepsRevisions(jobs: Jobs, revisions: map<JobId, int>, before: Cloud, after: Cloud)
    requires TerminalKept(before, after) && RevisionsFixed(jobs, revisions, before)
    ensures RevisionsFixed(jobs, revisions, after)
  {
  }

  lemma TerminalKeepsEndings(jobs: Jobs, before: Cloud, after: Cloud, sent: set<Message>, d: Doubts)
    requires TerminalKept(before, after) && SentEnded(jobs, before, sent, d)
    ensures SentEnded(jobs, after, sent, d)
  {
  }

  ghost predicate ReceiptsKept(before: Cloud, after: Cloud) {
    forall id | id in before.receipts :: id in after.receipts && after.receipts[id] == before.receipts[id]
  }

  lemma ReceiptsKeepClaims(s: State, cloud: Cloud)
    requires Agreed(s) && ReceiptsKept(s.cloud, cloud)
    ensures ClaimsAuthorised(s.claims, s.deletions, cloud) && ClearsAuthorised(s.sent, s.deletions, cloud)
    ensures DeletesClaimed(s.deletes, s.claims, cloud)
  {
    Gives(DeletionCopies, s);
    Gives(Clears, s);
    Gives(Deletes, s);
    forall c | c in s.claims ensures Authorised(c.id, c.root, s.deletions, cloud) {
      assert Authorised(c.id, c.root, s.deletions, s.cloud);
    }
    forall m | m in s.sent && m.Clear? ensures Authorised(m.operation, m.target, s.deletions, cloud) {
      assert Authorised(m.operation, m.target, s.deletions, s.cloud);
    }
  }

  ghost predicate CloudFits(jobs: Jobs, cloud: Cloud, sent: set<Message>, d: Doubts) {
    CloudMatches(jobs, cloud, d) && StagingMirrors(jobs, cloud) && SubmittedWereSent(cloud, sent)
  }

  lemma GivesCloudFits(s: State)
    requires Agreed(s)
    ensures CloudFits(s.jobs, s.cloud, s.sent, s.doubts)
  {
    Gives(CloudRoots, s);
    Gives(Staging, s);
    Gives(Submissions, s);
  }

  /** What content requires: the roots that have not parted are in step, and the others are suspect. */
  ghost predicate ContentsFit(s: State, cloud: Cloud, parted: set<Root>) {
    && RootsInStep(s.jobs, s.snapshots, s.deletions, cloud, parted)
    && PartedAreSuspect(s.doubts.(parted := parted), cloud, s.sent)
  }

  lemma GivesContentsFit(s: State)
    requires Agreed(s) && s.resets == []
    ensures ContentsFit(s, s.cloud, s.doubts.parted)
  {
    Gives(Contents, s);
    Gives(Suspicions, s);
  }

  /** The links that terminal states alone decide. */
  ghost predicate TerminalFits(s: State, cloud: Cloud) {
    && OutcomesTrue(s.jobs, cloud) && RepliesTrue(s.publishers, cloud) && RevisionsFixed(s.jobs, s.revisions, cloud)
    && (s.resets == [] ==> SentEnded(s.jobs, cloud, s.sent, s.doubts))
  }

  lemma TerminalKeepsFit(s: State, cloud: Cloud)
    requires Agreed(s) && TerminalKept(s.cloud, cloud)
    ensures TerminalFits(s, cloud)
  {
    Gives(Outcomes, s);
    Gives(Replies, s);
    TerminalKeepsOutcomes(s.jobs, s.publishers, s.cloud, cloud);
    Gives(Revisions, s);
    TerminalKeepsRevisions(s.jobs, s.revisions, s.cloud, cloud);
    if s.resets == [] {
      Gives(Endings, s);
      TerminalKeepsEndings(s.jobs, s.cloud, cloud, s.sent, s.doubts);
    }
  }

  lemma CloudKeepsAgreed(s: State, cloud: Cloud, parted: set<Root>)
    requires Agreed(s) && TerminalKept(s.cloud, cloud) && ReceiptsKept(s.cloud, cloud) && CloudFits(s.jobs, cloud, s.sent, s.doubts)
    requires s.resets == [] ==> ContentsFit(s, cloud, parted)
    ensures Agreed(s.(cloud := cloud, doubts := s.doubts.(parted := parted)))
  {
    TerminalKeepsFit(s, cloud);
    ReceiptsKeepClaims(s, cloud);
    var s' := s.(cloud := cloud, doubts := s.doubts.(parted := parted));
    forall c: Link ensures Linked(c, s') { Gives(c, s); }
  }

  // ---- events that leave the content of every root alone -------------------------------------------------------------

  ghost predicate QuietCloud(before: Cloud, after: Cloud) {
    && after.content == before.content && after.receipts == before.receipts
    && forall j :: PublishedIn(after, j) <==> PublishedIn(before, j)
  }

  lemma QuietKeepsContents(s: State, cloud: Cloud)
    requires ContentsFit(s, s.cloud, s.doubts.parted) && QuietCloud(s.cloud, cloud)
    ensures ContentsFit(s, cloud, s.doubts.parted)
  {
    forall root: Root | root !in s.doubts.parted ensures RootInStep(s.jobs, s.snapshots, s.deletions, cloud, root) {
      StillInStep(s.jobs, s.jobs, s.snapshots, s.snapshots, s.deletions, s.deletions, s.cloud, cloud, root);
    }
    forall root | root in s.doubts.parted ensures Suspect(s.doubts, cloud, s.sent, root) {
      SuspectStays(s.doubts, s.doubts, s.cloud, cloud, s.sent, s.sent, root);
    }
  }

  lemma QuietKeepsAgreed(s: State, cloud: Cloud)
    requires Agreed(s) && QuietCloud(s.cloud, cloud) && TerminalKept(s.cloud, cloud) && CloudFits(s.jobs, cloud, s.sent, s.doubts)
    ensures Agreed(s.(cloud := cloud))
  {
    if s.resets == [] {
      GivesContentsFit(s);
      QuietKeepsContents(s, cloud);
    }
    CloudKeepsAgreed(s, cloud, s.doubts.parted);
  }

  lemma BeginFits(jobs: Jobs, cloud: Cloud, sent: set<Message>, j: JobId, root: Root, full: bool, d: Doubts)
    requires CloudFits(jobs, cloud, sent, d) && BeginsMatch(jobs, sent, d) && Begin(j, root, full) in sent
    ensures CloudFits(jobs, Arrive(cloud, Begin(j, root, full)), sent, d)
  {
  }

  lemma BeginKeepsAgreed(s: State, j: JobId, root: Root, full: bool)
    requires Agreed(s) && Begin(j, root, full) in s.sent
    ensures Agreed(s.(cloud := Arrive(s.cloud, Begin(j, root, full))))
  {
    var cloud := Arrive(s.cloud, Begin(j, root, full));
    GivesCloudFits(s);
    Gives(Begins, s);
    BeginFits(s.jobs, s.cloud, s.sent, j, root, full, s.doubts);
    QuietKeepsAgreed(s, cloud);
  }

  lemma OverlayMirrors(job: Job, cloudJob: CloudJob, files: Snapshot, removed: set<Path>)
    requires Mirrors(job, cloudJob.staged, cloudJob.removed) && BatchFits(job, files, removed)
    ensures Mirrors(job, Overlay(cloudJob, files, removed).staged, Overlay(cloudJob, files, removed).removed)
  {
  }

  lemma StageKeepsAgreed(s: State, j: JobId, files: Snapshot, removed: set<Path>)
    requires Agreed(s) && Stage(j, files, removed) in s.sent
    ensures Agreed(s.(cloud := Arrive(s.cloud, Stage(j, files, removed))))
  {
    if j in s.cloud.jobs && s.cloud.jobs[j].state == Open {
      var cloud := Arrive(s.cloud, Stage(j, files, removed));
      GivesCloudFits(s);
      Gives(Stages, s);
      forall i | RunningJob(s.jobs, i) ensures Mirrors(s.jobs[i], StagedAt(cloud, i), RemovedAt(cloud, i)) {
        if i == j {
          assert BatchFits(s.jobs[j], files, removed);
          OverlayMirrors(s.jobs[j], s.cloud.jobs[j], files, removed);
        }
      }
      QuietKeepsAgreed(s, cloud);
    }
  }

  function WithState(cloud: Cloud, j: JobId, state: CloudState): Cloud
    requires j in cloud.jobs
  {
    cloud.(jobs := cloud.jobs[j := cloud.jobs[j].(state := state)])
  }

  lemma StateFits(jobs: Jobs, cloud: Cloud, sent: set<Message>, j: JobId, state: CloudState, d: Doubts)
    requires CloudFits(jobs, cloud, sent, d) && j in cloud.jobs && (state.Submitted? || state.Published? ==> Publish(j) in sent)
    ensures CloudFits(jobs, WithState(cloud, j, state), sent, d)
  {
  }

  /** Submission, cancellation or loss of an upstream job that has no outcome yet. */
  lemma StateKeepsAgreed(s: State, j: JobId, state: CloudState)
    requires Agreed(s) && j in s.cloud.jobs && !Terminal(s.cloud.jobs[j].state)
    requires state.Unpublished? || (state.Submitted? && Publish(j) in s.sent)
    ensures Agreed(s.(cloud := WithState(s.cloud, j, state)))
  {
    GivesCloudFits(s);
    StateFits(s.jobs, s.cloud, s.sent, j, state, s.doubts);
    QuietKeepsAgreed(s, WithState(s.cloud, j, state));
  }

  // ---- events that change the content of a root -------------------------------------------------------------------------

  /** Nothing but the content of `root`, the jobs on it and the receipts of its deletions differs. */
  ghost predicate OnlyOn(s: State, cloud: Cloud, root: Root) {
    && (forall r: Root | r != root :: Content(cloud, r) == Content(s.cloud, r))
    && (forall j | PublishingJob(s.jobs, j) && s.jobs[j].root != root :: PublishedIn(cloud, j) <==> PublishedIn(s.cloud, j))
    && (forall id | id in s.deletions && s.deletions[id].root != root && id in cloud.receipts :: id in s.cloud.receipts)
  }

  lemma OtherRootsStayInStep(s: State, cloud: Cloud, root: Root, r: Root)
    requires OnlyOn(s, cloud, root) && r != root && RootInStep(s.jobs, s.snapshots, s.deletions, s.cloud, r)
    ensures RootInStep(s.jobs, s.snapshots, s.deletions, cloud, r)
  {
    StillInStep(s.jobs, s.jobs, s.snapshots, s.snapshots, s.deletions, s.deletions, s.cloud, cloud, r);
  }

  /** The root is in step afterwards or has parted, and has a reason if it has parted only now. */
  lemma LocalKeepsContents(s: State, cloud: Cloud, parted: set<Root>, root: Root)
    requires ContentsFit(s, s.cloud, s.doubts.parted) && OnlyOn(s, cloud, root) && TerminalKept(s.cloud, cloud)
    requires s.doubts.parted - {root} <= parted <= s.doubts.parted + {root}
    requires root in parted || RootInStep(s.jobs, s.snapshots, s.deletions, cloud, root)
    requires root in parted ==> root in s.doubts.parted || Suspect(s.doubts, cloud, s.sent, root)
    ensures ContentsFit(s, cloud, parted)
  {
    forall r: Root | r !in parted ensures RootInStep(s.jobs, s.snapshots, s.deletions, cloud, r) {
      if r != root { OtherRootsStayInStep(s, cloud, root, r); }
    }
    forall r | r in parted ensures Suspect(s.doubts.(parted := parted), cloud, s.sent, r) {
      if r in s.doubts.parted {
        SuspectStays(s.doubts, s.doubts.(parted := parted), s.cloud, cloud, s.sent, s.sent, r);
      } else {
        SuspectStays(s.doubts, s.doubts.(parted := parted), cloud, cloud, s.sent, s.sent, r);
      }
    }
  }

  /** Whether new content fits can be told before it is there. */
  lemma InStepIff(s: State, cloud: Cloud, root: Root)
    requires forall j :: AwaitsSnapshot(s.jobs, cloud, root, j) <==> AwaitsSnapshot(s.jobs, s.cloud, root, j)
    requires ClearedOn(s.deletions, cloud, root) <==> ClearedOn(s.deletions, s.cloud, root)
    ensures RootInStep(s.jobs, s.snapshots, s.deletions, cloud, root) <==> !Misfits(s, root, Content(cloud, root))
  {
    if PublishedOn(s.jobs, s.cloud, root) {
      var j :| j in s.jobs && AwaitsSnapshot(s.jobs, s.cloud, root, j);
      assert AwaitsSnapshot(s.jobs, cloud, root, j);
    }
    if PublishedOn(s.jobs, cloud, root) {
      var j :| j in s.jobs && AwaitsSnapshot(s.jobs, cloud, root, j);
      assert AwaitsSnapshot(s.jobs, s.cloud, root, j);
    }
  }

  /** A deletion that is active on a root has no handed-off job beside it. */
  lemma ActiveDeletionExcludesHandoff(s: State, id: string)
    requires Safe(s) && id in s.deletions && D.Active(s.deletions[id])
    ensures forall j | PublishingJob(s.jobs, j) :: s.jobs[j].root != s.deletions[id].root
  {
    Given(FencedJobs, s);
    assert D.ActiveIn(s.deletions, s.deletions[id].root.tenant, id);
  }

  lemma HandoffExcludesDeletion(s: State, j: JobId)
    requires Safe(s) && PublishingJob(s.jobs, j)
    ensures !DeletionOn(s.deletions, s.jobs[j].root)
  {
    forall id | id in s.deletions && D.Active(s.deletions[id]) ensures s.deletions[id].root != s.jobs[j].root {
      ActiveDeletionExcludesHandoff(s, id);
    }
  }

  // ---- a deletion's clear, and a dismissal's ------------------------------------------------------------------------------

  /** A clear that takes effect brings its root back in step. */
  lemma ClearedRootInStep(s: State, id: string, root: Root)
    requires Safe(s) && id in s.deletions && D.Active(s.deletions[id]) && s.deletions[id].root == root && id !in s.cloud.receipts
    ensures RootInStep(s.jobs, s.snapshots, s.deletions, Arrive(s.cloud, Clear(id, root)), root)
  {
    ActiveDeletionExcludesHandoff(s, id);
    assert DeletionOn(s.deletions, root);
  }

  lemma EffectiveClearKeepsContents(s: State, id: string, root: Root)
    requires Safe(s) && Agreed(s) && s.resets == [] && id !in s.cloud.receipts
    requires id in s.deletions && D.Active(s.deletions[id]) && s.deletions[id].root == root
    ensures ContentsFit(s, Arrive(s.cloud, Clear(id, root)), s.doubts.parted - {root})
  {
    GivesContentsFit(s);
    ClearedRootInStep(s, id, root);
    LocalKeepsContents(s, Arrive(s.cloud, Clear(id, root)), s.doubts.parted - {root}, root);
  }

  lemma EffectiveClearKeepsAgreed(s: State, id: string, root: Root)
    requires Safe(s) && Agreed(s) && Clear(id, root) in s.sent && id !in s.cloud.receipts
    ensures Agreed(s.(cloud := Arrive(s.cloud, Clear(id, root)), doubts := s.doubts.(parted := s.doubts.parted - {root})))
  {
    var cloud := Arrive(s.cloud, Clear(id, root));
    Gives(Clears, s);
    assert Authorised(id, root, s.deletions, s.cloud);
    GivesCloudFits(s);
    if s.resets == [] { EffectiveClearKeepsContents(s, id, root); }
    CloudKeepsAgreed(s, cloud, s.doubts.parted - {root});
  }

  lemma ClearKeepsAgreed(s: State, id: string, root: Root)
    requires Safe(s) && Agreed(s) && Clear(id, root) in s.sent
    ensures Agreed(DoCloud(s, ArriveA(Clear(id, root))))
  {
    if id !in s.cloud.receipts {
      EffectiveClearKeepsAgreed(s, id, root);
    }
  }

  /** The clear of a dismissal leaves its root in step exactly if nothing fits there. */
  lemma WipedRootInStepIff(s: State, t: Token, root: Root)
    ensures RootInStep(s.jobs, s.snapshots, s.deletions, Arrive(s.cloud, Wipe(t, root)), root) <==> !Misfits(s, root, map[])
  {
    InStepIff(s, Arrive(s.cloud, Wipe(t, root)), root);
  }

  lemma WipeKeepsAgreed(s: State, t: Token, root: Root)
    requires Agreed(s) && Wipe(t, root) in s.sent
    ensures Agreed(DoCloud(s, ArriveA(Wipe(t, root))))
  {
    var cloud, parted := Arrive(s.cloud, Wipe(t, root)), Judged(s.doubts.parted, root, Misfits(s, root, map[]));
    GivesCloudFits(s);
    if s.resets == [] {
      GivesContentsFit(s);
      WipedRootInStepIff(s, t, root);
      LocalKeepsContents(s, cloud, parted, root);
    }
    CloudKeepsAgreed(s, cloud, parted);
  }

  // ---- publication of a handed-off job ---------------------------------------------------------------------------------------

  lemma AllNeededStaged(job: Job, stored: Snapshot, hasWorkspace: bool)
    requires JobShape(job, stored, hasWorkspace) && FullyStaged(job)
    ensures Staged(job.files) == Needed(job.files)
    ensures job.announced != {} ==> job.deletionsSent
  {
    assert Has(Progress, job, stored, hasWorkspace);
    assert Needed(job.files) == Staged(job.files) + (Needed(job.files) - Staged(job.files));
  }

  /** What upstream publishes for a fully staged job is its manifest. */
  lemma PublishedIsManifest(job: Job, cloudJob: CloudJob, stored: Snapshot, hasWorkspace: bool)
    requires JobShape(job, stored, hasWorkspace) && FullyStaged(job) && StagedFits(job, cloudJob.staged, cloudJob.removed)
    requires cloudJob.full == job.full && (!hasWorkspace ==> stored == map[])
    ensures PublishedContent(stored, cloudJob) == Entries(job.files)
  {
    var manifest := Entries(job.files);
    AllNeededStaged(job, stored, hasWorkspace);
    assert Has(DiffOfSnapshot, job, stored, hasWorkspace) && Has(Lifecycle, job, stored, hasWorkspace);
    assert cloudJob.staged == map p | p in Pending(stored, manifest) :: manifest[p] by {
      forall p ensures p in cloudJob.staged <==> p in Needed(job.files) {
        if p in Needed(job.files) { assert p in Staged(job.files); }
      }
    }
    assert cloudJob.removed == Deleted(stored, manifest);
    PatchReproducesManifest(stored, manifest);
  }

  /** Before a publication takes effect, upstream still has the stored snapshot of that root. */
  lemma BaseIsStored(s: State, j: JobId)
    requires Safe(s) && Agreed(s) && s.resets == [] && PublishingJob(s.jobs, j) && !PublishedIn(s.cloud, j) && s.jobs[j].root !in s.doubts.parted
    ensures Content(s.cloud, s.jobs[j].root) == Stored(s.snapshots, s.jobs[j].root)
  {
    Gives(Contents, s);
    Given(RunningJobs, s);
    HandoffExcludesDeletion(s, j);
    UnpublishedIsStored(s.jobs, s.cloud, s.snapshots, s.deletions, j);
  }

  /** What a job with its file rows publishes on the base it was compared with, or on any base if it replaces the root. */
  lemma PublishesManifest(s: State, j: JobId)
    requires Safe(s) && Agreed(s) && PublishingJob(s.jobs, j) && j in s.cloud.jobs && !s.jobs[j].lost
    requires s.jobs[j].full || Content(s.cloud, s.jobs[j].root) == Stored(s.snapshots, s.jobs[j].root)
    ensures ContentAfter(s.cloud, j) == ManifestOf(s.jobs[j])
  {
    var job := s.jobs[j];
    JobFacts(s, j);
    assert Has(Lifecycle, job, Stored(s.snapshots, job.root), job.root in s.workspaces);
    Given(StoredFiles, s);
    GivesCloudFits(s);
    assert Mirrors(job, StagedAt(s.cloud, j), RemovedAt(s.cloud, j));
    PublishedIsManifest(job, s.cloud.jobs[j], Stored(s.snapshots, job.root), job.root in s.workspaces);
  }

  lemma PublicationFits(s: State, j: JobId)
    requires Safe(s) && Agreed(s) && PublishingJob(s.jobs, j) && j in s.cloud.jobs && s.cloud.jobs[j].state == Submitted
    ensures s.cloud.jobs[j].root == s.jobs[j].root
    ensures !s.jobs[j].lost && (s.jobs[j].full || (s.resets == [] && s.jobs[j].root !in s.doubts.parted)) ==>
              ContentAfter(s.cloud, j) == ManifestOf(s.jobs[j])
  {
    Gives(CloudRoots, s);
    if !s.jobs[j].lost && (s.jobs[j].full || (s.resets == [] && s.jobs[j].root !in s.doubts.parted)) {
      if !s.jobs[j].full { BaseIsStored(s, j); }
      PublishesManifest(s, j);
    }
  }

  lemma SubmittedIsHandedOff(s: State, j: JobId)
    requires Agreed(s) && s.resets == [] && j in s.cloud.jobs && s.cloud.jobs[j].state == Submitted
    ensures PublishingJob(s.jobs, j) || j in s.doubts.usurped
  {
    Gives(Submissions, s);
    Gives(Endings, s);
    assert Publish(j) in s.sent;
  }

  /** A handed-off job is published: the root is in step exactly if the content is what the job will store. */
  lemma PublishedRootInStepIff(s: State, j: JobId, revision: nat)
    requires Safe(s) && Agreed(s) && PublishingJob(s.jobs, j) && j in s.cloud.jobs
    ensures RootInStep(s.jobs, s.snapshots, s.deletions, PublicationSucceeded(s.cloud, j, revision), s.jobs[j].root) <==>
              ContentAfter(s.cloud, j) == ManifestOf(s.jobs[j])
  {
    var cloud, root := PublicationSucceeded(s.cloud, j, revision), s.jobs[j].root;
    Gives(CloudRoots, s);
    Given(RunningJobs, s);
    HandoffExcludesDeletion(s, j);
    assert AwaitsSnapshot(s.jobs, cloud, root, j);
    forall i | AwaitsSnapshot(s.jobs, cloud, root, i) ensures i == j {}
  }

  lemma PublicationIsOnlyOn(s: State, j: JobId, revision: nat)
    requires j in s.cloud.jobs && (PublishingJob(s.jobs, j) ==> s.jobs[j].root == s.cloud.jobs[j].root)
    ensures OnlyOn(s, PublicationSucceeded(s.cloud, j, revision), s.cloud.jobs[j].root)
  {
  }

  lemma LostJobIsSuspect(s: State, j: JobId, revision: nat)
    requires Agreed(s) && PublishingJob(s.jobs, j) && s.jobs[j].lost && j in s.cloud.jobs
    ensures Suspect(s.doubts, PublicationSucceeded(s.cloud, j, revision), s.sent, s.jobs[j].root)
  {
    Gives(Losses, s);
    assert s.doubts.stripped[j] == s.jobs[j].root && PublishedIn(PublicationSucceeded(s.cloud, j, revision), j);
  }

  lemma HandedOffKeepsContents(s: State, j: JobId, revision: nat)
    requires Safe(s) && Agreed(s) && s.resets == [] && j in s.cloud.jobs && s.cloud.jobs[j].state == Submitted && PublishingJob(s.jobs, j)
    ensures ContentsFit(s, PublicationSucceeded(s.cloud, j, revision), PartedByPublication(s, j))
  {
    var root := s.jobs[j].root;
    PublicationFits(s, j);
    if s.jobs[j].lost { LostJobIsSuspect(s, j, revision); }
    GivesContentsFit(s);
    PublishedRootInStepIff(s, j, revision);
    PublicationIsOnlyOn(s, j, revision);
    LocalKeepsContents(s, PublicationSucceeded(s.cloud, j, revision), PartedByPublication(s, j), root);
  }

  // ---- publication of a job that failed to begin after its handoff ----------------------------------------------------------------

  lemma OvertakenRootInStepIff(s: State, j: JobId, revision: nat)
    requires j in s.cloud.jobs && !PublishingJob(s.jobs, j)
    ensures RootInStep(s.jobs, s.snapshots, s.deletions, PublicationSucceeded(s.cloud, j, revision), s.cloud.jobs[j].root) <==>
              !Misfits(s, s.cloud.jobs[j].root, ContentAfter(s.cloud, j))
  {
    InStepIff(s, PublicationSucceeded(s.cloud, j, revision), s.cloud.jobs[j].root);
  }

  lemma UsurpedJobIsSuspect(s: State, j: JobId, revision: nat)
    requires Agreed(s) && j in s.doubts.usurped && j in s.cloud.jobs
    ensures Suspect(s.doubts, PublicationSucceeded(s.cloud, j, revision), s.sent, s.cloud.jobs[j].root)
  {
    Gives(CloudRoots, s);
    assert s.doubts.usurped[j] == s.cloud.jobs[j].root && PublishedIn(PublicationSucceeded(s.cloud, j, revision), j);
  }

  lemma UsurpedKeepsContents(s: State, j: JobId, revision: nat)
    requires Agreed(s) && s.resets == [] && j in s.cloud.jobs && s.cloud.jobs[j].state == Submitted && j in s.doubts.usurped && !PublishingJob(s.jobs, j)
    ensures ContentsFit(s, PublicationSucceeded(s.cloud, j, revision), PartedByPublication(s, j))
  {
    GivesContentsFit(s);
    UsurpedJobIsSuspect(s, j, revision);
    OvertakenRootInStepIff(s, j, revision);
    PublicationIsOnlyOn(s, j, revision);
    LocalKeepsContents(s, PublicationSucceeded(s.cloud, j, revision), PartedByPublication(s, j), s.cloud.jobs[j].root);
  }

  lemma PublicationKeepsContents(s: State, j: JobId, revision: nat)
    requires Safe(s) && Agreed(s) && s.resets == [] && j in s.cloud.jobs && s.cloud.jobs[j].state == Submitted
    ensures ContentsFit(s, PublicationSucceeded(s.cloud, j, revision), PartedByPublication(s, j))
  {
    SubmittedIsHandedOff(s, j);
    if PublishingJob(s.jobs, j) {
      HandedOffKeepsContents(s, j, revision);
    } else {
      UsurpedKeepsContents(s, j, revision);
    }
  }

  lemma PublicationMoves(s: State, j: JobId, revision: nat)
    requires j in s.cloud.jobs && s.cloud.jobs[j].state == Submitted
    ensures DoCloud(s, PublicationSucceedsA(j, revision)) ==
              s.(cloud := PublicationSucceeded(s.cloud, j, revision), doubts := s.doubts.(parted := PartedByPublication(s, j)))
  {
  }

  lemma PublicationKeepsAgreed(s: State, j: JobId, revision: nat)
    requires Safe(s) && Agreed(s) && j in s.cloud.jobs && s.cloud.jobs[j].state == Submitted
    ensures Agreed(DoCloud(s, PublicationSucceedsA(j, revision)))
  {
    GivesCloudFits(s);
    StateFits(s.jobs, s.cloud, s.sent, j, Published(revision), s.doubts);
    if s.resets == [] { PublicationKeepsContents(s, j, revision); }
    CloudKeepsAgreed(s, PublicationSucceeded(s.cloud, j, revision), PartedByPublication(s, j));
    PublicationMoves(s, j, revision);
  }

  // ---- all events ----------------------------------------------------------------------------------------------------------------------

  lemma ArrivalKeepsAgreed(s: State, m: Message)
    requires Safe(s) && Agreed(s) && m in s.sent && !m.Wipe? && !m.Clear?
    ensures Agreed(s.(cloud := Arrive(s.cloud, m)))
  {
    match m
    case Begin(j, root, full) => BeginKeepsAgreed(s, j, root, full);
    case Stage(j, files, removed) => StageKeepsAgreed(s, j, files, removed);
    case Publish(j) => if j in s.cloud.jobs && s.cloud.jobs[j].state == Open { StateKeepsAgreed(s, j, Submitted); }
    case Abort(j) => if j in s.cloud.jobs && !Terminal(s.cloud.jobs[j].state) { StateKeepsAgreed(s, j, Unpublished); }
  }

  lemma CloudStepKeepsAgreed(s: State, a: CloudAction)
    requires Safe(s) && Agreed(s)
    ensures Agreed(DoCloud(s, a))
  {
    if CloudEnabled(s, a) {
      match a
      case ArriveA(m) =>
        if m.Wipe? {
          WipeKeepsAgreed(s, m.call, m.target);
        } else if m.Clear? {
          ClearKeepsAgreed(s, m.operation, m.target);
        } else {
          ArrivalKeepsAgreed(s, m);
        }
      case PublicationSucceedsA(j, revision) => PublicationKeepsAgreed(s, j, revision);
      case UpstreamDropsA(j) => StateKeepsAgreed(s, j, Unpublished);
    }
  }
}
