/** Runs that leave a fence or part relay and upstream: why the theorems except revived leases, recorded begin failures
    and late dismissal clears. */
module Runs {
  import opened RelayTypes
  import opened Leases
  import opened IndexJobs
  import opened Upstream
  import opened ControlPlane
  import opened Progress
  import T = Theorems
  import D = RootDeletion

  lemma InitiallyFree(now: Time, root: Root, manifest: Snapshot)
    ensures Free(Initial(now), root.tenant) && !RunningOn(Initial(now).jobs, root) && !UpToDate(Initial(now), root, manifest)
  {
  }

  lemma InitiallyFresh(now: Time, j: JobId)
    ensures FreshJob(Initial(now), j) && forall t: Token :: FreshToken(Initial(now), t)
  {
  }

  /** Time passes until the lease of `t` has expired. */
  lemma LeaseExpires(s: State, t: Token, tenant: Tenant) returns (s': State)
    requires Reachable(s) && Alone(s, t, tenant)
    ensures Reachable(s') && Free(s', tenant) && s' == s.(now := s'.now)
  {
    var elapsed := s.leases[t].expires - s.now;
    LeaseReaches(s, TickA(elapsed));
    s' := s.(now := s.now + elapsed);
  }

  // ---- a begin failure that is recorded late ------------------------------------------------------------

  lemma AbortedAt(s: State, t: Token, root: Root, j: JobId)
    requires Creating(s, t, root, Begun(j))
    ensures Creating(AbortBegun(s, t), t, root, Aborted(j)) && Calm(s, AbortBegun(s, t), {t}, j)
  {
    var s' := AbortBegun(s, t);
    forall u | FreshToken(s, u) && u != t ensures FreshToken(s', u) {}
  }

  lemma AbortIsPossible(s: State, t: Token, root: Root, j: JobId) returns (s': State)
    requires Reachable(s) && Creating(s, t, root, Begun(j))
    ensures Reachable(s') && Creating(s', t, root, Aborted(j)) && Calm(s, s', {t}, j)
    ensures s'.jobs == s.jobs && s'.cloud == s.cloud && s'.snapshots == s.snapshots && s'.doubts == s.doubts
  {
    AbortedAt(s, t, root, j);
    UploadReaches(s, AbortBegunA(t));
    s' := AbortBegun(s, t);
  }

  /** A start whose begin call failed, and whose lease has expired since. */
  ghost predicate Stuck(s: State, t: Token, root: Root, j: JobId) {
    t in s.creates && s.creates[t] == CreateOp(root, Aborted(j)) && Free(s, root.tenant)
  }

  /** No new doubts. */
  predicate Subdued(d: Doubts, d': Doubts) {
    d' == d.(parted := d'.parted) && d'.parted <= d.parted
  }

  lemma StartGetsStuck(s: State, t: Token, root: Root, j: JobId, manifest: Snapshot) returns (s': State)
    requires Reachable(s) && FreshToken(s, t) && Free(s, root.tenant) && FreshJob(s, j)
    requires !RunningOn(s.jobs, root) && !UpToDate(s, root, manifest)
    ensures Reachable(s') && Stuck(s', t, root, j) && Begin(j, root, root !in s.workspaces) in s'.sent && s'.cloud == s.cloud
    ensures j in s'.jobs && s'.jobs[j] == NewJob(root, root !in s.workspaces, Stored(s.snapshots, root), manifest, s.now)
    ensures s'.resets == s.resets && s'.late == s.late && s'.snapshots == s.snapshots && Subdued(s.doubts, s'.doubts)
    ensures forall u | FreshToken(s, u) && u != t :: FreshToken(s', u)
  {
    var s1 := JobCanStart(s, t, root, j, manifest);
    var s2 := AbortIsPossible(s1, t, root, j);
    CalmThrough(s, s1, s2, {t}, {t}, j);
    s' := LeaseExpires(s2, t, root.tenant);
    forall u | FreshToken(s, u) && u != t ensures FreshToken(s', u) { assert FreshToken(s2, u); }
  }

  lemma StuckThrough(s: State, s': State, used: set<Token>, t: Token, root: Root, j: JobId)
    requires t in s.creates && s.creates[t] == CreateOp(root, Aborted(j)) && Calm(s, s', used, j) && t !in used
    ensures t in s'.creates && s'.creates[t] == CreateOp(root, Aborted(j))
  {
  }

  /** Its begin call arrives after all. */
  lemma StuckJobIsOpened(s: State, t: Token, root: Root, j: JobId, full: bool) returns (s': State)
    requires Reachable(s) && Stuck(s, t, root, j) && Begin(j, root, full) in s.sent && j !in s.cloud.jobs
    ensures Reachable(s') && Stuck(s', t, root, j) && Calm(s, s', {}, j) && s'.jobs == s.jobs && s'.snapshots == s.snapshots && s'.doubts == s.doubts
    ensures j in s'.cloud.jobs && s'.cloud.jobs[j].state == Open
  {
    s' := BeginCanArrive(s, j, root, full);
    StuckThrough(s, s', {}, t, root, j);
  }

  lemma StartGetsStuckAndOpened(s: State, t: Token, u: Token, v: Token, root: Root, j: JobId, manifest: Snapshot) returns (s': State)
    requires Reachable(s) && FreshToken(s, t) && FreshToken(s, u) && FreshToken(s, v) && t != u && t != v
    requires Free(s, root.tenant) && FreshJob(s, j) && !RunningOn(s.jobs, root) && !UpToDate(s, root, manifest)
    ensures Reachable(s') && Stuck(s', t, root, j) && FreshToken(s', u) && FreshToken(s', v) && s'.resets == s.resets && s'.late == s.late
    ensures s'.snapshots == s.snapshots && Subdued(s.doubts, s'.doubts)
    ensures j in s'.jobs && s'.jobs[j] == NewJob(root, root !in s.workspaces, Stored(s.snapshots, root), manifest, s.now)
    ensures j in s'.cloud.jobs && s'.cloud.jobs[j].state == Open
  {
    var s1 := StartGetsStuck(s, t, root, j, manifest);
    s' := StuckJobIsOpened(s1, t, root, j, root !in s.workspaces);
  }

  /** Others go on with the job: its files are uploaded. */
  lemma StuckJobIsStaged(s: State, t: Token, u: Token, root: Root, j: JobId) returns (s': State)
    requires Reachable(s) && Stuck(s, t, root, j) && t != u && FreshToken(s, u) && j in s.cloud.jobs && s.cloud.jobs[j].state == Open
    requires RunningJob(s.jobs, j) && s.jobs[j].root == root && s.jobs[j].phase != IndexJobs.Publishing && !s.jobs[j].lost
    requires FullyStaged(s.jobs[j]) || Remaining(s.jobs[j]) != map[] || s.jobs[j].deletedCount != 0
    ensures Reachable(s') && Stuck(s', t, root, j) && Calm(s, s', {u}, j) && j in s'.cloud.jobs && s'.cloud.jobs[j].state == Open
    ensures RunningJob(s'.jobs, j) && FullyStaged(s'.jobs[j]) && s'.jobs[j].root == root && s'.jobs[j].cloudRevision == s.jobs[j].cloudRevision
    ensures !s'.jobs[j].lost && ManifestOf(s'.jobs[j]) == ManifestOf(s.jobs[j]) && s'.snapshots == s.snapshots
  {
    s' := OpenJobCanBeStaged(s, u, j);
    StuckThrough(s, s', {u}, t, root, j);
  }

  /** The start is about to clean up, and a completion has published its job. */
  ghost predicate Overtaking(s: State, t: Token, v: Token, root: Root, j: JobId, job: Job, revision: nat) {
    && t in s.creates && s.creates[t] == CreateOp(root, Aborted(j))
    && At(s, v, j, Asked, job) && job.root == root && job.phase == IndexJobs.Publishing
    && Publish(j) in s.sent && IsPublished(s.cloud, j, revision)
  }

  /** It is handed off and published. */
  lemma StuckJobIsPublished(s: State, t: Token, v: Token, root: Root, j: JobId, revision: nat) returns (s': State)
    requires Reachable(s) && Stuck(s, t, root, j) && t != v && FreshToken(s, v) && j in s.cloud.jobs && s.cloud.jobs[j].state == Open
    requires RunningJob(s.jobs, j) && FullyStaged(s.jobs[j]) && s.jobs[j].root == root && s.jobs[j].cloudRevision <= 0
    ensures Reachable(s') && Overtaking(s', t, v, root, j, HandedOff(s.jobs[j], s.now), revision) && Calm(s, s', {v} + {}, j)
    ensures s'.snapshots == s.snapshots
  {
    s' := StagedJobCanBePublished(s, v, j, revision);
    StuckThrough(s, s', {v} + {}, t, root, j);
  }

  lemma StuckJobIsStagedAndPublished(s: State, t: Token, u: Token, v: Token, root: Root, j: JobId, revision: nat) returns (s': State, job: Job)
    requires Reachable(s) && Stuck(s, t, root, j) && t != u && t != v && u != v && FreshToken(s, u) && FreshToken(s, v)
    requires RunningJob(s.jobs, j) && s.jobs[j].root == root && s.jobs[j].phase != IndexJobs.Publishing && !s.jobs[j].lost && s.jobs[j].cloudRevision <= 0
    requires FullyStaged(s.jobs[j]) || Remaining(s.jobs[j]) != map[] || s.jobs[j].deletedCount != 0
    requires j in s.cloud.jobs && s.cloud.jobs[j].state == Open
    ensures Reachable(s') && Overtaking(s', t, v, root, j, job, revision) && !job.lost && ManifestOf(job) == ManifestOf(s.jobs[j])
    ensures s'.snapshots == s.snapshots && s'.resets == s.resets && s'.late == s.late && Subdued(s.doubts, s'.doubts)
  {
    var s1 := StuckJobIsStaged(s, t, u, root, j);
    s' := StuckJobIsPublished(s1, t, v, root, j, revision);
    job := HandedOff(s1.jobs[j], s1.now);
    CalmThrough(s, s1, s', {u}, {v} + {}, j);
  }

  /** From every reachable state with a free tenant: a start loses its lease while it cancels its begin call, and its job
      is published before it can clean up. */
  lemma PublicationOvertakesCleanup(s: State, t: Token, u: Token, v: Token, root: Root, j: JobId, manifest: Snapshot, revision: nat)
    returns (s': State, job: Job)
    requires Reachable(s) && FreshToken(s, t) && FreshToken(s, u) && FreshToken(s, v) && t != u && t != v && u != v
    requires Free(s, root.tenant) && FreshJob(s, j) && !RunningOn(s.jobs, root) && !UpToDate(s, root, manifest)
    ensures Reachable(s') && Overtaking(s', t, v, root, j, job, revision) && !job.lost && ManifestOf(job) == manifest
    ensures s'.snapshots == s.snapshots && s'.resets == s.resets && s'.late == s.late && Subdued(s.doubts, s'.doubts)
  {
    var s1 := StartGetsStuckAndOpened(s, t, u, v, root, j, manifest);
    NewJobIsStagedOrRemains(root, root !in s.workspaces, Stored(s.snapshots, root), manifest, s.now);
    s', job := StuckJobIsStagedAndPublished(s1, t, u, v, root, j, revision);
  }

  /** What is published then is the manifest. */
  lemma OvertakingContent(s: State, t: Token, v: Token, root: Root, j: JobId, job: Job, revision: nat)
    requires Reachable(s) && Overtaking(s, t, v, root, j, job, revision) && s.resets == [] && root !in s.doubts.parted
    ensures Content(s.cloud, root) == ManifestOf(job) && T.InStep(s, root)
  {
    T.SnapshotAgreement(s, root);
    assert AwaitsSnapshot(s.jobs, s.cloud, root, j);
  }

  /** The begin failure is recorded now. */
  lemma PublishedJobIsFailed(s: State, t: Token, v: Token, root: Root, j: JobId, job: Job, revision: nat) returns (s': State)
    requires Reachable(s) && Overtaking(s, t, v, root, j, job, revision)
    ensures Reachable(s') && s' == FailBegun(s, t, true) && s'.cloud == s.cloud && s'.sent == s.sent && s'.resets == s.resets
    ensures s'.late == s.late && s'.snapshots == s.snapshots && j in s'.jobs && s'.jobs[j].status == Failed(BeginFailed)
  {
    T.FailBegunRecords(s, t, j);
    UploadReaches(s, FailBegunA(t, true));
    s' := FailBegun(s, t, true);
  }

  /** From every reachable state with a free tenant: a job that was handed off, and that upstream has published, can end
      as failed to begin, without any lease having been renewed late. If its root was in step, upstream then has the
      manifest and the relay what it had before. */
  lemma BeginFailureOvertakesPublication(s: State, t: Token, u: Token, v: Token, root: Root, j: JobId, manifest: Snapshot, revision: nat)
    returns (s': State)
    requires Reachable(s) && FreshToken(s, t) && FreshToken(s, u) && FreshToken(s, v) && t != u && t != v && u != v
    requires Free(s, root.tenant) && FreshJob(s, j) && !RunningOn(s.jobs, root) && !UpToDate(s, root, manifest)
    ensures Reachable(s') && s'.resets == s.resets && s'.late == s.late && s'.snapshots == s.snapshots
    ensures j in s'.jobs && s'.jobs[j].status == Failed(BeginFailed) && Publish(j) in s'.sent && IsPublished(s'.cloud, j, revision)
    ensures s.resets == [] && root !in s.doubts.parted ==>
              Content(s'.cloud, root) == manifest && (T.InStep(s', root) <==> manifest == Stored(s.snapshots, root))
  {
    var s1, job := PublicationOvertakesCleanup(s, t, u, v, root, j, manifest, revision);
    if s.resets == [] && root !in s.doubts.parted { OvertakingContent(s1, t, v, root, j, job, revision); }
    T.UsurpationInStepIff(s1, t);
    s' := PublishedJobIsFailed(s1, t, v, root, j, job, revision);
  }

  /** In particular from the empty relay. */
  lemma BeginFailureOvertakesFirstPublication(now: Time, t: Token, u: Token, v: Token, root: Root, j: JobId, manifest: Snapshot, revision: nat)
    returns (s: State)
    requires t != u && t != v && u != v
    ensures Reachable(s) && s.resets == [] && s.late == {}
    ensures j in s.jobs && s.jobs[j].status == Failed(BeginFailed) && Publish(j) in s.sent && IsPublished(s.cloud, j, revision)
    ensures Content(s.cloud, root) == manifest && Stored(s.snapshots, root) == map[] && (manifest != map[] ==> !T.InStep(s, root))
  {
    StartIsReachable(now);
    InitiallyFree(now, root, manifest);
    InitiallyFresh(now, j);
    s := BeginFailureOvertakesPublication(Initial(now), t, u, v, root, j, manifest, revision);
  }

  // ---- a running job that loses its file rows -----------------------------------------------------------------

  lemma StrippedAt(s: State, t: Token, v: Token, root: Root, j: JobId, job: Job, revision: nat)
    requires Overtaking(s, t, v, root, j, job, revision)
    ensures var s' := FailBegun(s, t, false);
            && At(s', v, j, Asked, job.(lost := true)) && s'.cloud == s.cloud && s'.resets == s.resets && s'.late == s.late
            && s'.deletions == s.deletions
  {
    T.FailBegunStrips(s, t, j);
    assert HitBy(s.jobs, s.creates[t]);
  }

  lemma PublishedJobIsStripped(s: State, t: Token, v: Token, root: Root, j: JobId, job: Job, revision: nat) returns (s': State)
    requires Reachable(s) && Overtaking(s, t, v, root, j, job, revision)
    ensures Reachable(s') && At(s', v, j, Asked, job.(lost := true)) && s'.cloud == s.cloud && s'.resets == s.resets && s'.late == s.late
  {
    StrippedAt(s, t, v, root, j, job, revision);
    UploadReaches(s, FailBegunA(t, false));
    s' := FailBegun(s, t, false);
  }

  /** Nobody else runs on the root of a running job, so nothing awaits a snapshot once it has completed. */
  lemma CompletedAlone(s: State, s': State, t: Token, j: JobId)
    requires Reachable(s) && Calm(s, s', {t}, j) && RunningJob(s.jobs, j) && j in s'.jobs && s'.jobs[j].status == Completed
    ensures !PublishedOn(s'.jobs, s'.cloud, s.jobs[j].root)
  {
    forall i | i in s'.jobs && s'.jobs[i].root == s.jobs[j].root ensures !RunningJob(s'.jobs, i) {
      if RunningJob(s'.jobs, i) { T.OneRunningJobPerRoot(s, i, j); }
    }
  }

  /** From every reachable state with a free tenant: if only the removal of the file rows succeeds, the job completes,
      nothing is stored for it, and upstream has its manifest. */
  lemma StrippedJobStoresNothing(s: State, t: Token, u: Token, v: Token, root: Root, j: JobId, manifest: Snapshot, revision: nat)
    returns (s': State)
    requires Reachable(s) && FreshToken(s, t) && FreshToken(s, u) && FreshToken(s, v) && t != u && t != v && u != v
    requires Free(s, root.tenant) && FreshJob(s, j) && !RunningOn(s.jobs, root) && !UpToDate(s, root, manifest)
    requires s.resets == [] && root !in s.doubts.parted && manifest != map[]
    ensures Reachable(s') && s'.resets == [] && s'.late == s.late && j in s'.jobs && s'.jobs[j].status == Completed
    ensures Content(s'.cloud, root) == manifest && Stored(s'.snapshots, root) == map[] && !T.InStep(s', root)
  {
    var s1, job := PublicationOvertakesCleanup(s, t, u, v, root, j, manifest, revision);
    OvertakingContent(s1, t, v, root, j, job, revision);
    var s2 := PublishedJobIsStripped(s1, t, v, root, j, job, revision);
    s' := PublishedCanBeStored(s2, v, j, job.(lost := true), revision);
    CompletedAlone(s2, s', v, j);
    NoDeletionBeside(s2, v, root);
  }

  lemma NoDeletionBeside(s: State, t: Token, root: Root)
    requires Alone(s, t, root.tenant)
    ensures !DeletionOn(s.deletions, root)
  {
    forall id | id in s.deletions && D.Active(s.deletions[id]) ensures s.deletions[id].root != root {
      assert !D.ActiveIn(s.deletions, root.tenant, id);
    }
  }

  // ---- a dismissal's clear that arrives late -------------------------------------------------------------------

  ghost predicate Dismissing(s: State, t: Token, root: Root, stage: DismissStage) {
    Alone(s, t, root.tenant) && t in s.dismissals && s.dismissals[t] == DismissOp(root, stage)
  }

  lemma DismissAt(s: State, t: Token, root: Root, j: JobId)
    requires FreshToken(s, t) && Free(s, root.tenant)
    ensures var s' := StartDismiss(s, t, root);
            && Dismissing(s', t, root, DismissEntered) && Calm(s, s', {t}, j) && s' == s.(leases := s'.leases, dismissals := s'.dismissals)
            && s' == DoLease(s, StartDismissA(t, root))
  {
    AttemptSucceeds(s, t, OnTenant(root.tenant, DismissRootFailure));
    var s' := StartDismiss(s, t, root);
    forall u | FreshToken(s, u) && u != t ensures FreshToken(s', u) {}
  }

  lemma DismissalMoves(s: State, t: Token, root: Root, stage: DismissStage, next: DismissStage, j: JobId)
    requires Dismissing(s, t, root, stage)
    ensures var s' := s.(dismissals := s.dismissals[t := DismissOp(root, next)]); Dismissing(s', t, root, next) && Calm(s, s', {t}, j)
  {
    var s' := s.(dismissals := s.dismissals[t := DismissOp(root, next)]);
    forall u | FreshToken(s, u) && u != t ensures FreshToken(s', u) {}
  }

  lemma DismissalStarts(s: State, t: Token, root: Root, j: JobId) returns (s': State)
    requires Reachable(s) && FreshToken(s, t) && Free(s, root.tenant)
    ensures Reachable(s') && Dismissing(s', t, root, DismissEntered) && Calm(s, s', {t}, j)
    ensures s' == s.(leases := s'.leases, dismissals := s'.dismissals)
  {
    DismissAt(s, t, root, j);
    LeaseReaches(s, StartDismissA(t, root));
    s' := StartDismiss(s, t, root);
  }

  lemma DismissalIsChecked(s: State, t: Token, root: Root, j: JobId) returns (s': State)
    requires Reachable(s) && Dismissing(s, t, root, DismissEntered) && !RunningOn(s.jobs, root) && root !in s.workspaces
    ensures Reachable(s') && Dismissing(s', t, root, DismissReady(false)) && Calm(s, s', {t}, j) && s' == s.(dismissals := s'.dismissals)
  {
    DismissalMoves(s, t, root, DismissEntered, DismissReady(false), j);
    EndingReaches(s, CheckDismissA(t));
    s' := s.(dismissals := s.dismissals[t := DismissOp(root, DismissReady(false))]);
  }

  lemma WipeCalledAt(s: State, t: Token, root: Root, j: JobId)
    requires Dismissing(s, t, root, DismissReady(false))
    ensures Dismissing(CallWipe(s, t), t, root, WipeCalled) && Calm(s, CallWipe(s, t), {t}, j)
  {
    var s' := CallWipe(s, t);
    forall u | FreshToken(s, u) && u != t ensures FreshToken(s', u) {}
  }

  lemma WipeIsCalled(s: State, t: Token, root: Root, j: JobId) returns (s': State)
    requires Reachable(s) && Dismissing(s, t, root, DismissReady(false))
    ensures Reachable(s') && Dismissing(s', t, root, WipeCalled) && Calm(s, s', {t}, j) && Wipe(t, root) in s'.sent
    ensures s' == s.(dismissals := s'.dismissals, sent := s.sent + {Wipe(t, root)})
  {
    WipeCalledAt(s, t, root, j);
    EndingReaches(s, CallWipeA(t));
    s' := CallWipe(s, t);
  }

  /** A dismissal of a root that never published has called its clear and is gone; the clear is still on its way. */
  lemma WipeIsPending(s: State, t: Token, root: Root, j: JobId) returns (s': State)
    requires Reachable(s) && FreshToken(s, t) && Free(s, root.tenant) && !RunningOn(s.jobs, root) && root !in s.workspaces
    ensures Reachable(s') && Free(s', root.tenant) && Calm(s, s', {t}, j)
    ensures FreshJob(s, j) ==> FreshJob(s', j)
    ensures s'.jobs == s.jobs && s'.workspaces == s.workspaces && Wipe(t, root) in s'.sent
  {
    var s1 := DismissalStarts(s, t, root, j);
    var s2 := DismissalIsChecked(s1, t, root, j);
    var s3 := WipeIsCalled(s2, t, root, j);
    s' := ReleaseIsPossible(s3, t, root.tenant, j);
    WipePendingAt(s, s1, s2, s3, s', t, root, j);
  }

  lemma WipePendingAt(s: State, s1: State, s2: State, s3: State, s': State, t: Token, root: Root, j: JobId)
    requires s1 == s.(leases := s1.leases, dismissals := s1.dismissals) && s2 == s1.(dismissals := s2.dismissals)
    requires s3 == s2.(dismissals := s3.dismissals, sent := s2.sent + {Wipe(t, root)}) && s' == s3.(leases := s'.leases)
    requires Calm(s, s1, {t}, j) && Calm(s1, s2, {t}, j) && Calm(s2, s3, {t}, j) && Calm(s3, s', {t}, j)
    ensures Calm(s, s', {t}, j) && (FreshJob(s, j) ==> FreshJob(s', j))
    ensures s'.jobs == s.jobs && s'.workspaces == s.workspaces && Wipe(t, root) in s'.sent
  {
    CalmThrough(s, s1, s2, {t}, {t}, j);
    CalmThrough(s, s2, s3, {t}, {t}, j);
    CalmThrough(s, s3, s', {t}, {t}, j);
    if FreshJob(s, j) { FreshBesidesWipe(s, s'.leases, s'.dismissals, t, root, j); }
  }

  lemma FreshBesidesWipe(s: State, leases: Leases.Table, dismissals: map<Token, DismissOp>, t: Token, root: Root, j: JobId)
    requires FreshJob(s, j)
    ensures FreshJob(s.(leases := leases, dismissals := dismissals, sent := s.sent + {Wipe(t, root)}), j)
  {
  }

  lemma NothingAwaits(s: State, s': State, used: set<Token>, root: Root, j: JobId)
    requires Calm(s, s', used, j) && !RunningOn(s.jobs, root) && j in s'.jobs && s'.jobs[j].status == Completed
    ensures !RunningOn(s'.jobs, root) && !PublishedOn(s'.jobs, s'.cloud, root)
  {
    forall i | i in s'.jobs && s'.jobs[i].root == root ensures !RunningJob(s'.jobs, i) {
      if i != j { assert !RunningJob(s.jobs, i); }
    }
  }

  lemma NoDeletion(s: State, root: Root)
    requires Free(s, root.tenant)
    ensures !DeletionOn(s.deletions, root)
  {
    forall id | id in s.deletions && D.Active(s.deletions[id]) ensures s.deletions[id].root != root {
      assert !D.ActiveIn(s.deletions, root.tenant, id);
    }
  }

  lemma WipeArrivesLate(s: State, t: Token, root: Root) returns (s': State)
    requires Reachable(s) && Wipe(t, root) in s.sent && Stored(s.snapshots, root) != map[]
    requires !DeletionOn(s.deletions, root) && !PublishedOn(s.jobs, s.cloud, root)
    ensures Reachable(s') && s'.resets == s.resets && s'.late == s.late && s'.doubts.usurped == s.doubts.usurped
    ensures Content(s'.cloud, root) == map[] && Stored(s'.snapshots, root) == Stored(s.snapshots, root) && !T.InStep(s', root)
  {
    T.WipeKeepsInStepIff(s, t, root);
    CloudReaches(s, ArriveA(Wipe(t, root)));
    s' := DoCloud(s, ArriveA(Wipe(t, root)));
  }

  lemma ManifestIsStoredMeanwhile(s: State, t: Token, a: Token, b: Token, c: Token, root: Root, j: JobId, manifest: Snapshot, revision: nat)
    returns (s': State)
    requires Reachable(s) && FreshToken(s, a) && FreshToken(s, b) && FreshToken(s, c) && a != b && a != c && b != c && Wipe(t, root) in s.sent
    requires Free(s, root.tenant) && FreshJob(s, j) && !RunningOn(s.jobs, root) && root !in s.workspaces
    ensures Reachable(s') && s'.resets == s.resets && s'.late == s.late && Subdued(s.doubts, s'.doubts) && Wipe(t, root) in s'.sent
    ensures Stored(s'.snapshots, root) == manifest && !DeletionOn(s'.deletions, root) && !PublishedOn(s'.jobs, s'.cloud, root)
  {
    s' := ManifestCanBeIndexed(s, a, b, c, root, j, manifest, revision);
    NothingAwaits(s, s', {a} + {b} + {c}, root, j);
    NoDeletion(s, root);
  }

  lemma ThreeStayFresh(s: State, s': State, t: Token, a: Token, b: Token, c: Token, j: JobId)
    requires Calm(s, s', {t}, j) && FreshToken(s, a) && FreshToken(s, b) && FreshToken(s, c) && t != a && t != b && t != c
    ensures FreshToken(s', a) && FreshToken(s', b) && FreshToken(s', c)
  {
  }

  lemma ManifestIsStoredBeforeWipe(s: State, t: Token, a: Token, b: Token, c: Token, root: Root, j: JobId, manifest: Snapshot, revision: nat)
    returns (s': State)
    requires Reachable(s) && FreshToken(s, t) && FreshToken(s, a) && FreshToken(s, b) && FreshToken(s, c)
    requires t != a && t != b && t != c && a != b && a != c && b != c
    requires Free(s, root.tenant) && FreshJob(s, j) && !RunningOn(s.jobs, root) && root !in s.workspaces
    ensures Reachable(s') && s'.resets == s.resets && s'.late == s.late && Subdued(s.doubts, s'.doubts) && Wipe(t, root) in s'.sent
    ensures Stored(s'.snapshots, root) == manifest && !DeletionOn(s'.deletions, root) && !PublishedOn(s'.jobs, s'.cloud, root)
  {
    var s1 := WipeIsPending(s, t, root, j);
    ThreeStayFresh(s, s1, t, a, b, c, j);
    s' := ManifestIsStoredMeanwhile(s1, t, a, b, c, root, j, manifest, revision);
  }

  /** From every reachable state with a free tenant: the clear of a dismissal can empty a root upstream after a manifest
      was stored for it, with no deletion, no late renewal and no late begin failure. */
  lemma LateWipeEmptiesStoredRoot(s: State, t: Token, a: Token, b: Token, c: Token, root: Root, j: JobId, manifest: Snapshot, revision: nat)
    returns (s': State)
    requires Reachable(s) && FreshToken(s, t) && FreshToken(s, a) && FreshToken(s, b) && FreshToken(s, c)
    requires t != a && t != b && t != c && a != b && a != c && b != c && manifest != map[]
    requires Free(s, root.tenant) && FreshJob(s, j) && !RunningOn(s.jobs, root) && root !in s.workspaces
    ensures Reachable(s') && s'.resets == s.resets && s'.late == s.late && s'.doubts.usurped == s.doubts.usurped
    ensures Content(s'.cloud, root) == map[] && Stored(s'.snapshots, root) == manifest && !T.InStep(s', root)
  {
    var s1 := ManifestIsStoredBeforeWipe(s, t, a, b, c, root, j, manifest, revision);
    s' := WipeArrivesLate(s1, t, root);
  }

  /** In particular from the empty relay. */
  lemma LateWipeEmptiesFirstRoot(now: Time, t: Token, a: Token, b: Token, c: Token, root: Root, j: JobId, manifest: Snapshot, revision: nat)
    returns (s: State)
    requires t != a && t != b && t != c && a != b && a != c && b != c && manifest != map[]
    ensures Reachable(s) && s.resets == [] && s.late == {} && s.doubts.usurped == map[]
    ensures Content(s.cloud, root) == map[] && Stored(s.snapshots, root) == manifest && !T.InStep(s, root)
  {
    StartIsReachable(now);
    InitiallyFree(now, root, manifest);
    InitiallyFresh(now, j);
    s := LateWipeEmptiesStoredRoot(Initial(now), t, a, b, c, root, j, manifest, revision);
  }

  // ---- a lease that is revived under a fence --------------------------------------------------------------------

  lemma DeletionAdmitted(s: State, root: Root, id: string)
    requires Free(s, root.tenant) && !RunningJobOf(s.jobs, root.tenant)
    ensures D.ActiveIn(SubmitDeletion(s, root, id, None, false).deletions, root.tenant, id)
  {
  }

  lemma DeletionIsAdmitted(s: State, root: Root, id: string) returns (s': State)
    requires Reachable(s) && FreshDeletion(s, id) && Free(s, root.tenant) && !RunningJobOf(s.jobs, root.tenant)
    ensures Reachable(s') && s' == s.(deletions := s'.deletions) && D.ActiveIn(s'.deletions, root.tenant, id)
  {
    DeletionAdmitted(s, root, id);
    DeletionReaches(s, SubmitDeletionA(root, id, None, false));
    s' := SubmitDeletion(s, root, id, None, false);
  }

  lemma RenewedAt(s: State, t: Token)
    requires t in s.leases
    ensures Acting(Renew(s, t), t) && Renew(s, t).leases[t].(expires := 0) == s.leases[t].(expires := 0)
  {
  }

  lemma RenewalIsPossible(s: State, t: Token) returns (s': State)
    requires Reachable(s) && t in s.leases
    ensures Reachable(s') && Acting(s', t) && s'.leases[t].(expires := 0) == s.leases[t].(expires := 0)
    ensures s' == s.(leases := s'.leases, late := s'.late)
  {
    RenewedAt(s, t);
    LeaseReaches(s, RenewA(t));
    s' := Renew(s, t);
  }

  lemma LateInsertionAt(s: State, t: Token, root: Root, j: JobId, manifest: Snapshot)
    requires Acting(s, t) && t in s.creates && s.creates[t] == CreateOp(root, Inspected) && FreshJob(s, j) && root !in s.workspaces
    ensures var s' := DoUpload(s, InsertJobA(t, j, manifest, {}, false));
            && RunningJob(s'.jobs, j) && s'.jobs[j].root == root
            && s'.deletions == s.deletions && s'.leases == s.leases && s'.now == s.now
  {
    InsertJobInserts(s, t, root, j, manifest);
  }

  lemma LateInsertionIsPossible(s: State, t: Token, root: Root, j: JobId, manifest: Snapshot) returns (s': State)
    requires Reachable(s) && Acting(s, t) && t in s.creates && s.creates[t] == CreateOp(root, Inspected)
    requires FreshJob(s, j) && root !in s.workspaces
    ensures Reachable(s') && RunningJob(s'.jobs, j) && s'.jobs[j].root == root
    ensures s'.deletions == s.deletions && s'.leases == s.leases && s'.now == s.now
  {
    LateInsertionAt(s, t, root, j, manifest);
    UploadReaches(s, InsertJobA(t, j, manifest, {}, false));
    s' := DoUpload(s, InsertJobA(t, j, manifest, {}, false));
  }

  lemma InitiallyUndeleted(now: Time, tenant: Tenant, id: string)
    ensures FreshDeletion(Initial(now), id) && !RunningJobOf(Initial(now).jobs, tenant)
  {
  }

  lemma FreshUnderFence(s: State, s': State, j: JobId)
    requires FreshJob(s, j) && s' == s.(now := s'.now, deletions := s'.deletions, leases := s'.leases, late := s'.late)
    ensures FreshJob(s', j)
  {
  }

  /** The start holds its lease again, and a deletion of its tenant is active. */
  lemma StartIsRevived(s: State, t: Token, root: Root, j: JobId, id: string) returns (s': State)
    requires Reachable(s) && FreshToken(s, t) && FreshJob(s, j) && FreshDeletion(s, id) && Free(s, root.tenant) && !RunningJobOf(s.jobs, root.tenant)
    ensures Reachable(s') && Acting(s', t) && s'.leases[t].tenant == root.tenant && s'.leases[t].kind == CreateJob
    ensures t in s'.creates && s'.creates[t] == CreateOp(root, Inspected) && FreshJob(s', j) && s'.workspaces == s.workspaces
    ensures D.ActiveIn(s'.deletions, root.tenant, id)
  {
    assert !RunningOn(s.jobs, root);
    var s1 := InspectedStart(s, t, root, j);
    var s2 := LeaseExpires(s1, t, root.tenant);
    var s3 := DeletionIsAdmitted(s2, root, id);
    s' := RenewalIsPossible(s3, t);
    FreshUnderFence(s1, s', j);
  }

  /** From every reachable state with a free tenant and no running job of it: a start renews its lease after that has
      expired and a deletion was admitted, and then inserts its job under the fence. */
  lemma LateRenewalBreaksFence(s: State, t: Token, root: Root, j: JobId, id: string, manifest: Snapshot) returns (s': State)
    requires Reachable(s) && FreshToken(s, t) && FreshJob(s, j) && FreshDeletion(s, id) && root !in s.workspaces
    requires Free(s, root.tenant) && !RunningJobOf(s.jobs, root.tenant)
    ensures Reachable(s') && D.Fencing(s'.deletions, root.tenant) && RunningJob(s'.jobs, j) && s'.jobs[j].root == root
    ensures Acting(s', t) && s'.leases[t].tenant == root.tenant && s'.leases[t].kind == CreateJob
  {
    var s1 := StartIsRevived(s, t, root, j, id);
    s' := LateInsertionIsPossible(s1, t, root, j, manifest);
  }

  /** In particular from the empty relay. */
  lemma LateRenewalBreaksFirstFence(now: Time, t: Token, root: Root, j: JobId, id: string, manifest: Snapshot) returns (s: State)
    ensures Reachable(s) && D.Fencing(s.deletions, root.tenant) && RunningJob(s.jobs, j) && s.jobs[j].root == root
    ensures Acting(s, t) && s.leases[t].tenant == root.tenant && s.leases[t].kind == CreateJob
  {
    StartIsReachable(now);
    InitiallyFree(now, root, manifest);
    InitiallyFresh(now, j);
    InitiallyUndeleted(now, root.tenant, id);
    s := LateRenewalBreaksFence(Initial(now), t, root, j, id, manifest);
  }
}
