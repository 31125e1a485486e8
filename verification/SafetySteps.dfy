/** Every action of the control plane keeps the safety invariant. */
module SafetySteps {
  import opened RelayTypes
  import opened Leases
  import opened Manifest
  import opened IndexJobs
  import opened Upstream
  import opened ControlPlane
  import opened Safety
  import opened Durable
  import D = RootDeletion
  import C = PlatformConfig

  // ---- leases -----------------------------------------------------------------------------------

  lemma AttemptRows(s: State, t: Token, wanted: Lease)
    requires Compatible(s.leases) && t !in s.leases
    ensures var after := Attempt(s, t, wanted);
            && Compatible(after) && RowsFrom(s.leases, after, t)
            && (t in after ==> after[t].(expires := 0) == wanted.(expires := 0) && !Fenced(s.deletions, s.configs, wanted.tenant, wanted.kind))
  {
    AttemptKeepsCompatible(s.leases, t, wanted, s.now, Fenced(s.deletions, s.configs, wanted.tenant, wanted.kind));
    AttemptShape(s.leases, t, wanted, s.now, Fenced(s.deletions, s.configs, wanted.tenant, wanted.kind));
  }

  lemma AttemptKeepsSafe(s: State, t: Token, wanted: Lease)
    requires Safe(s) && FreshToken(s, t)
    ensures Safe(s.(leases := Attempt(s, t, wanted)))
    ensures t in Attempt(s, t, wanted) ==>
              Attempt(s, t, wanted)[t].(expires := 0) == wanted.(expires := 0) && !Fenced(s.deletions, s.configs, wanted.tenant, wanted.kind)
  {
    Given(LeaseRows, s);
    AttemptRows(s, t, wanted);
    NewRowKeepsSafe(s, Attempt(s, t, wanted), t);
  }

  lemma StartCreateKeepsSafe(s: State, t: Token, root: Root)
    requires Safe(s) && FreshToken(s, t)
    ensures Safe(StartCreate(s, t, root))
  {
    AttemptKeepsSafe(s, t, OnTenant(root.tenant, CreateJob));
    PutCreate(s.(leases := Attempt(s, t, OnTenant(root.tenant, CreateJob))), t, CreateOp(root, Entered));
  }

  lemma StartUploadKeepsSafe(s: State, t: Token, tenant: Tenant, j: JobId)
    requires Safe(s) && FreshToken(s, t)
    ensures Safe(StartUpload(s, t, tenant, j))
  {
    AttemptKeepsSafe(s, t, OnJob(tenant, j, UploadBatch));
    PutUpload(s.(leases := Attempt(s, t, OnJob(tenant, j, UploadBatch))), t, UploadOp(j, Received));
  }

  lemma StartCompleteKeepsSafe(s: State, t: Token, tenant: Tenant, j: JobId)
    requires Safe(s) && FreshToken(s, t)
    ensures Safe(StartComplete(s, t, tenant, j))
  {
    AttemptKeepsSafe(s, t, OnJob(tenant, j, CompleteJob));
    PutPublish(s.(leases := Attempt(s, t, OnJob(tenant, j, CompleteJob))), t, PublishOp(j, Requested(None)));
  }

  lemma StartReconcileKeepsSafe(s: State, t: Token, tenant: Tenant, j: JobId)
    requires Safe(s) && FreshToken(s, t)
    ensures Safe(StartReconcile(s, t, tenant, j))
  {
    AttemptKeepsSafe(s, t, OnJob(tenant, j, ReconcilePublication));
    PutPublish(s.(leases := Attempt(s, t, OnJob(tenant, j, ReconcilePublication))), t, PublishOp(j, Reconciling));
  }

  lemma StartFailKeepsSafe(s: State, t: Token, tenant: Tenant, j: JobId)
    requires Safe(s) && FreshToken(s, t)
    ensures Safe(StartFail(s, t, tenant, j))
  {
    AttemptKeepsSafe(s, t, OnJob(tenant, j, FailJob));
    PutFail(s.(leases := Attempt(s, t, OnJob(tenant, j, FailJob))), t, FailOp(j, false));
  }

  lemma StartDismissKeepsSafe(s: State, t: Token, root: Root)
    requires Safe(s) && FreshToken(s, t)
    ensures Safe(StartDismiss(s, t, root))
  {
    AttemptKeepsSafe(s, t, OnTenant(root.tenant, DismissRootFailure));
    PutDismiss(s.(leases := Attempt(s, t, OnTenant(root.tenant, DismissRootFailure))), t, DismissOp(root, DismissEntered));
  }

  lemma StartDeleteKeepsSafe(s: State, t: Token, claim: D.Claim)
    requires Safe(s) && FreshToken(s, t)
    ensures Safe(StartDelete(s, t, claim))
  {
    AttemptKeepsSafe(s, t, OnTenant(claim.root.tenant, DeleteRootJob));
    PutDelete(s.(leases := Attempt(s, t, OnTenant(claim.root.tenant, DeleteRootJob))), t, DeleteOp(claim, DeleteEntered));
  }

  lemma RevivedIsExcused(s: State, t: Token)
    requires t in s.leases && !Live(s.leases[t], s.now)
    ensures Excused(AfterRenewal(s.leases, s.leases[t].tenant, t, s.now)[t], s.deletions, s.configs, Renew(s, t).late)
  {
  }

  lemma RenewKeepsSafe(s: State, t: Token)
    requires Safe(s)
    ensures Safe(Renew(s, t))
  {
    if t in s.leases {
      Given(LeaseRows, s);
      RenewalShape(s.leases, s.leases[t].tenant, t, s.now);
      RenewalKeepsCompatible(s.leases, s.leases[t].tenant, t, s.now);
      var late := Renew(s, t).late;
      LateKeepsSafe(s, late);
      if !Live(s.leases[t], s.now) { RevivedIsExcused(s, t); }
      OldRowsKeepSafe(s.(late := late), AfterRenewal(s.leases, s.leases[t].tenant, t, s.now));
    }
  }

  lemma ReleaseKeepsSafe(s: State, t: Token)
    requires Safe(s)
    ensures Safe(Release(s, t))
  {
    if t in s.leases {
      Given(LeaseRows, s);
      ReleaseKeepsCompatible(s.leases, s.leases[t].tenant, t);
      OldRowsKeepSafe(s, AfterRelease(s.leases, s.leases[t].tenant, t));
    }
  }

  lemma AbandonKeepsSafe(s: State, t: Token)
    requires Safe(s)
    ensures Safe(Abandon(s, t))
  {
    var s' := Abandon(s, t);
    forall c: Condition ensures Holds(c, s') { Given(c, s); }
  }

  lemma LeaseStepKeepsSafe(s: State, a: LeaseAction)
    requires Safe(s)
    ensures Safe(DoLease(s, a))
  {
    if LeaseEnabled(s, a) {
      match a
      case TickA(elapsed) => TickKeepsSafe(s, elapsed);
      case StartCreateA(t, root) => StartCreateKeepsSafe(s, t, root);
      case StartUploadA(t, tenant, j) => StartUploadKeepsSafe(s, t, tenant, j);
      case StartCompleteA(t, tenant, j) => StartCompleteKeepsSafe(s, t, tenant, j);
      case StartReconcileA(t, tenant, j) => StartReconcileKeepsSafe(s, t, tenant, j);
      case StartFailA(t, tenant, j) => StartFailKeepsSafe(s, t, tenant, j);
      case StartDismissA(t, root) => StartDismissKeepsSafe(s, t, root);
      case StartDeleteA(t, claim) => StartDeleteKeepsSafe(s, t, claim);
      case StartOtherA(t, wanted) => AttemptKeepsSafe(s, t, wanted);
      case RenewA(t) => RenewKeepsSafe(s, t);
      case ReleaseA(t) => ReleaseKeepsSafe(s, t);
      case AbandonA(t) => AbandonKeepsSafe(s, t);
    }
  }

  // ---- start --------------------------------------------------------------------------------------

  lemma TimeOutEvolves(jobs: Jobs, ids: set<JobId>)
    requires forall j | j in ids :: RunningJob(jobs, j) && jobs[j].phase != Publishing
    ensures Evolves(jobs, TimeOut(jobs, ids))
  {
  }

  /** After a start has reclaimed the expired jobs of a root, none is running on it. */
  lemma ReclaimLeavesNone(s: State, root: Root)
    requires !HealthyOn(s, root)
    ensures !RunningOn(TimeOut(s.jobs, ExpiredOn(s, root)), root)
  {
  }

  lemma InspectActiveKeepsSafe(s: State, t: Token)
    requires Safe(s) && Acting(s, t) && t in s.creates
    ensures Safe(InspectActive(s, t))
  {
    var root := s.creates[t].root;
    if HealthyOn(s, root) {
      DropCreate(s, t);
    } else {
      var jobs := TimeOut(s.jobs, ExpiredOn(s, root));
      CreateFacts(s, t);
      TimeOutEvolves(s.jobs, ExpiredOn(s, root));
      ReclaimLeavesNone(s, root);
      EvolveKeepsSafe(s, jobs);
      PutCreate(s.(jobs := jobs), t, CreateOp(root, Inspected));
      WithSent(s.(jobs := jobs, creates := s.creates[t := CreateOp(root, Inspected)]), InspectActive(s, t).sent);
    }
  }

  lemma NewJobShaped(root: Root, full: bool, previous: Snapshot, manifest: Snapshot, now: Time)
    requires full || Pending(previous, manifest) != {} || Deleted(previous, manifest) != {}
    ensures JobShape(NewJob(root, full, previous, manifest, now), previous, !full)
    ensures NewJob(root, full, previous, manifest, now).root == root && NewJob(root, full, previous, manifest, now).phase == Created
  {
    var job := NewJob(root, full, previous, manifest, now);
    assert Entries(job.files) == manifest;
    assert Needed(job.files) == Pending(previous, manifest);
    assert Staged(job.files) == {};
    var hasWorkspace := !full;
    forall f: Facet ensures Has(f, job, previous, hasWorkspace) {}
  }

  lemma InsertKeepsTables(jobs: Jobs, id: JobId, job: Job, snapshots: map<Root, Snapshot>, workspaces: map<Root, int>, deletions: D.Table)
    requires id !in jobs && !RunningOn(jobs, job.root) && job.phase == Created
    requires OneRunning(jobs) && JobsShaped(jobs, snapshots, workspaces) && FenceExcludesHandoff(deletions, jobs)
    requires JobShape(job, Stored(snapshots, job.root), job.root in workspaces)
    ensures OneRunning(jobs[id := job]) && JobsShaped(jobs[id := job], snapshots, workspaces) && FenceExcludesHandoff(deletions, jobs[id := job])
  {
  }

  lemma RunningOnAfterInsert(jobs: Jobs, id: JobId, job: Job, r: Root)
    requires r != job.root
    ensures RunningOn(jobs[id := job], r) ==> RunningOn(jobs, r)
  {
  }

  /** The tenant-wide lease of the inserting start keeps every other start out of the tenant. */
  lemma InsertKeepsCreates(s: State, t: Token, id: JobId, job: Job)
    requires Safe(s) && FreshJob(s, id) && t in s.leases
    requires s.leases[t].mode == Exclusive && s.leases[t].tenant == job.root.tenant
    ensures CreatesOk(s.leases, s.creates - {t}, s.jobs[id := job])
  {
    Given(LeaseRows, s);
    Given(CreateOps, s);
    forall u | u in s.creates && u in s.leases && u != t ensures CreateOk(s.leases[u], s.creates[u], s.jobs[id := job]) {
      assert !Conflicts(s.leases[t], s.leases[u]);
      assert CreateOk(s.leases[u], s.creates[u], s.jobs);
      RunningOnAfterInsert(s.jobs, id, job, s.creates[u].root);
    }
  }

  lemma InsertKeepsDismissals(s: State, t: Token, id: JobId, job: Job)
    requires Safe(s) && t in s.leases && t !in s.dismissals
    requires s.leases[t].mode == Exclusive && s.leases[t].tenant == job.root.tenant
    ensures DismissalsOk(s.leases, s.dismissals, s.jobs[id := job], s.snapshots)
  {
    Given(LeaseRows, s);
    Given(DismissOps, s);
    forall u | u in s.dismissals && u in s.leases
      ensures DismissOk(s.leases[u], s.dismissals[u], s.jobs[id := job], Stored(s.snapshots, s.dismissals[u].root))
    {
      assert !Conflicts(s.leases[t], s.leases[u]);
      assert DismissOk(s.leases[u], s.dismissals[u], s.jobs, Stored(s.snapshots, s.dismissals[u].root));
      RunningOnAfterInsert(s.jobs, id, job, s.dismissals[u].root);
    }
  }

  lemma InsertKeepsUploads(leases: Leases.Table, uploads: map<Token, UploadOp>, jobs: Jobs, id: JobId, job: Job)
    requires UploadsOk(leases, uploads, jobs) && forall t | t in uploads :: uploads[t].job != id
    ensures UploadsOk(leases, uploads, jobs[id := job])
  {
  }

  lemma InsertKeepsFails(leases: Leases.Table, fails: map<Token, FailOp>, jobs: Jobs, id: JobId, job: Job)
    requires FailsOk(leases, fails, jobs) && forall t | t in fails :: fails[t].job != id
    ensures FailsOk(leases, fails, jobs[id := job])
  {
  }

  lemma InsertKeepsPublishers(leases: Leases.Table, publishers: map<Token, PublishOp>, jobs: Jobs, id: JobId, job: Job, deletions: D.Table, usurped: map<JobId, Root>)
    requires PublishersOk(leases, publishers, jobs, usurped) && FencedAreHarmless(deletions, leases, publishers, jobs)
    requires forall t | t in publishers :: publishers[t].job != id
    ensures PublishersOk(leases, publishers, jobs[id := job], usurped)
    ensures FencedAreHarmless(deletions, leases, publishers, jobs[id := job])
  {
  }

  lemma InsertKeepsJobOps(s: State, id: JobId, job: Job)
    requires Safe(s) && FreshJob(s, id)
    ensures UploadsOk(s.leases, s.uploads, s.jobs[id := job]) && PublishersOk(s.leases, s.publishers, s.jobs[id := job], s.doubts.usurped)
    ensures FailsOk(s.leases, s.fails, s.jobs[id := job]) && FencedAreHarmless(s.deletions, s.leases, s.publishers, s.jobs[id := job])
  {
    Given(UploadOps, s);
    Given(PublishOps, s);
    Given(FailOps, s);
    Given(FencedPublishers, s);
    InsertKeepsUploads(s.leases, s.uploads, s.jobs, id, job);
    InsertKeepsFails(s.leases, s.fails, s.jobs, id, job);
    InsertKeepsPublishers(s.leases, s.publishers, s.jobs, id, job, s.deletions, s.doubts.usurped);
  }

  lemma InsertKeepsJobTables(s: State, id: JobId, job: Job)
    requires Safe(s) && id !in s.jobs && !RunningOn(s.jobs, job.root)
    requires TenantExcused(job.root.tenant, s.deletions, s.late)
    requires job.phase == Created && JobShape(job, Stored(s.snapshots, job.root), job.root in s.workspaces)
    ensures OneRunning(s.jobs[id := job]) && JobsShaped(s.jobs[id := job], s.snapshots, s.workspaces)
    ensures FenceExcludesHandoff(s.deletions, s.jobs[id := job])
    ensures JobsUnfenced(s.jobs[id := job], s.deletions, s.late)
  {
    Given(FencedRunning, s);
    Given(RunningJobs, s);
    Given(JobTables, s);
    Given(FencedJobs, s);
    InsertKeepsTables(s.jobs, id, job, s.snapshots, s.workspaces, s.deletions);
  }

  lemma InsertKeepsRootOps(s: State, t: Token, id: JobId, job: Job)
    requires Safe(s) && FreshJob(s, id) && t in s.leases && t !in s.creates && t !in s.dismissals
    requires s.leases[t].mode == Exclusive && s.leases[t].tenant == job.root.tenant
    ensures CreatesOk(s.leases, s.creates, s.jobs[id := job]) && DismissalsOk(s.leases, s.dismissals, s.jobs[id := job], s.snapshots)
  {
    InsertKeepsCreates(s, t, id, job);
    assert s.creates - {t} == s.creates;
    InsertKeepsDismissals(s, t, id, job);
  }

  lemma InsertionKeepsSafe(s: State, t: Token, id: JobId, job: Job)
    requires Safe(s) && FreshJob(s, id) && t in s.leases && !RunningOn(s.jobs, job.root)
    requires TenantExcused(job.root.tenant, s.deletions, s.late)
    requires s.leases[t].mode == Exclusive && s.leases[t].tenant == job.root.tenant && t !in s.dismissals && t !in s.creates
    requires job.phase == Created && JobShape(job, Stored(s.snapshots, job.root), job.root in s.workspaces)
    ensures Safe(s.(jobs := s.jobs[id := job]))
  {
    var s' := s.(jobs := s.jobs[id := job]);
    InsertKeepsJobTables(s, id, job);
    InsertKeepsJobOps(s, id, job);
    InsertKeepsRootOps(s, t, id, job);
    forall c: Condition ensures Holds(c, s') { Given(c, s); }
  }

  /** A start acts under a live lease, so no deletion fences its tenant, unless a lease was revived under it. */
  lemma CreatorUnfenced(s: State, t: Token)
    requires Safe(s) && Acting(s, t) && t in s.creates
    ensures TenantExcused(s.creates[t].root.tenant, s.deletions, s.late)
  {
    CreateFacts(s, t);
    Given(LiveLeases, s);
  }

  /** The insertion, with the start that makes it taken out of the way. */
  lemma InsertedAlone(s: State, t: Token, id: JobId, job: Job)
    requires Safe(s) && Acting(s, t) && t in s.creates && s.creates[t].stage.Inspected? && FreshJob(s, id)
    requires job.root == s.creates[t].root && job.phase == Created
    requires JobShape(job, Stored(s.snapshots, job.root), job.root in s.workspaces)
    ensures Safe(s.(creates := s.creates - {t}, jobs := s.jobs[id := job]))
  {
    CreateFacts(s, t);
    KindsExclude(s, t);
    CreatorUnfenced(s, t);
    DropCreate(s, t);
    InsertionKeepsSafe(s.(creates := s.creates - {t}), t, id, job);
  }

  lemma InsertStepKeepsSafe(s: State, t: Token, id: JobId, job: Job, sent: set<Message>)
    requires Safe(s) && Acting(s, t) && t in s.creates && s.creates[t].stage.Inspected? && FreshJob(s, id)
    requires job.root == s.creates[t].root && job.phase == Created
    requires JobShape(job, Stored(s.snapshots, job.root), job.root in s.workspaces)
    ensures Safe(s.(jobs := s.jobs[id := job], sent := sent, creates := s.creates[t := CreateOp(job.root, Begun(id))]))
  {
    var begun := s.creates[t := CreateOp(job.root, Begun(id))];
    InsertedAlone(s, t, id, job);
    CreateFacts(s, t);
    PutCreate(s.(creates := s.creates - {t}, jobs := s.jobs[id := job]), t, CreateOp(job.root, Begun(id)));
    assert (s.creates - {t})[t := CreateOp(job.root, Begun(id))] == begun;
    WithSent(s.(jobs := s.jobs[id := job], creates := begun), sent);
  }

  lemma InsertedKeepsSafe(s: State, t: Token, id: JobId, files: Snapshot)
    requires Safe(s) && Acting(s, t) && t in s.creates && s.creates[t].stage.Inspected? && FreshJob(s, id)
    requires !UpToDate(s, s.creates[t].root, files)
    ensures Safe(Inserted(s, t, id, files))
  {
    var root := s.creates[t].root;
    var full := root !in s.workspaces;
    NewJobShaped(root, full, Stored(s.snapshots, root), files, s.now);
    InsertStepKeepsSafe(s, t, id, NewJob(root, full, Stored(s.snapshots, root), files, s.now), s.sent + {Begin(id, root, full)});
  }

  lemma InsertJobKeepsSafe(s: State, t: Token, id: JobId, manifest: Snapshot, unreadable: set<Path>, limited: bool)
    requires Safe(s) && Acting(s, t) && t in s.creates && s.creates[t].stage.Inspected? && FreshJob(s, id)
    ensures Safe(InsertJob(s, t, id, manifest, unreadable, limited))
  {
    var files := Graft(Stored(s.snapshots, s.creates[t].root), manifest, unreadable);
    if UpToDate(s, s.creates[t].root, files) || limited {
      DropCreate(s, t);
    } else {
      InsertedKeepsSafe(s, t, id, files);
    }
  }

  lemma EndEvolves(jobs: Jobs, j: JobId, job: Job)
    requires RunningJob(jobs, j) && jobs[j].phase != Publishing && job.status != Running
    ensures Evolves(jobs, jobs[j := job])
  {
  }

  lemma AbortedFits(s: State, t: Token, j: JobId)
    requires Safe(s) && t in s.creates
    ensures t in s.leases ==> CreateOk(s.leases[t], CreateOp(s.creates[t].root, Aborted(j)), s.jobs)
  {
    Given(CreateOps, s);
  }

  lemma AbortBegunKeepsSafe(s: State, t: Token)
    requires Safe(s) && t in s.creates && s.creates[t].stage.Begun?
    ensures Safe(AbortBegun(s, t))
  {
    var next := CreateOp(s.creates[t].root, Aborted(s.creates[t].stage.job));
    AbortedFits(s, t, s.creates[t].stage.job);
    PutCreate(s, t, next);
    WithSent(s.(creates := s.creates[t := next]), s.sent + {Abort(s.creates[t].stage.job)});
  }

  lemma UsurpKeepsPublishers(leases: Leases.Table, publishers: map<Token, PublishOp>, jobs: Jobs, j: JobId, job: Job, usurped: map<JobId, Root>)
    requires PublishersOk(leases, publishers, jobs, usurped) && RunningJob(jobs, j) && job.status != Running
    requires job.cloudRevision == jobs[j].cloudRevision
    ensures PublishersOk(leases, publishers, jobs[j := job], usurped[j := job.root])
  {
  }

  lemma EndKeepsTables(jobs: Jobs, j: JobId, job: Job, snapshots: map<Root, Snapshot>, workspaces: map<Root, int>, deletions: D.Table, late: set<Breach>)
    requires RunningJob(jobs, j) && job.status != Running && OneRunning(jobs) && JobsShaped(jobs, snapshots, workspaces)
    requires FenceExcludesHandoff(deletions, jobs) && JobsUnfenced(jobs, deletions, late)
    ensures OneRunning(jobs[j := job]) && JobsShaped(jobs[j := job], snapshots, workspaces)
    ensures FenceExcludesHandoff(deletions, jobs[j := job]) && JobsUnfenced(jobs[j := job], deletions, late)
  {
    var after := jobs[j := job];
    forall i | RunningJob(after, i) ensures RunningJob(jobs, i) && after[i] == jobs[i] {}
  }

  lemma RunningOnAfterEnd(jobs: Jobs, j: JobId, job: Job, r: Root)
    requires RunningJob(jobs, j) && job.status != Running
    ensures RunningOn(jobs[j := job], r) ==> RunningOn(jobs, r)
  {
  }

  lemma EndKeepsRootOps(s: State, j: JobId, job: Job)
    requires Safe(s) && RunningJob(s.jobs, j) && job.status != Running
    ensures CreatesOk(s.leases, s.creates, s.jobs[j := job]) && DismissalsOk(s.leases, s.dismissals, s.jobs[j := job], s.snapshots)
  {
    Given(CreateOps, s);
    Given(DismissOps, s);
    forall r: Root ensures RunningOn(s.jobs[j := job], r) ==> RunningOn(s.jobs, r) { RunningOnAfterEnd(s.jobs, j, job, r); }
  }

  lemma EndKeepsJobOps(s: State, j: JobId, job: Job)
    requires Safe(s) && RunningJob(s.jobs, j) && job.status != Running && job.cloudRevision == s.jobs[j].cloudRevision
    ensures UploadsOk(s.leases, s.uploads, s.jobs[j := job]) && FailsOk(s.leases, s.fails, s.jobs[j := job])
    ensures PublishersOk(s.leases, s.publishers, s.jobs[j := job], s.doubts.usurped[j := job.root])
    ensures FencedAreHarmless(s.deletions, s.leases, s.publishers, s.jobs[j := job])
  {
    Given(UploadOps, s);
    Given(FailOps, s);
    Given(PublishOps, s);
    UsurpKeepsPublishers(s.leases, s.publishers, s.jobs, j, job, s.doubts.usurped);
    Given(FencedPublishers, s);
  }

  /** A job is ended as failed to begin in whatever phase it is, and is remembered if it was handed off. */
  lemma UsurpKeepsSafe(s: State, j: JobId, job: Job, doubts: Doubts)
    requires Safe(s) && RunningJob(s.jobs, j) && job.status == Failed(BeginFailed) && job.root == s.jobs[j].root
    requires job.cloudRevision == s.jobs[j].cloudRevision
    requires doubts.usurped == s.doubts.usurped[j := job.root]
    ensures Safe(s.(jobs := s.jobs[j := job], doubts := doubts))
  {
    var s' := s.(jobs := s.jobs[j := job], doubts := doubts);
    Given(RunningJobs, s);
    Given(JobTables, s);
    Given(FencedJobs, s);
    Given(FencedRunning, s);
    EndKeepsTables(s.jobs, j, job, s.snapshots, s.workspaces, s.deletions, s.late);
    EndKeepsRootOps(s, j, job);
    EndKeepsJobOps(s, j, job);
    forall c: Condition ensures Holds(c, s') { Given(c, s); }
  }

  lemma UnbegunKeepsSafe(s: State, j: JobId)
    requires Safe(s) && RunningJob(s.jobs, j)
    ensures Safe(Unbegun(s, j))
  {
    var job := Ended(s.jobs[j], Failed(BeginFailed)).(heartbeat := s.now);
    if s.jobs[j].phase == Publishing {
      UsurpKeepsSafe(s, j, job, Usurped(s, j));
    } else {
      EndEvolves(s.jobs, j, job);
      EvolveKeepsSafe(s, s.jobs[j := job]);
    }
  }

  lemma StrippedEvolves(jobs: Jobs, j: JobId)
    requires RunningJob(jobs, j)
    ensures Evolves(jobs, jobs[j := jobs[j].(lost := true)])
  {
  }

  lemma StrippedKeepsSafe(s: State, j: JobId)
    requires Safe(s) && RunningJob(s.jobs, j)
    ensures Safe(Stripped(s, j))
  {
    var jobs := s.jobs[j := s.jobs[j].(lost := true)];
    StrippedEvolves(s.jobs, j);
    EvolveKeepsSafe(s, jobs);
    WithDoubts(s.(jobs := jobs), Stripped(s, j).doubts);
  }

  lemma FailBegunKeepsSafe(s: State, t: Token, recorded: bool)
    requires Safe(s) && t in s.creates && s.creates[t].stage.Aborted?
    ensures Safe(FailBegun(s, t, recorded))
  {
    AfterBeginFailureKeepsSafe(s, s.creates[t], recorded);
    DropCreate(AfterBeginFailure(s, s.creates[t], recorded), t);
  }

  lemma AfterBeginFailureKeepsSafe(s: State, op: CreateOp, recorded: bool)
    requires Safe(s) && op.stage.Aborted?
    ensures Safe(AfterBeginFailure(s, op, recorded))
  {
    if HitBy(s.jobs, op) {
      UnbegunKeepsSafe(s, op.stage.job);
      StrippedKeepsSafe(s, op.stage.job);
    }
  }

  // ---- upload ---------------------------------------------------------------------------------------

  lemma PreparedFits(job: Job, stored: Snapshot, hasWorkspace: bool, batch: map<Path, BatchFile>)
    requires JobShape(job, stored, hasWorkspace)
    requires forall p | p in batch :: BatchFileAccepted(job.files, p, batch[p])
    requires batch != map[] ==> !job.lost
    ensures BatchFits(job, map p | p in batch :: batch[p].content, DeletionsToSend(job, stored))
  {
    assert Has(DiffOfSnapshot, job, stored, hasWorkspace) && Has(Progress, job, stored, hasWorkspace);
    assert Entries(job.files).Keys == job.files.Keys;
  }

  lemma PrepareBatchKeepsSafe(s: State, t: Token, root: Root, batch: map<Path, BatchFile>)
    requires Safe(s) && Acting(s, t) && t in s.uploads
    ensures Safe(PrepareBatch(s, t, root, batch))
  {
    var j := s.uploads[t].job;
    if BatchAccepted(s, t, root, batch) {
      UploadFacts(s, t);
      JobFacts(s, j);
      PreparedFits(s.jobs[j], Stored(s.snapshots, root), root in s.workspaces, batch);
      PutUpload(s, t, PrepareBatch(s, t, root, batch).uploads[t]);
    } else {
      DropUpload(s, t);
    }
  }

  lemma HeartbeatShaped(job: Job, now: Time, stored: Snapshot, hasWorkspace: bool)
    requires JobShape(job, stored, hasWorkspace)
    ensures JobShape(job.(phase := Uploading, heartbeat := now), stored, hasWorkspace)
  {
    var after := job.(phase := Uploading, heartbeat := now);
    forall f: Facet ensures Has(f, after, stored, hasWorkspace) { assert Has(f, job, stored, hasWorkspace); }
  }

  /** An upload changes its own job. */
  lemma UploadChangeKeepsSafe(s: State, t: Token, job: Job)
    requires Safe(s) && Acting(s, t) && t in s.uploads && OwnedRunning(s, t, s.uploads[t].job)
    requires job.root == s.jobs[s.uploads[t].job].root && UploadFriendly(s.jobs[s.uploads[t].job], job)
    requires JobShape(job, Stored(s.snapshots, job.root), job.root in s.workspaces)
    ensures Safe(s.(jobs := s.jobs[s.uploads[t].job := job]))
  {
    UploadFacts(s, t);
    KindsExclude(s, t);
    Given(LeaseRows, s);
    ChangeKeepsSafe(s, t, s.uploads[t].job, job);
  }

  lemma StagedJobKeepsSafe(s: State, t: Token, j: JobId)
    requires Safe(s) && Acting(s, t) && t in s.uploads && s.uploads[t].job == j && OwnedRunning(s, t, j) && s.jobs[j].phase != Publishing
    ensures Safe(s.(jobs := s.jobs[j := s.jobs[j].(phase := Uploading, heartbeat := s.now)]))
  {
    var job := s.jobs[j].(phase := Uploading, heartbeat := s.now);
    JobFacts(s, j);
    HeartbeatShaped(s.jobs[j], s.now, Stored(s.snapshots, job.root), job.root in s.workspaces);
    UploadChangeKeepsSafe(s, t, job);
  }

  lemma StagedUploadKeepsSafe(s: State, t: Token, j: JobId, sent: set<Message>)
    requires Safe(s) && Acting(s, t) && t in s.uploads && s.uploads[t].stage.Prepared? && s.uploads[t].job == j
    requires OwnedRunning(s, t, j) && s.jobs[j].phase != Publishing
    ensures Safe(s.(jobs := s.jobs[j := s.jobs[j].(phase := Uploading, heartbeat := s.now)], sent := sent,
                    uploads := s.uploads[t := UploadOp(j, Called(s.uploads[t].stage.files, s.uploads[t].stage.removed))]))
  {
    var s' := s.(jobs := s.jobs[j := s.jobs[j].(phase := Uploading, heartbeat := s.now)]);
    var next := UploadOp(j, Called(s.uploads[t].stage.files, s.uploads[t].stage.removed));
    StagedJobKeepsSafe(s, t, j);
    UploadFacts(s, t);
    PutUpload(s', t, next);
    WithSent(s'.(uploads := s.uploads[t := next]), sent);
  }

  lemma StageBatchKeepsSafe(s: State, t: Token)
    requires Safe(s) && Acting(s, t) && t in s.uploads && s.uploads[t].stage.Prepared?
    ensures Safe(StageBatch(s, t))
  {
    var op := s.uploads[t];
    if OwnedRunning(s, t, op.job) && s.jobs[op.job].phase != Publishing {
      StagedUploadKeepsSafe(s, t, op.job, StageBatch(s, t).sent);
    } else {
      DropUpload(s, t);
    }
  }

  lemma MarkIndexedFacts(files: FileTable, paths: set<Path>)
    requires forall p | p in paths :: p in files && files[p].needsIndex && !files[p].indexed
    ensures Entries(MarkIndexed(files, paths)) == Entries(files)
    ensures Needed(MarkIndexed(files, paths)) == Needed(files)
    ensures Staged(MarkIndexed(files, paths)) == Staged(files) + paths
    ensures |Staged(MarkIndexed(files, paths))| == |Staged(files)| + |paths|
  {
  }

  /** A committed batch counts each of its files once: it was needed and not yet indexed. */
  lemma BatchCommittedShaped(job: Job, paths: set<Path>, sent: bool, now: Time, stored: Snapshot, hasWorkspace: bool)
    requires JobShape(job, stored, hasWorkspace) && Committable(job, paths) && (sent ==> job.announced != {})
    ensures UploadFriendly(job, BatchCommitted(job, paths, sent, now))
    ensures JobShape(BatchCommitted(job, paths, sent, now), stored, hasWorkspace)
  {
    var after := BatchCommitted(job, paths, sent, now);
    MarkIndexedFacts(job.files, paths);
    forall f: Facet ensures Has(f, after, stored, hasWorkspace) { assert Has(f, job, stored, hasWorkspace); }
  }

  lemma CommittedUploadKeepsSafe(s: State, t: Token, job: Job)
    requires Safe(s) && Acting(s, t) && t in s.uploads && OwnedRunning(s, t, s.uploads[t].job)
    requires job.root == s.jobs[s.uploads[t].job].root && UploadFriendly(s.jobs[s.uploads[t].job], job)
    requires JobShape(job, Stored(s.snapshots, job.root), job.root in s.workspaces)
    ensures Safe(s.(jobs := s.jobs[s.uploads[t].job := job], uploads := s.uploads - {t}))
  {
    UploadChangeKeepsSafe(s, t, job);
    DropUpload(s.(jobs := s.jobs[s.uploads[t].job := job]), t);
  }

  lemma CommitBatchKeepsSafe(s: State, t: Token)
    requires Safe(s) && Acting(s, t) && t in s.uploads && s.uploads[t].stage.Called?
    ensures Safe(CommitBatch(s, t))
  {
    var op := s.uploads[t];
    var paths := op.stage.files.Keys;
    if OwnedRunning(s, t, op.job) && Committable(s.jobs[op.job], paths) {
      var job := s.jobs[op.job];
      UploadFacts(s, t);
      JobFacts(s, op.job);
      BatchCommittedShaped(job, paths, op.stage.removed != {}, s.now, Stored(s.snapshots, job.root), job.root in s.workspaces);
      CommittedUploadKeepsSafe(s, t, BatchCommitted(job, paths, op.stage.removed != {}, s.now));
    } else {
      DropUpload(s, t);
    }
  }

  lemma UploadStepKeepsSafe(s: State, a: UploadAction)
    requires Safe(s)
    ensures Safe(DoUpload(s, a))
  {
    if UploadEnabled(s, a) {
      match a
      case InspectActiveA(t) => InspectActiveKeepsSafe(s, t);
      case InsertJobA(t, id, manifest, unreadable, limited) => InsertJobKeepsSafe(s, t, id, manifest, unreadable, limited);
      case AbortBegunA(t) => AbortBegunKeepsSafe(s, t);
      case FailBegunA(t, recorded) => FailBegunKeepsSafe(s, t, recorded);
      case PrepareBatchA(t, root, batch) => PrepareBatchKeepsSafe(s, t, root, batch);
      case StageBatchA(t) => StageBatchKeepsSafe(s, t);
      case CommitBatchA(t) => CommitBatchKeepsSafe(s, t);
    }
  }


  // ---- completion and reconciliation ------------------------------------------------------------------

  /** A completion or reconciliation changes its own job and stops. */
  lemma PublisherLeaves(s: State, t: Token, job: Job)
    requires Safe(s) && Acting(s, t) && t in s.publishers && OwnedRunning(s, t, s.publishers[t].job)
    requires job.root == s.jobs[s.publishers[t].job].root && KeepsShape(s, job)
    ensures Safe(s.(publishers := s.publishers - {t}, jobs := s.jobs[s.publishers[t].job := job]))
  {
    PublishFacts(s, t);
    Given(LeaseRows, s);
    DropPublish(s, t);
    ChangeKeepsSafe(s.(publishers := s.publishers - {t}), t, s.publishers[t].job, job);
  }

  /** A completion or reconciliation changes its own job and goes on. */
  lemma PublisherMoves(s: State, t: Token, job: Job, next: PublishOp)
    requires Safe(s) && Acting(s, t) && t in s.publishers && OwnedRunning(s, t, s.publishers[t].job)
    requires job.root == s.jobs[s.publishers[t].job].root && KeepsShape(s, job)
    requires next.job == s.publishers[t].job && PublishOk(s.leases[t], next, s.jobs[next.job := job], s.doubts.usurped)
    ensures Safe(s.(publishers := s.publishers[t := next], jobs := s.jobs[next.job := job]))
  {
    PublisherLeaves(s, t, job);
    PublishFacts(s, t);
    PutPublish(s.(publishers := s.publishers - {t}, jobs := s.jobs[next.job := job]), t, next);
    assert (s.publishers - {t})[t := next] == s.publishers[t := next];
  }

  /** The holder of a completion lease that finds its job running is not fenced. */
  lemma PublisherUnfenced(s: State, t: Token)
    requires Safe(s) && Acting(s, t) && t in s.publishers && OwnedRunning(s, t, s.publishers[t].job)
    ensures !D.Fencing(s.deletions, s.jobs[s.publishers[t].job].root.tenant)
  {
    PublishFacts(s, t);
  }

  lemma CheckCompleteKeepsSafe(s: State, t: Token)
    requires Safe(s) && Acting(s, t) && t in s.publishers && s.publishers[t].stage.Requested?
    ensures Safe(CheckComplete(s, t))
  {
    var op := s.publishers[t];
    if OwnedRunning(s, t, op.job) && FullyStaged(s.jobs[op.job]) {
      PublishFacts(s, t);
      PutPublish(s, t, PublishOp(op.job, Checked(op.stage.known, s.jobs[op.job].cloudRevision)));
    } else {
      DropPublish(s, t);
    }
  }

  lemma HandedOffShaped(job: Job, now: Time, stored: Snapshot, hasWorkspace: bool)
    requires JobShape(job, stored, hasWorkspace) && FullyStaged(job)
    ensures JobShape(HandedOff(job, now), stored, hasWorkspace)
  {
    var after := HandedOff(job, now);
    forall f: Facet ensures Has(f, after, stored, hasWorkspace) { assert Has(f, job, stored, hasWorkspace); }
  }

  lemma HandedOffKeepsShape(s: State, t: Token)
    requires Safe(s) && Acting(s, t) && t in s.publishers && s.publishers[t].stage.Checked? && OwnedRunning(s, t, s.publishers[t].job)
    ensures KeepsShape(s, HandedOff(s.jobs[s.publishers[t].job], s.now))
  {
    var job := s.jobs[s.publishers[t].job];
    PublishFacts(s, t);
    PublisherUnfenced(s, t);
    JobFacts(s, s.publishers[t].job);
    HandedOffShaped(job, s.now, Stored(s.snapshots, job.root), job.root in s.workspaces);
  }

  lemma HandOffKeepsSafe(s: State, t: Token)
    requires Safe(s) && Acting(s, t) && t in s.publishers && s.publishers[t].stage.Checked?
    ensures Safe(HandOff(s, t))
  {
    var op := s.publishers[t];
    if OwnedRunning(s, t, op.job) {
      var job := HandedOff(s.jobs[op.job], s.now);
      var next := NextStage(op.stage.known, op.stage.recorded);
      HandedOffKeepsShape(s, t);
      if next.Some? {
        PublishFacts(s, t);
        PublisherMoves(s, t, job, PublishOp(op.job, next.value));
      } else {
        PublisherLeaves(s, t, job);
      }
    } else {
      DropPublish(s, t);
    }
  }

  lemma CallPublishKeepsSafe(s: State, t: Token)
    requires Safe(s) && Acting(s, t) && t in s.publishers && s.publishers[t].stage.Intended?
    ensures Safe(CallPublish(s, t))
  {
    var next := PublishOp(s.publishers[t].job, Asked);
    PublishFacts(s, t);
    PutPublish(s, t, next);
    WithSent(s.(publishers := s.publishers[t := next]), CallPublish(s, t).sent);
  }

  lemma BeatEvolves(jobs: Jobs, j: JobId, job: Job)
    requires RunningJob(jobs, j) && job.(heartbeat := 0) == jobs[j].(heartbeat := 0)
    ensures Evolves(jobs, jobs[j := job])
  {
  }

  lemma ReadPublishReplyKeepsSafe(s: State, t: Token, reply: Reply)
    requires Safe(s) && Acting(s, t) && t in s.publishers && s.publishers[t].stage.Asked?
    ensures Safe(ReadPublishReply(s, t, reply))
  {
    var j := s.publishers[t].job;
    PublishFacts(s, t);
    if ReportsFailure(reply) {
      PutPublish(s, t, PublishOp(j, Refused));
    } else if reply.word.SaysPublishing? {
      DropPublish(s, t);
      if OwnedRunning(s, t, j) {
        var job := s.jobs[j].(phase := Publishing, heartbeat := s.now);
        BeatEvolves(s.jobs, j, job);
        EvolveKeepsSafe(s.(publishers := s.publishers - {t}), s.jobs[j := job]);
      }
    } else if RevisionOf(reply).Some? {
      PutPublish(s, t, PublishOp(j, Answered(RevisionOf(reply).value)));
    } else {
      DropPublish(s, t);
    }
  }

  lemma RevisionShaped(job: Job, revision: int, now: Time, stored: Snapshot, hasWorkspace: bool)
    requires JobShape(job, stored, hasWorkspace)
    ensures JobShape(job.(cloudRevision := revision, heartbeat := now), stored, hasWorkspace)
  {
    var after := job.(cloudRevision := revision, heartbeat := now);
    forall f: Facet ensures Has(f, after, stored, hasWorkspace) { assert Has(f, job, stored, hasWorkspace); }
  }

  lemma RevisionKeepsShape(s: State, t: Token)
    requires Safe(s) && Acting(s, t) && t in s.publishers && s.publishers[t].stage.Answered? && OwnedRunning(s, t, s.publishers[t].job)
    ensures KeepsShape(s, s.jobs[s.publishers[t].job].(cloudRevision := s.publishers[t].stage.revision, heartbeat := s.now))
  {
    var job := s.jobs[s.publishers[t].job];
    PublisherUnfenced(s, t);
    JobFacts(s, s.publishers[t].job);
    RevisionShaped(job, s.publishers[t].stage.revision, s.now, Stored(s.snapshots, job.root), job.root in s.workspaces);
  }

  lemma RecordRevisionKeepsSafe(s: State, t: Token, stored: bool)
    requires Safe(s) && Acting(s, t) && t in s.publishers && s.publishers[t].stage.Answered?
    ensures Safe(RecordRevision(s, t, stored))
  {
    var op := s.publishers[t];
    var next := PublishOp(op.job, Confirmed(op.stage.revision));
    PublishFacts(s, t);
    if stored && OwnedRunning(s, t, op.job) {
      WithRevisions(s, Remember(s.revisions, op.job, op.stage.revision));
      RevisionKeepsShape(s, t);
      PublisherMoves(s.(revisions := Remember(s.revisions, op.job, op.stage.revision)), t,
                     s.jobs[op.job].(cloudRevision := op.stage.revision, heartbeat := s.now), next);
    } else {
      PutPublish(s, t, next);
    }
  }

  // ---- replacing the snapshot of a root -----------------------------------------------------------------

  /** `after` differs from `before` at most on `root`. */
  ghost predicate SameElsewhere<V>(before: map<Root, V>, after: map<Root, V>, root: Root) {
    forall r | r != root :: (r in after <==> r in before) && (r in before ==> after[r] == before[r])
  }

  lemma SwapKeepsTables(jobs: Jobs, root: Root, snapshots: map<Root, Snapshot>, snapshots': map<Root, Snapshot>, workspaces: map<Root, int>, workspaces': map<Root, int>)
    requires SameElsewhere(snapshots, snapshots', root) && SameElsewhere(workspaces, workspaces', root)
    requires !RunningOn(jobs, root) && JobsShaped(jobs, snapshots, workspaces) && FilesHaveWorkspace(snapshots, workspaces)
    requires Stored(snapshots', root) != map[] ==> root in workspaces'
    ensures JobsShaped(jobs, snapshots', workspaces') && FilesHaveWorkspace(snapshots', workspaces')
  {
  }

  lemma SwapKeepsDismissals(leases: Leases.Table, dismissals: map<Token, DismissOp>, jobs: Jobs, root: Root, snapshots: map<Root, Snapshot>, snapshots': map<Root, Snapshot>, t: Token)
    requires Compatible(leases) && SameElsewhere(snapshots, snapshots', root) && DismissalsOk(leases, dismissals, jobs, snapshots)
    requires Stored(snapshots', root) == map[] || (t in leases && leases[t].tenant == root.tenant && t !in dismissals)
    ensures DismissalsOk(leases, dismissals, jobs, snapshots')
  {
  }

  /** A root without running jobs gets a new snapshot, or loses it, under a lease of its tenant. */
  lemma SwapKeepsSafe(s: State, root: Root, snapshots: map<Root, Snapshot>, workspaces: map<Root, int>, t: Token)
    requires Safe(s) && SameElsewhere(s.snapshots, snapshots, root) && SameElsewhere(s.workspaces, workspaces, root)
    requires !RunningOn(s.jobs, root) && (Stored(snapshots, root) != map[] ==> root in workspaces)
    requires Stored(snapshots, root) == map[] || (t in s.leases && s.leases[t].tenant == root.tenant && t !in s.dismissals)
    ensures Safe(s.(snapshots := snapshots, workspaces := workspaces))
  {
    Given(JobTables, s);
    Given(StoredFiles, s);
    SwapKeepsTables(s.jobs, root, s.snapshots, snapshots, s.workspaces, workspaces);
    Given(LeaseRows, s);
    Given(DismissOps, s);
    SwapKeepsDismissals(s.leases, s.dismissals, s.jobs, root, s.snapshots, snapshots, t);
    var s' := s.(snapshots := snapshots, workspaces := workspaces);
    forall c: Condition ensures Holds(c, s') { Given(c, s); }
  }

  lemma EndLeavesNone(jobs: Jobs, j: JobId, job: Job)
    requires OneRunning(jobs) && RunningJob(jobs, j) && job.status != Running && job.root == jobs[j].root
    ensures !RunningOn(jobs[j := job], job.root)
  {
  }

  lemma CommitSnapshotKeepsSafe(s: State, t: Token)
    requires Safe(s) && Acting(s, t) && t in s.publishers && s.publishers[t].stage.Confirmed?
    ensures Safe(CommitSnapshot(s, t))
  {
    var j := s.publishers[t].job;
    PublishFacts(s, t);
    if OwnedRunning(s, t, j) && FullyStaged(s.jobs[j]) {
      var revision := s.publishers[t].stage.revision;
      var job := CompletedJob(s.jobs[j], revision, s.now);
      PublisherLeaves(s, t, job);
      Given(RunningJobs, s);
      EndLeavesNone(s.jobs, j, job);
      KindsExclude(s, t);
      var s1 := s.(publishers := s.publishers - {t}, jobs := s.jobs[j := job]);
      WithRevisions(s1, Remember(s.revisions, j, revision));
      SwapKeepsSafe(s1.(revisions := Remember(s.revisions, j, revision)), job.root,
                    CommitSnapshot(s, t).snapshots, CommitSnapshot(s, t).workspaces, t);
    } else {
      DropPublish(s, t);
    }
  }

  lemma FinishFailedKeepsSafe(s: State, t: Token)
    requires Safe(s) && Acting(s, t) && t in s.publishers
    ensures Safe(FinishFailed(s, t))
  {
    var j := s.publishers[t].job;
    if OwnedRunning(s, t, j) {
      PublisherLeaves(s, t, Ended(s.jobs[j], Failed(PublicationFailed)).(heartbeat := s.now));
    } else {
      DropPublish(s, t);
    }
  }

  lemma CheckReconcileKeepsSafe(s: State, t: Token)
    requires Safe(s) && Acting(s, t) && t in s.publishers
    ensures Safe(CheckReconcile(s, t))
  {
    var j := s.publishers[t].job;
    PublishFacts(s, t);
    if OwnedRunning(s, t, j) && s.jobs[j].phase == Publishing {
      PutPublish(s, t, PublishOp(j, StatusCalled));
    } else {
      DropPublish(s, t);
    }
  }

  /** Once past the handoff an operation may move to any later stage, and send anything. */
  lemma PublisherProceeds(s: State, t: Token, stage: PublishStage, sent: set<Message>)
    requires Safe(s) && Acting(s, t) && t in s.publishers && PastHandoff(s.publishers[t].stage) && !stage.Checked? && !stage.Intended?
    ensures Safe(s.(publishers := s.publishers[t := PublishOp(s.publishers[t].job, stage)], sent := sent))
  {
    PublishFacts(s, t);
    PutPublish(s, t, PublishOp(s.publishers[t].job, stage));
    WithSent(s.(publishers := s.publishers[t := PublishOp(s.publishers[t].job, stage)]), sent);
  }

  lemma ReadStatusReplyKeepsSafe(s: State, t: Token, reply: Option<Reply>)
    requires Safe(s) && Acting(s, t) && t in s.publishers && s.publishers[t].stage.StatusCalled?
    ensures Safe(ReadStatusReply(s, t, reply))
  {
    var next := StageAfterStatus(reply, Overdue(s, s.publishers[t].job));
    if next.Some? {
      PublisherProceeds(s, t, next.value, ReadStatusReply(s, t, reply).sent);
    } else {
      DropPublish(s, t);
    }
  }

  lemma ReadAbortReplyKeepsSafe(s: State, t: Token, reply: Reply)
    requires Safe(s) && Acting(s, t) && t in s.publishers && s.publishers[t].stage.AbortCalled?
    ensures Safe(ReadAbortReply(s, t, reply))
  {
    PublishFacts(s, t);
    PutPublish(s, t, PublishOp(s.publishers[t].job, Refused));
    DropPublish(s, t);
  }

  lemma PublishStepKeepsSafe(s: State, a: PublishAction)
    requires Safe(s)
    ensures Safe(DoPublish(s, a))
  {
    if PublishEnabled(s, a) {
      match a
      case CheckCompleteA(t) => CheckCompleteKeepsSafe(s, t);
      case HandOffA(t) => HandOffKeepsSafe(s, t);
      case CallPublishA(t) => CallPublishKeepsSafe(s, t);
      case ReadPublishReplyA(t, reply) => ReadPublishReplyKeepsSafe(s, t, reply);
      case RecordRevisionA(t, stored) => RecordRevisionKeepsSafe(s, t, stored);
      case CommitSnapshotA(t) => CommitSnapshotKeepsSafe(s, t);
      case FinishFailedA(t) => FinishFailedKeepsSafe(s, t);
      case CheckReconcileA(t) => CheckReconcileKeepsSafe(s, t);
      case ReadStatusReplyA(t, status) => ReadStatusReplyKeepsSafe(s, t, status);
      case ReadAbortReplyA(t, reply) => ReadAbortReplyKeepsSafe(s, t, reply);
    }
  }

  // ---- client failure, heartbeat, sweep, dismissal -----------------------------------------------------

  lemma CheckFailKeepsSafe(s: State, t: Token)
    requires Safe(s) && Acting(s, t) && t in s.fails
    ensures Safe(CheckFail(s, t))
  {
    FailFacts(s, t);
    DropFail(s, t);
    var j := s.fails[t].job;
    if j in s.jobs && s.jobs[j].root.tenant == s.leases[t].tenant && s.jobs[j].phase != Publishing {
      PutFail(s, t, FailOp(j, true));
    }
  }

  lemma CommitFailKeepsSafe(s: State, t: Token)
    requires Safe(s) && Acting(s, t) && t in s.fails && s.fails[t].checked
    ensures Safe(CommitFail(s, t))
  {
    var j := s.fails[t].job;
    FailFacts(s, t);
    DropFail(s, t);
    if OwnedRunning(s, t, j) {
      var s1 := s.(fails := s.fails - {t});
      var job := Ended(s.jobs[j], Failed(ClientReported)).(heartbeat := s.now);
      EndEvolves(s.jobs, j, job);
      EvolveKeepsSafe(s1, s.jobs[j := job]);
      WithSent(s1.(jobs := s.jobs[j := job]), s.sent + {Abort(j)});
    }
  }

  lemma BeatKeepsSafe(s: State, j: JobId)
    requires Safe(s) && RunningJob(s.jobs, j)
    ensures Safe(s.(jobs := s.jobs[j := s.jobs[j].(heartbeat := s.now)]))
  {
    BeatEvolves(s.jobs, j, s.jobs[j].(heartbeat := s.now));
    EvolveKeepsSafe(s, s.jobs[j := s.jobs[j].(heartbeat := s.now)]);
  }

  lemma SweepKeepsSafe(s: State, seen: set<JobId>)
    requires Safe(s)
    ensures Safe(Sweep(s, seen))
  {
    var expired := Sweepable(s) * seen;
    TimeOutEvolves(s.jobs, expired);
    EvolveKeepsSafe(s, TimeOut(s.jobs, expired));
    WithSent(s.(jobs := TimeOut(s.jobs, expired)), Sweep(s, seen).sent);
  }

  lemma CheckDismissKeepsSafe(s: State, t: Token)
    requires Safe(s) && Acting(s, t) && t in s.dismissals
    ensures Safe(CheckDismiss(s, t))
  {
    var root := s.dismissals[t].root;
    if RunningOn(s.jobs, root) {
      DropDismiss(s, t);
    } else {
      DismissFacts(s, t);
      Given(StoredFiles, s);
      PutDismiss(s, t, DismissOp(root, DismissReady(root in s.workspaces && Stored(s.snapshots, root) != map[])));
    }
  }

  lemma CallWipeKeepsSafe(s: State, t: Token)
    requires Safe(s) && Acting(s, t) && t in s.dismissals && s.dismissals[t].stage == DismissReady(false)
    ensures Safe(CallWipe(s, t))
  {
    var root := s.dismissals[t].root;
    DismissFacts(s, t);
    PutDismiss(s, t, DismissOp(root, WipeCalled));
    WithSent(s.(dismissals := s.dismissals[t := DismissOp(root, WipeCalled)]), s.sent + {Wipe(t, root)});
  }

  lemma ReadWipeReplyKeepsSafe(s: State, t: Token)
    requires Safe(s) && Acting(s, t) && t in s.dismissals && s.dismissals[t].stage.WipeCalled?
    ensures Safe(ReadWipeReply(s, t))
  {
    DismissFacts(s, t);
    PutDismiss(s, t, DismissOp(s.dismissals[t].root, Wiped));
  }

  lemma DismissEvolves(jobs: Jobs, root: Root)
    ensures Evolves(jobs, WithoutDismissed(jobs, root))
  {
  }

  lemma CommitDismissKeepsSafe(s: State, t: Token)
    requires Safe(s) && Acting(s, t) && t in s.dismissals && !s.dismissals[t].stage.DismissEntered?
    ensures Safe(CommitDismiss(s, t))
  {
    var root := s.dismissals[t].root;
    var jobs := CommitDismiss(s, t).jobs;
    DismissFacts(s, t);
    DropDismiss(s, t);
    var s1 := s.(dismissals := s.dismissals - {t});
    DismissEvolves(s.jobs, root);
    EvolveKeepsSafe(s1, jobs);
    RunningOnShrinks(s.jobs, jobs, root);
    if s.dismissals[t].stage.Wiped? {
      SwapKeepsSafe(s1.(jobs := jobs), root, s.snapshots, s.workspaces - {root}, t);
    }
  }

  lemma EndingStepKeepsSafe(s: State, a: EndingAction)
    requires Safe(s)
    ensures Safe(DoEnding(s, a))
  {
    if EndingEnabled(s, a) {
      match a
      case CheckFailA(t) => CheckFailKeepsSafe(s, t);
      case CommitFailA(t) => CommitFailKeepsSafe(s, t);
      case BeatA(tenant, id) => if RunningJob(s.jobs, id) { BeatKeepsSafe(s, id); }
      case RotateA(id) => if RunningJob(s.jobs, id) { BeatKeepsSafe(s, id); }
      case SweepA(seen) => SweepKeepsSafe(s, seen);
      case CheckDismissA(t) => CheckDismissKeepsSafe(s, t);
      case CallWipeA(t) => CallWipeKeepsSafe(s, t);
      case ReadWipeReplyA(t) => ReadWipeReplyKeepsSafe(s, t);
      case CommitDismissA(t) => CommitDismissKeepsSafe(s, t);
    }
  }

  // ---- durable deletion -----------------------------------------------------------------------------------

  /** The fence may widen only over a tenant that has no running job. */
  lemma FenceChangeKeepsHandoffFence(deletions: D.Table, after: D.Table, leases: Leases.Table, publishers: map<Token, PublishOp>, jobs: Jobs)
    requires FenceExcludesHandoff(deletions, jobs) && FencedAreHarmless(deletions, leases, publishers, jobs)
    requires forall tenant | D.Fencing(after, tenant) :: D.Fencing(deletions, tenant) || !RunningJobOf(jobs, tenant)
    ensures FenceExcludesHandoff(after, jobs) && FencedAreHarmless(after, leases, publishers, jobs)
  {
  }

  lemma FenceChangeKeepsLeases(s: State, deletions: D.Table)
    requires LeasesUnfenced(s.leases, s.now, s.deletions, s.configs, s.late) && JobsUnfenced(s.jobs, s.deletions, s.late) && MayFence(s, deletions)
    ensures LeasesUnfenced(s.leases, s.now, deletions, s.configs, s.late) && JobsUnfenced(s.jobs, deletions, s.late)
  {
  }

  /** A deletion becomes active only over a tenant with no running job and no live lease. */
  ghost predicate MayFence(s: State, deletions: D.Table) {
    forall tenant, id | D.ActiveIn(deletions, tenant, id) ::
      D.ActiveIn(s.deletions, tenant, id) || (!RunningJobOf(s.jobs, tenant) && !LiveLeaseOf(s, tenant))
  }

  lemma FenceChangeKeepsSafe(s: State, deletions: D.Table, claims: set<D.Claim>, cleaned: seq<string>)
    requires Safe(s) && D.OneActive(deletions) && MayFence(s, deletions) && FencesApart(deletions, s.configs)
    requires Dutiful(BookOf(s).(deletions := deletions, claims := claims, cleaned := cleaned))
    ensures Safe(s.(deletions := deletions, claims := claims, cleaned := cleaned))
  {
    Given(FencedJobs, s);
    Given(FencedPublishers, s);
    FenceChangeKeepsHandoffFence(s.deletions, deletions, s.leases, s.publishers, s.jobs);
    Given(LiveLeases, s);
    Given(FencedRunning, s);
    FenceChangeKeepsLeases(s, deletions);
    var s' := s.(deletions := deletions, claims := claims, cleaned := cleaned);
    forall c: Condition ensures Holds(c, s') { Given(c, s); }
  }

  lemma ShrinkingFenceKeepsSafe(s: State, deletions: D.Table, claims: set<D.Claim>, cleaned: seq<string>)
    requires Safe(s) && D.NoNewActive(s.deletions, deletions)
    requires Dutiful(BookOf(s).(deletions := deletions, claims := claims, cleaned := cleaned))
    ensures Safe(s.(deletions := deletions, claims := claims, cleaned := cleaned))
  {
    Given(ActiveDeletions, s);
    D.NoNewActiveKeepsOneActive(s.deletions, deletions);
    Given(Fences, s);
    D.NoNewActiveKeepsIdle(s.deletions, deletions);
    FenceChangeKeepsSafe(s, deletions, claims, cleaned);
  }

  lemma SubmittedMayFence(s: State, root: Root, newId: string, retry: Option<string>, limited: bool)
    requires Safe(s) && newId !in s.deletions
    ensures MayFence(s, SubmitDeletion(s, root, newId, retry, limited).deletions)
    ensures FencesApart(SubmitDeletion(s, root, newId, retry, limited).deletions, s.configs)
  {
    var busy := DeletionBusy(s, root.tenant);
    var deletions := SubmitDeletion(s, root, newId, retry, limited).deletions;
    forall tenant, id | D.ActiveIn(deletions, tenant, id)
      ensures D.ActiveIn(s.deletions, tenant, id) || (!RunningJobOf(s.jobs, tenant) && !LiveLeaseOf(s, tenant))
    {
      D.SubmittedFence(s.deletions, root, newId, retry, busy, limited, s.now, tenant, id);
    }
    Given(Fences, s);
    D.SubmittedIdle(s.deletions, root, newId, retry, busy, limited, s.now);
  }

  lemma SubmitDeletionKeepsSafe(s: State, root: Root, newId: string, retry: Option<string>, limited: bool)
    requires Safe(s) && FreshDeletion(s, newId)
    ensures Safe(SubmitDeletion(s, root, newId, retry, limited))
  {
    Given(ActiveDeletions, s);
    D.SubmittedKeepsOneActive(s.deletions, root, newId, retry, DeletionBusy(s, root.tenant), limited, s.now);
    SubmittedMayFence(s, root, newId, retry, limited);
    Given(Duties, s);
    SubmittedKeeps(BookOf(s), root, newId, retry, DeletionBusy(s, root.tenant), limited);
    FenceChangeKeepsSafe(s, SubmitDeletion(s, root, newId, retry, limited).deletions, s.claims, s.cleaned);
  }

  lemma ClaimDeletionKeepsSafe(s: State, flagged: set<string>, pick: Option<string>, attempt: string)
    requires Safe(s) && (pick.Some? ==> pick.value in s.deletions && D.Claimable(s.deletions[pick.value], s.now))
    requires forall id | id in flagged :: id in s.deletions && D.Spent(s.deletions[id], s.now)
    requires forall c | c in s.claims :: c.attempt != attempt
    ensures Safe(ClaimDeletion(s, flagged, pick, attempt))
  {
    var deletions := D.Claimed(s.deletions, flagged, pick, attempt, s.now);
    D.ClaimedNoNewActive(s.deletions, flagged, pick, attempt, s.now);
    Given(Duties, s);
    ClaimDeletionKeeps(BookOf(s), flagged, pick, attempt);
    ShrinkingFenceKeepsSafe(s, deletions, D.WithClaim(s.claims, deletions, pick, attempt), s.cleaned);
  }

  lemma DeleteMovesKeepsSafe(s: State, t: Token, stage: DeleteStage, sent: set<Message>)
    requires Safe(s) && Acting(s, t) && t in s.deletes
    ensures Safe(s.(deletes := s.deletes[t := DeleteOp(s.deletes[t].claim, stage)], sent := sent))
  {
    DeleteFacts(s, t);
    PutDelete(s, t, DeleteOp(s.deletes[t].claim, stage));
    WithSent(s.(deletes := s.deletes[t := DeleteOp(s.deletes[t].claim, stage)]), sent);
  }

  lemma RootRemovalEvolves(jobs: Jobs, root: Root)
    requires forall j | PublishingJob(jobs, j) :: jobs[j].root != root
    ensures Evolves(jobs, WithoutRoot(jobs, root))
    ensures !RunningOn(WithoutRoot(jobs, root), root)
  {
  }

  /** A fenced tenant has no handed-off job, so the removal of a root's jobs ends none of them. */
  lemma FencedRootHasNoHandoff(s: State, claim: D.Claim)
    requires Safe(s) && D.Current(s.deletions, claim, s.now)
    ensures forall j | PublishingJob(s.jobs, j) :: s.jobs[j].root != claim.root
  {
    Given(FencedJobs, s);
    assert D.ActiveIn(s.deletions, claim.root.tenant, claim.id);
  }

  lemma EmptiedRootKeepsSafe(s: State, root: Root, t: Token)
    requires Safe(s) && !RunningOn(s.jobs, root)
    ensures Safe(s.(snapshots := WithoutFiles(s.snapshots, s.workspaces, root), workspaces := s.workspaces - {root}))
  {
    Given(StoredFiles, s);
    SwapKeepsSafe(s, root, WithoutFiles(s.snapshots, s.workspaces, root), s.workspaces - {root}, t);
  }

  lemma RootRemovalKeepsSafe(s: State, claim: D.Claim, t: Token)
    requires Safe(s) && D.Current(s.deletions, claim, s.now)
    ensures Safe(s.(jobs := WithoutRoot(s.jobs, claim.root),
                    snapshots := WithoutFiles(s.snapshots, s.workspaces, claim.root),
                    workspaces := s.workspaces - {claim.root}))
  {
    FencedRootHasNoHandoff(s, claim);
    RootRemovalEvolves(s.jobs, claim.root);
    EvolveKeepsSafe(s, WithoutRoot(s.jobs, claim.root));
    EmptiedRootKeepsSafe(s.(jobs := WithoutRoot(s.jobs, claim.root)), claim.root, t);
  }

  lemma FinishDeletionKeepsSafe(s: State, t: Token)
    requires Safe(s) && Acting(s, t) && t in s.deletes && s.deletes[t].stage.ReceiptRead?
    ensures Safe(FinishDeletion(s, t))
  {
    var claim := s.deletes[t].claim;
    DropDelete(s, t);
    if D.Current(s.deletions, claim, s.now) {
      var s' := FinishDeletion(s, t);
      var s1 := s.(deletes := s.deletes - {t});
      RootRemovalKeepsSafe(s1, claim, t);
      var s2 := s1.(jobs := s'.jobs, snapshots := s'.snapshots, workspaces := s'.workspaces);
      Given(Duties, s);
      FinishedKeeps(BookOf(s), claim, s'.deletions[claim.id].deletedFiles);
      ShrinkingFenceKeepsSafe(s2, s'.deletions, s.claims, s'.cleaned);
    }
  }

  lemma RecordErrorKeepsSafe(s: State, claim: D.Claim, deferOnly: bool)
    requires Safe(s) && claim in s.claims
    ensures Safe(RecordDeletionError(s, claim, deferOnly))
  {
    Given(Duties, s);
    RecordErrorKeeps(BookOf(s), claim, deferOnly);
    ShrinkingFenceKeepsSafe(s, D.Recorded(s.deletions, claim, deferOnly, s.now), s.claims, s.cleaned);
  }

  lemma PruneKeepsSafe(s: State, ids: set<string>)
    requires Safe(s)
    ensures Safe(PruneDeletions(s, ids))
  {
    Given(Duties, s);
    PrunedKeeps(BookOf(s), ids);
    ShrinkingFenceKeepsSafe(s, D.Pruned(s.deletions, ids, s.now), s.claims, s.cleaned);
  }

  lemma DeletionStepKeepsSafe(s: State, a: DeletionAction)
    requires Safe(s)
    ensures Safe(DoDeletion(s, a))
  {
    if DeletionEnabled(s, a) {
      match a
      case SubmitDeletionA(root, newId, retry, limited) => SubmitDeletionKeepsSafe(s, root, newId, retry, limited);
      case ClaimDeletionA(flagged, pick, attempt) => ClaimDeletionKeepsSafe(s, flagged, pick, attempt);
      case RecordDeletionErrorA(claim, deferOnly) => RecordErrorKeepsSafe(s, claim, deferOnly);
      case CheckDeletionCurrentA(t) =>
        DropDelete(s, t);
        DeleteMovesKeepsSafe(s, t, DeleteCurrent, s.sent);
      case CallClearA(t) => DeleteMovesKeepsSafe(s, t, ClearCalled, DoDeletion(s, a).sent);
      case ReadReceiptA(t, _, receipt) =>
        DropDelete(s, t);
        DeleteMovesKeepsSafe(s, t, ReceiptRead(receipt.files), s.sent);
      case FinishDeletionA(t) => FinishDeletionKeepsSafe(s, t);
      case PruneDeletionsA(ids) => PruneKeepsSafe(s, ids);
    }
  }

  // ---- configuration and upstream ---------------------------------------------------------------------------

  /** An embedding change becomes active only while no lease is live and no deletion active. */
  lemma ConfigsKeepSafe(s: State, configs: C.Table, claims: set<C.Claim>)
    requires Safe(s) && forall id | C.ResetBy(configs, id) :: C.ResetBy(s.configs, id) || !IndexBusy(s)
    requires Dutiful(BookOf(s).(configs := configs, configClaims := claims))
    ensures Safe(s.(configs := configs, configClaims := claims))
  {
    var s' := s.(configs := configs, configClaims := claims);
    forall c: Condition ensures Holds(c, s') { Given(c, s); }
  }

  lemma ResetKeepsSafe(s: State, configs: C.Table, resets: seq<string>)
    requires Safe(s) && forall id | C.ResetBy(configs, id) :: C.ResetBy(s.configs, id)
    requires Dutiful(BookOf(s).(configs := configs, resets := resets))
    ensures Safe(s.(configs := configs, leases := map[], jobs := map[], snapshots := map[], workspaces := map[], resets := resets))
  {
    var s' := s.(configs := configs, leases := map[], jobs := map[], snapshots := map[], workspaces := map[], resets := resets);
    forall c: Condition ensures Holds(c, s') { Given(c, s); }
  }

  lemma SettleConfigKeepsSafe(s: State, claim: C.Claim, receipt: C.Receipt)
    requires Safe(s) && claim in s.configClaims
    ensures Safe(SettleConfig(s, claim, receipt))
  {
    if C.Settles(s.configs, claim, receipt, s.now) {
      var configs := C.Settled(s.configs, claim, receipt);
      C.NoNewActiveKeepsReset(s.configs, configs);
      Given(Duties, s);
      SettledKeeps(BookOf(s), claim, receipt);
      if C.ClearsRelay(claim, receipt) {
        ResetKeepsSafe(s, configs, s.resets + [claim.id]);
      } else {
        ConfigsKeepSafe(s, configs, s.configClaims);
      }
    }
  }

  lemma EnqueueConfigKeepsSafe(s: State, id: string, section: string, embeddingChanged: bool)
    requires Safe(s)
    ensures Safe(EnqueueConfig(s, id, section, embeddingChanged))
  {
    C.EnqueuedReset(s.configs, id, section, embeddingChanged, IndexBusy(s), s.now);
    Given(Duties, s);
    EnqueuedKeeps(BookOf(s), id, section, embeddingChanged, IndexBusy(s));
    ConfigsKeepSafe(s, EnqueueConfig(s, id, section, embeddingChanged).configs, s.configClaims);
  }

  lemma ActiveConfigsKeepSafe(s: State, configs: C.Table, claims: set<C.Claim>)
    requires Safe(s) && C.NoNewActive(s.configs, configs) && Dutiful(BookOf(s).(configs := configs, configClaims := claims))
    ensures Safe(s.(configs := configs, configClaims := claims))
  {
    C.NoNewActiveKeepsReset(s.configs, configs);
    ConfigsKeepSafe(s, configs, claims);
  }

  lemma ClaimConfigKeepsSafe(s: State, pick: Option<string>, attempt: string)
    requires Safe(s) && (pick.Some? ==> pick.value in s.configs && C.Claimable(s.configs[pick.value], s.now))
    ensures Safe(ClaimConfig(s, pick, attempt))
  {
    C.ClaimedNoNewActive(s.configs, pick, attempt, s.now);
    Given(Duties, s);
    ClaimConfigKeeps(BookOf(s), pick, attempt);
    ActiveConfigsKeepSafe(s, ClaimConfig(s, pick, attempt).configs, ClaimConfig(s, pick, attempt).configClaims);
  }

  lemma PostponeConfigKeepsSafe(s: State, claim: C.Claim)
    requires Safe(s)
    ensures Safe(PostponeConfig(s, claim))
  {
    Given(Duties, s);
    PostponedKeeps(BookOf(s), claim);
    ActiveConfigsKeepSafe(s, C.Postponed(s.configs, claim, s.now), s.configClaims);
  }

  lemma RecoverConfigKeepsSafe(s: State, id: string)
    requires Safe(s)
    ensures Safe(RecoverConfig(s, id))
  {
    Given(Duties, s);
    RecoveredKeeps(BookOf(s), id);
    ActiveConfigsKeepSafe(s, C.Resumed(s.configs, id, s.now), s.configClaims);
  }

  lemma ConfigStepKeepsSafe(s: State, a: ConfigAction)
    requires Safe(s)
    ensures Safe(DoConfig(s, a))
  {
    if ConfigEnabled(s, a) {
      match a
      case EnqueueConfigA(id, section, embeddingChanged) => EnqueueConfigKeepsSafe(s, id, section, embeddingChanged);
      case ClaimConfigA(pick, attempt) => ClaimConfigKeepsSafe(s, pick, attempt);
      case SettleConfigA(claim, outcome) => SettleConfigKeepsSafe(s, claim, outcome);
      case PostponeConfigA(claim) => PostponeConfigKeepsSafe(s, claim);
      case RecoverConfigA(id) => RecoverConfigKeepsSafe(s, id);
    }
  }

  lemma CloudStepKeepsSafe(s: State, a: CloudAction)
    requires Safe(s)
    ensures Safe(DoCloud(s, a))
  {
    WithDoubts(s, DoCloud(s, a).doubts);
    WithCloud(s.(doubts := DoCloud(s, a).doubts), CloudAfter(s, a));
  }

  lemma StepKeepsSafe(s: State, a: Action)
    requires Safe(s)
    ensures Safe(Do(s, a))
  {
    match a
    case LeaseStep(x) => LeaseStepKeepsSafe(s, x);
    case UploadStep(x) => UploadStepKeepsSafe(s, x);
    case PublishStep(x) => PublishStepKeepsSafe(s, x);
    case EndingStep(x) => EndingStepKeepsSafe(s, x);
    case DeletionStep(x) => DeletionStepKeepsSafe(s, x);
    case ConfigStep(x) => ConfigStepKeepsSafe(s, x);
    case CloudStep(x) => CloudStepKeepsSafe(s, x);
  }

  lemma InitiallySafe(now: Time)
    ensures Safe(Initial(now))
  {
  }
}
