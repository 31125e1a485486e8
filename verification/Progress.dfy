/** The guards are not too strict: any manifest can be indexed on a root of an idle, unfenced tenant. */
module Progress {
  import opened RelayTypes
  import opened Leases
  import opened Manifest
  import opened IndexJobs
  import opened Upstream
  import opened ControlPlane
  import D = RootDeletion
  import C = PlatformConfig
  import T = Theorems

  /** No lease of the tenant is live, and none would be refused by a fence. */
  ghost predicate Free(s: State, tenant: Tenant) {
    && (forall u | u in s.leases && s.leases[u].tenant == tenant :: !Live(s.leases[u], s.now))
    && !D.Fencing(s.deletions, tenant) && !C.Resetting(s.configs)
  }

  /** `t` holds the only live lease of the tenant. */
  ghost predicate Alone(s: State, t: Token, tenant: Tenant) {
    && Acting(s, t) && s.leases[t].tenant == tenant
    && (forall u | u in s.leases && u != t && s.leases[u].tenant == tenant :: !Live(s.leases[u], s.now))
    && !D.Fencing(s.deletions, tenant) && !C.Resetting(s.configs)
  }

  predicate Lost(jobs: map<JobId, Job>, j: JobId) {
    j in jobs && jobs[j].lost
  }

  /** Between `s` and `s'` only the operations `used` acted, and only for job `j`. */
  ghost predicate Calm(s: State, s': State, used: set<Token>, j: JobId) {
    && s'.now == s.now && s'.deletions == s.deletions && s'.configs == s.configs
    && s'.resets == s.resets && s'.late == s.late && s.sent <= s'.sent
    && s'.doubts == s.doubts.(parted := s'.doubts.parted) && (Lost(s.jobs, j) || s'.doubts.parted <= s.doubts.parted)
    && (Lost(s'.jobs, j) ==> Lost(s.jobs, j))
    && (forall i | i in s'.jobs && i != j :: i in s.jobs && s'.jobs[i] == s.jobs[i])
    && (forall u | u in s.creates && u !in used :: u in s'.creates && s'.creates[u] == s.creates[u])
    && (forall u | FreshToken(s, u) && u !in used :: FreshToken(s', u))
  }

  lemma CalmThrough(s: State, s': State, s'': State, used: set<Token>, more: set<Token>, j: JobId)
    requires Calm(s, s', used, j) && Calm(s', s'', more, j)
    ensures Calm(s, s'', used + more, j)
  {
  }

  /** The attempt of a free tenant's operation is granted. */
  lemma AttemptSucceeds(s: State, t: Token, wanted: Lease)
    requires t !in s.leases && Free(s, wanted.tenant) && wanted.kind != DeleteRootJob
    ensures t in Attempt(s, t, wanted) && Attempt(s, t, wanted)[t] == wanted.(expires := s.now + LEASE_DURATION)
    ensures forall u | u in Attempt(s, t, wanted) && u != t :: u in s.leases && Attempt(s, t, wanted)[u] == s.leases[u]
  {
    AttemptShape(s.leases, t, wanted, s.now, Fenced(s.deletions, s.configs, wanted.tenant, wanted.kind));
    assert LiveUploadSlots(s.leases, wanted, s.now) == {};
  }

  lemma UpstreamIsCalm(s: State, cloud: Cloud, j: JobId)
    ensures Calm(s, s.(cloud := cloud), {}, j)
  {
    var s' := s.(cloud := cloud);
    assert s'.doubts == s.doubts && s'.jobs == s.jobs && s'.creates == s.creates;
    forall u | FreshToken(s, u) ensures FreshToken(s', u) {}
  }

  lemma QuietlyArrives(s: State, m: Message)
    requires m in s.sent && !m.Wipe? && !m.Clear?
    ensures CloudAfter(s, ArriveA(m)) == Arrive(s.cloud, m) && PartedAfter(s, ArriveA(m)) == s.doubts.parted
  {
  }

  /** A message about jobs changes nothing but upstream. */
  lemma QuietArrival(s: State, m: Message, j: JobId)
    requires m in s.sent && !m.Wipe? && !m.Clear?
    ensures DoCloud(s, ArriveA(m)) == s.(cloud := Arrive(s.cloud, m)) && Calm(s, s.(cloud := Arrive(s.cloud, m)), {}, j)
  {
    UpstreamIsCalm(s, Arrive(s.cloud, m), j);
    QuietlyArrives(s, m);
    assert s.doubts.(parted := s.doubts.parted) == s.doubts;
  }

  lemma ReleasedIsFree(s: State, t: Token, tenant: Tenant, j: JobId)
    requires Alone(s, t, tenant)
    ensures Free(Release(s, t), tenant) && Calm(s, Release(s, t), {t}, j) && Release(s, t) == DoLease(s, ReleaseA(t))
  {
    var s' := Release(s, t);
    forall u | FreshToken(s, u) && u != t ensures FreshToken(s', u) {}
  }

  lemma ReleaseIsPossible(s: State, t: Token, tenant: Tenant, j: JobId) returns (s': State)
    requires Reachable(s) && Alone(s, t, tenant)
    ensures Reachable(s') && Free(s', tenant) && Calm(s, s', {t}, j) && s' == s.(leases := s'.leases)
  {
    ReleasedIsFree(s, t, tenant, j);
    LeaseReaches(s, ReleaseA(t));
    s' := Release(s, t);
  }

  // ---- start ---------------------------------------------------------------------------------------------

  ghost predicate Creating(s: State, t: Token, root: Root, stage: CreateStage) {
    Alone(s, t, root.tenant) && s.leases[t].kind == CreateJob && t in s.creates && s.creates[t] == CreateOp(root, stage)
  }

  lemma StartCreateAt(s: State, t: Token, root: Root, j: JobId)
    requires FreshToken(s, t) && Free(s, root.tenant)
    ensures var s' := StartCreate(s, t, root);
            && Creating(s', t, root, Entered) && Calm(s, s', {t}, j) && s' == DoLease(s, StartCreateA(t, root))
            && s' == s.(leases := s'.leases, creates := s.creates[t := CreateOp(root, Entered)])
  {
    AttemptSucceeds(s, t, OnTenant(root.tenant, CreateJob));
    var s' := StartCreate(s, t, root);
    forall u | FreshToken(s, u) && u != t ensures FreshToken(s', u) {}
  }

  lemma NothingToTimeOut(s: State, root: Root)
    requires !RunningOn(s.jobs, root)
    ensures !HealthyOn(s, root) && TimeOut(s.jobs, ExpiredOn(s, root)) == s.jobs && AbortsFor(s.jobs, ExpiredOn(s, root)) == {}
  {
    assert ExpiredOn(s, root) == {};
  }

  lemma InspectedAt(s: State, t: Token, root: Root)
    requires Creating(s, t, root, Entered) && !RunningOn(s.jobs, root)
    ensures InspectActive(s, t) == s.(creates := s.creates[t := CreateOp(root, Inspected)])
  {
    NothingToTimeOut(s, root);
  }

  lemma CreatingMoves(s: State, t: Token, root: Root, stage: CreateStage, next: CreateStage, j: JobId)
    requires Creating(s, t, root, stage)
    ensures var s' := s.(creates := s.creates[t := CreateOp(root, next)]); Creating(s', t, root, next) && Calm(s, s', {t}, j)
  {
    var s' := s.(creates := s.creates[t := CreateOp(root, next)]);
    forall u | FreshToken(s, u) && u != t ensures FreshToken(s', u) {}
  }

  lemma InsertedAt(s: State, t: Token, root: Root, j: JobId, manifest: Snapshot)
    requires Creating(s, t, root, Inspected)
    ensures var s' := Inserted(s, t, j, manifest);
            && Creating(s', t, root, Begun(j)) && Calm(s, s', {t}, j) && Begin(j, root, root !in s.workspaces) in s'.sent
            && j in s'.jobs && s'.jobs[j] == NewJob(root, root !in s.workspaces, Stored(s.snapshots, root), manifest, s.now)
            && s'.snapshots == s.snapshots && s'.cloud == s.cloud
  {
    var s' := Inserted(s, t, j, manifest);
    forall u | FreshToken(s, u) && u != t ensures FreshToken(s', u) {}
  }

  lemma InsertionInserts(s: State, t: Token, root: Root, j: JobId, manifest: Snapshot)
    requires Creating(s, t, root, Inspected) && !UpToDate(s, root, manifest) && FreshJob(s, j)
    ensures DoUpload(s, InsertJobA(t, j, manifest, {}, false)) == Inserted(s, t, j, manifest)
  {
    InsertJobInserts(s, t, root, j, manifest);
  }

  lemma GraftNothing(previous: Snapshot, manifest: Snapshot)
    ensures Graft(previous, manifest, {}) == manifest
  {
  }

  lemma InsertJobInsertsGrafted(s: State, t: Token, root: Root, j: JobId, manifest: Snapshot, files: Snapshot)
    requires Acting(s, t) && t in s.creates && s.creates[t].root == root
    requires files == Graft(Stored(s.snapshots, root), manifest, {}) && !UpToDate(s, root, files)
    ensures InsertJob(s, t, j, manifest, {}, false) == Inserted(s, t, j, files)
  {
  }

  lemma InsertJobInserts(s: State, t: Token, root: Root, j: JobId, manifest: Snapshot)
    requires Acting(s, t) && t in s.creates && s.creates[t].root == root && !UpToDate(s, root, manifest)
    ensures InsertJob(s, t, j, manifest, {}, false) == Inserted(s, t, j, manifest)
  {
    GraftNothing(Stored(s.snapshots, root), manifest);
    InsertJobInsertsGrafted(s, t, root, j, manifest, manifest);
  }

  lemma StartIsPossible(s: State, t: Token, root: Root, j: JobId) returns (s': State)
    requires Reachable(s) && FreshToken(s, t) && Free(s, root.tenant)
    ensures Reachable(s') && Creating(s', t, root, Entered) && Calm(s, s', {t}, j)
    ensures s' == s.(leases := s'.leases, creates := s.creates[t := CreateOp(root, Entered)])
  {
    StartCreateAt(s, t, root, j);
    LeaseReaches(s, StartCreateA(t, root));
    s' := StartCreate(s, t, root);
  }

  lemma InspectionIsPossible(s: State, t: Token, root: Root, j: JobId) returns (s': State)
    requires Reachable(s) && Creating(s, t, root, Entered) && !RunningOn(s.jobs, root)
    ensures Reachable(s') && Creating(s', t, root, Inspected) && Calm(s, s', {t}, j)
    ensures s' == s.(creates := s.creates[t := CreateOp(root, Inspected)])
  {
    InspectedAt(s, t, root);
    CreatingMoves(s, t, root, Entered, Inspected, j);
    UploadReaches(s, InspectActiveA(t));
    s' := s.(creates := s.creates[t := CreateOp(root, Inspected)]);
  }

  lemma InsertionIsPossible(s: State, t: Token, root: Root, j: JobId, manifest: Snapshot) returns (s': State)
    requires Reachable(s) && Creating(s, t, root, Inspected) && !UpToDate(s, root, manifest) && FreshJob(s, j)
    ensures Reachable(s') && Creating(s', t, root, Begun(j)) && Calm(s, s', {t}, j) && Begin(j, root, root !in s.workspaces) in s'.sent
    ensures j in s'.jobs && s'.jobs[j] == NewJob(root, root !in s.workspaces, Stored(s.snapshots, root), manifest, s.now)
    ensures s'.snapshots == s.snapshots && s'.cloud == s.cloud
  {
    InsertedAt(s, t, root, j, manifest);
    InsertionInserts(s, t, root, j, manifest);
    UploadReaches(s, InsertJobA(t, j, manifest, {}, false));
    s' := Inserted(s, t, j, manifest);
  }

  lemma StillFresh(s: State, leases: Leases.Table, t: Token, op: CreateOp, j: JobId)
    requires FreshJob(s, j) && (op.stage.Entered? || op.stage.Inspected?)
    ensures FreshJob(s.(leases := leases, creates := s.creates[t := op]), j)
  {
  }

  lemma InspectedStart(s: State, t: Token, root: Root, j: JobId) returns (s': State)
    requires Reachable(s) && FreshToken(s, t) && Free(s, root.tenant) && FreshJob(s, j) && !RunningOn(s.jobs, root)
    ensures Reachable(s') && Creating(s', t, root, Inspected) && Calm(s, s', {t}, j) && FreshJob(s', j)
    ensures s'.jobs == s.jobs && s'.snapshots == s.snapshots && s'.workspaces == s.workspaces && s'.cloud == s.cloud
    ensures s'.sent == s.sent && s'.claims == s.claims && s'.cleaned == s.cleaned
  {
    var s1 := StartIsPossible(s, t, root, j);
    StillFresh(s, s1.leases, t, CreateOp(root, Entered), j);
    s' := InspectionIsPossible(s1, t, root, j);
    StillFresh(s1, s1.leases, t, CreateOp(root, Inspected), j);
    CalmThrough(s, s1, s', {t}, {t}, j);
  }

  /** A new job runs, its begin call is made, and its start still has the lease. */
  lemma JobCanStart(s: State, t: Token, root: Root, j: JobId, manifest: Snapshot) returns (s': State)
    requires Reachable(s) && FreshToken(s, t) && Free(s, root.tenant) && FreshJob(s, j)
    requires !RunningOn(s.jobs, root) && !UpToDate(s, root, manifest)
    ensures Reachable(s') && Creating(s', t, root, Begun(j)) && Calm(s, s', {t}, j) && Begin(j, root, root !in s.workspaces) in s'.sent
    ensures j in s'.jobs && s'.jobs[j] == NewJob(root, root !in s.workspaces, Stored(s.snapshots, root), manifest, s.now)
    ensures s'.snapshots == s.snapshots && s'.cloud == s.cloud
  {
    var s1 := InspectedStart(s, t, root, j);
    s' := InsertionIsPossible(s1, t, root, j, manifest);
    CalmThrough(s, s1, s', {t}, {t}, j);
  }

  lemma BegunAt(cloud: Cloud, j: JobId, root: Root, full: bool)
    requires j !in cloud.jobs
    ensures j in Arrive(cloud, Begin(j, root, full)).jobs && Arrive(cloud, Begin(j, root, full)).jobs[j].state == Open
  {
  }

  lemma BeginCanArrive(s: State, j: JobId, root: Root, full: bool) returns (s': State)
    requires Reachable(s) && Begin(j, root, full) in s.sent && j !in s.cloud.jobs
    ensures Reachable(s') && Calm(s, s', {}, j) && s' == s.(cloud := s'.cloud)
    ensures j in s'.cloud.jobs && s'.cloud.jobs[j].state == Open
  {
    BegunAt(s.cloud, j, root, full);
    QuietArrival(s, Begin(j, root, full), j);
    CloudReaches(s, ArriveA(Begin(j, root, full)));
    s' := s.(cloud := Arrive(s.cloud, Begin(j, root, full)));
  }

  // ---- upload -----------------------------------------------------------------------------------------------

  ghost predicate Uploading(s: State, t: Token, j: JobId, stage: UploadStage, job: Job) {
    && Alone(s, t, job.root.tenant) && t in s.uploads && s.uploads[t] == UploadOp(j, stage)
    && j in s.jobs && s.jobs[j] == job && job.status == Running && job.phase != IndexJobs.Publishing && !job.lost
  }

  /** One batch with everything that is still to be uploaded. */
  function Remaining(job: Job): map<Path, BatchFile> {
    map p | p in job.files && job.files[p].needsIndex && !job.files[p].indexed :: BatchFile(job.files[p].entry.hash, job.files[p].entry)
  }

  function Contents(batch: map<Path, BatchFile>): Snapshot {
    map p | p in batch :: batch[p].content
  }

  lemma StartUploadAt(s: State, t: Token, j: JobId)
    requires FreshToken(s, t) && RunningJob(s.jobs, j) && s.jobs[j].phase != IndexJobs.Publishing && !s.jobs[j].lost
    requires Free(s, s.jobs[j].root.tenant)
    ensures var s' := StartUpload(s, t, s.jobs[j].root.tenant, j);
            && Uploading(s', t, j, Received, s.jobs[j]) && Calm(s, s', {t}, j) && s'.cloud == s.cloud && s'.snapshots == s.snapshots
            && s' == DoLease(s, StartUploadA(t, s.jobs[j].root.tenant, j))
  {
    AttemptSucceeds(s, t, OnJob(s.jobs[j].root.tenant, j, UploadBatch));
    var s' := StartUpload(s, t, s.jobs[j].root.tenant, j);
    forall u | FreshToken(s, u) && u != t ensures FreshToken(s', u) {}
  }

  lemma PreparedAt(s: State, t: Token, j: JobId, job: Job)
    requires Uploading(s, t, j, Received, job) && (Remaining(job) != map[] || job.deletedCount != 0)
    ensures DoUpload(s, PrepareBatchA(t, job.root, Remaining(job))) ==
              s.(uploads := s.uploads[t := UploadOp(j, Prepared(Contents(Remaining(job)), DeletionsToSend(job, Stored(s.snapshots, job.root))))])
  {
    assert BatchAccepted(s, t, job.root, Remaining(job));
  }

  lemma UploadingMoves(s: State, t: Token, j: JobId, stage: UploadStage, next: UploadStage, job: Job)
    requires Uploading(s, t, j, stage, job)
    ensures var s' := s.(uploads := s.uploads[t := UploadOp(j, next)]); Uploading(s', t, j, next, job) && Calm(s, s', {t}, j)
  {
  }

  lemma StagedAt(s: State, t: Token, j: JobId, files: Snapshot, removed: set<Path>, job: Job)
    requires Uploading(s, t, j, Prepared(files, removed), job)
    ensures var s', job' := StageBatch(s, t), job.(phase := IndexJobs.Uploading, heartbeat := s.now);
            && s' == DoUpload(s, StageBatchA(t))
            && Uploading(s', t, j, Called(files, removed), job') && Calm(s, s', {t}, j)
            && Stage(j, files, removed) in s'.sent && s'.cloud == s.cloud && s'.snapshots == s.snapshots
  {
    assert OwnedRunning(s, t, j);
  }

  lemma CommittedBatchAt(s: State, t: Token, j: JobId, files: Snapshot, removed: set<Path>, job: Job)
    requires Uploading(s, t, j, Called(files, removed), job) && Committable(job, files.Keys) && StageAcknowledged(s.cloud, j, files, removed)
    ensures var s' := CommitBatch(s, t);
            && s' == DoUpload(s, CommitBatchA(t))
            && Alone(s', t, job.root.tenant) && Calm(s, s', {t}, j) && s'.cloud == s.cloud && s'.snapshots == s.snapshots
            && j in s'.jobs && s'.jobs[j] == BatchCommitted(job, files.Keys, removed != {}, s.now)
  {
    assert OwnedRunning(s, t, j);
  }

  lemma UploadIsPossible(s: State, t: Token, j: JobId) returns (s': State)
    requires Reachable(s) && FreshToken(s, t) && RunningJob(s.jobs, j) && s.jobs[j].phase != IndexJobs.Publishing && !s.jobs[j].lost
    requires Free(s, s.jobs[j].root.tenant)
    ensures Reachable(s') && Uploading(s', t, j, Received, s.jobs[j]) && Calm(s, s', {t}, j)
    ensures s'.cloud == s.cloud && s'.snapshots == s.snapshots
  {
    StartUploadAt(s, t, j);
    LeaseReaches(s, StartUploadA(t, s.jobs[j].root.tenant, j));
    s' := StartUpload(s, t, s.jobs[j].root.tenant, j);
  }

  lemma PreparationIsPossible(s: State, t: Token, j: JobId, job: Job) returns (s': State)
    requires Reachable(s) && Uploading(s, t, j, Received, job) && (Remaining(job) != map[] || job.deletedCount != 0)
    ensures Reachable(s') && Calm(s, s', {t}, j) && s'.cloud == s.cloud && s'.snapshots == s.snapshots
    ensures Uploading(s', t, j, Prepared(Contents(Remaining(job)), DeletionsToSend(job, Stored(s.snapshots, job.root))), job)
  {
    var next := Prepared(Contents(Remaining(job)), DeletionsToSend(job, Stored(s.snapshots, job.root)));
    PreparedAt(s, t, j, job);
    UploadingMoves(s, t, j, Received, next, job);
    UploadReaches(s, PrepareBatchA(t, job.root, Remaining(job)));
    s' := s.(uploads := s.uploads[t := UploadOp(j, next)]);
  }

  lemma StagingIsPossible(s: State, t: Token, j: JobId, files: Snapshot, removed: set<Path>, job: Job) returns (s': State)
    requires Reachable(s) && Uploading(s, t, j, Prepared(files, removed), job)
    ensures Reachable(s') && Uploading(s', t, j, Called(files, removed), job.(phase := IndexJobs.Uploading, heartbeat := s.now))
    ensures Calm(s, s', {t}, j) && Stage(j, files, removed) in s'.sent && s'.cloud == s.cloud && s'.snapshots == s.snapshots
  {
    StagedAt(s, t, j, files, removed, job);
    UploadReaches(s, StageBatchA(t));
    s' := StageBatch(s, t);
  }

  lemma StageCanArrive(s: State, j: JobId, files: Snapshot, removed: set<Path>) returns (s': State)
    requires Reachable(s) && Stage(j, files, removed) in s.sent && j in s.cloud.jobs && s.cloud.jobs[j].state == Open
    ensures Reachable(s') && Calm(s, s', {}, j) && s' == s.(cloud := s'.cloud)
    ensures j in s'.cloud.jobs && s'.cloud.jobs[j].state == Open && StageAcknowledged(s'.cloud, j, files, removed)
  {
    QuietArrival(s, Stage(j, files, removed), j);
    CloudReaches(s, ArriveA(Stage(j, files, removed)));
    s' := s.(cloud := Arrive(s.cloud, Stage(j, files, removed)));
  }

  lemma BatchCommitIsPossible(s: State, t: Token, j: JobId, files: Snapshot, removed: set<Path>, job: Job) returns (s': State)
    requires Reachable(s) && Uploading(s, t, j, Called(files, removed), job) && Committable(job, files.Keys)
    requires StageAcknowledged(s.cloud, j, files, removed)
    ensures Reachable(s') && Alone(s', t, job.root.tenant) && Calm(s, s', {t}, j) && s'.cloud == s.cloud && s'.snapshots == s.snapshots
    ensures j in s'.jobs && s'.jobs[j] == BatchCommitted(job, files.Keys, removed != {}, s.now)
  {
    CommittedBatchAt(s, t, j, files, removed, job);
    UploadReaches(s, CommitBatchA(t));
    s' := CommitBatch(s, t);
  }

  function Touched(job: Job, now: Time): Job {
    job.(phase := IndexJobs.Uploading, heartbeat := now)
  }

  /** The batch is prepared and its stage call is made. */
  lemma BatchIsSent(s: State, t: Token, j: JobId, files: Snapshot, removed: set<Path>) returns (s': State)
    requires Reachable(s) && FreshToken(s, t) && RunningJob(s.jobs, j) && s.jobs[j].phase != IndexJobs.Publishing && !s.jobs[j].lost
    requires Free(s, s.jobs[j].root.tenant) && (Remaining(s.jobs[j]) != map[] || s.jobs[j].deletedCount != 0)
    requires files == Contents(Remaining(s.jobs[j])) && removed == DeletionsToSend(s.jobs[j], Stored(s.snapshots, s.jobs[j].root))
    ensures Reachable(s') && Uploading(s', t, j, Called(files, removed), Touched(s.jobs[j], s.now)) && Calm(s, s', {t}, j)
    ensures Stage(j, files, removed) in s'.sent && s'.cloud == s.cloud && s'.snapshots == s.snapshots
  {
    var s1 := UploadIsPossible(s, t, j);
    var s2 := PreparationIsPossible(s1, t, j, s.jobs[j]);
    s' := StagingIsPossible(s2, t, j, files, removed, s.jobs[j]);
    CalmThrough(s, s1, s2, {t}, {t}, j);
    CalmThrough(s, s2, s', {t}, {t}, j);
  }

  lemma TouchedCommittable(job: Job, now: Time)
    requires job.status == Running && !job.lost
    ensures Committable(Touched(job, now), Contents(Remaining(job)).Keys)
  {
  }

  /** It arrives and is counted, and the lease is given back. */
  lemma BatchIsCounted(s: State, t: Token, j: JobId, files: Snapshot, removed: set<Path>, job: Job) returns (s': State)
    requires Reachable(s) && Uploading(s, t, j, Called(files, removed), job) && Committable(job, files.Keys)
    requires Stage(j, files, removed) in s.sent && j in s.cloud.jobs && s.cloud.jobs[j].state == Open
    ensures Reachable(s') && Free(s', job.root.tenant) && Calm(s, s', {t}, j) && s'.snapshots == s.snapshots
    ensures j in s'.jobs && s'.jobs[j] == BatchCommitted(job, files.Keys, removed != {}, s.now)
    ensures j in s'.cloud.jobs && s'.cloud.jobs[j].state == Open
  {
    var s1 := StageCanArrive(s, j, files, removed);
    var s2 := BatchCommitIsPossible(s1, t, j, files, removed, job);
    s' := ReleaseIsPossible(s2, t, job.root.tenant, j);
    CalmThrough(s, s1, s2, {}, {t}, j);
    CalmThrough(s, s2, s', {} + {t}, {t}, j);
  }

  /** After the batch nothing is left to upload. */
  lemma NothingRemains(job: Job, removed: set<Path>, now: Time)
    ensures var after := BatchCommitted(Touched(job, now), Contents(Remaining(job)).Keys, removed != {}, now);
            Staged(after.files) == Needed(after.files) && Entries(after.files) == Entries(job.files)
  {
    assert Contents(Remaining(job)).Keys == Remaining(job).Keys;
  }

  /** Everything a running job still needs can be staged, if upstream still holds it open. */
  lemma RemainderCanBeStaged(s: State, t: Token, j: JobId) returns (s': State)
    requires Reachable(s) && FreshToken(s, t) && RunningJob(s.jobs, j) && s.jobs[j].phase != IndexJobs.Publishing && !s.jobs[j].lost
    requires Free(s, s.jobs[j].root.tenant) && (Remaining(s.jobs[j]) != map[] || s.jobs[j].deletedCount != 0)
    requires j in s.cloud.jobs && s.cloud.jobs[j].state == Open
    ensures Reachable(s') && Free(s', s.jobs[j].root.tenant) && Calm(s, s', {t}, j) && s'.snapshots == s.snapshots
    ensures j in s'.cloud.jobs && s'.cloud.jobs[j].state == Open
    ensures RunningJob(s'.jobs, j) && FullyStaged(s'.jobs[j]) && s'.jobs[j].root == s.jobs[j].root && !s'.jobs[j].lost
    ensures Entries(s'.jobs[j].files) == Entries(s.jobs[j].files) && s'.jobs[j].cloudRevision == s.jobs[j].cloudRevision
  {
    var job := s.jobs[j];
    var files, removed := Contents(Remaining(job)), DeletionsToSend(job, Stored(s.snapshots, job.root));
    var s1 := BatchIsSent(s, t, j, files, removed);
    TouchedCommittable(job, s.now);
    s' := BatchIsCounted(s1, t, j, files, removed, Touched(job, s.now));
    CalmThrough(s, s1, s', {t}, {t}, j);
    NothingRemains(job, removed, s.now);
    T.SnapshotStableWhileRunning(s, j);
    T.CountersRefineFileTable(s', j);
  }

  // ---- completion -------------------------------------------------------------------------------------------

  /** A completion holds a live lease of the job's tenant and stands at `stage`; the job row is `job`. */
  ghost predicate At(s: State, t: Token, j: JobId, stage: PublishStage, job: Job) {
    && Alone(s, t, job.root.tenant)
    && t in s.publishers && s.publishers[t] == PublishOp(j, stage)
    && j in s.jobs && s.jobs[j] == job && job.status == Running && FullyStaged(job)
  }

  lemma StartAt(s: State, t: Token, j: JobId)
    requires FreshToken(s, t) && RunningJob(s.jobs, j) && FullyStaged(s.jobs[j]) && Free(s, s.jobs[j].root.tenant)
    ensures var s' := StartComplete(s, t, s.jobs[j].root.tenant, j);
            && At(s', t, j, Requested(None), s.jobs[j]) && s'.cloud == s.cloud && s'.snapshots == s.snapshots && Calm(s, s', {t}, j)
            && s' == DoLease(s, StartCompleteA(t, s.jobs[j].root.tenant, j))
  {
    AttemptSucceeds(s, t, OnJob(s.jobs[j].root.tenant, j, CompleteJob));
    var s' := StartComplete(s, t, s.jobs[j].root.tenant, j);
    forall u | FreshToken(s, u) && u != t ensures FreshToken(s', u) {}
  }

  lemma CheckedAt(s: State, t: Token, j: JobId, job: Job)
    requires At(s, t, j, Requested(None), job)
    ensures At(CheckComplete(s, t), t, j, Checked(None, job.cloudRevision), job) && Calm(s, CheckComplete(s, t), {t}, j)
    ensures CheckComplete(s, t).cloud == s.cloud && CheckComplete(s, t).snapshots == s.snapshots
    ensures CheckComplete(s, t) == DoPublish(s, CheckCompleteA(t))
  {
    assert OwnedRunning(s, t, j);
  }

  lemma HandedOffAt(s: State, t: Token, j: JobId, job: Job)
    requires At(s, t, j, Checked(None, job.cloudRevision), job) && job.cloudRevision <= 0
    ensures At(HandOff(s, t), t, j, Intended, HandedOff(job, s.now)) && Calm(s, HandOff(s, t), {t}, j)
    ensures HandOff(s, t).cloud == s.cloud && HandOff(s, t).snapshots == s.snapshots
    ensures HandOff(s, t) == DoPublish(s, HandOffA(t))
  {
    assert OwnedRunning(s, t, j);
  }

  lemma AskedAt(s: State, t: Token, j: JobId, job: Job)
    requires At(s, t, j, Intended, job)
    ensures At(CallPublish(s, t), t, j, Asked, job) && Calm(s, CallPublish(s, t), {t}, j)
    ensures CallPublish(s, t) == DoPublish(s, CallPublishA(t)) && Publish(j) in CallPublish(s, t).sent
  {
  }

  lemma AnsweredAt(s: State, t: Token, j: JobId, job: Job, revision: nat)
    requires At(s, t, j, Asked, job) && IsPublished(s.cloud, j, revision)
    ensures var s', reply := ReadPublishReply(s, t, Reply(SaysCompleted, Some(revision))), Reply(SaysCompleted, Some(revision));
            At(s', t, j, Answered(revision), job) && Calm(s, s', {t}, j) && s'.cloud == s.cloud && s' == DoPublish(s, ReadPublishReplyA(t, reply))
  {
  }

  lemma RecordedAt(s: State, t: Token, j: JobId, job: Job, revision: nat)
    requires At(s, t, j, Answered(revision), job)
    ensures At(RecordRevision(s, t, true), t, j, Confirmed(revision), job.(cloudRevision := revision, heartbeat := s.now))
    ensures Calm(s, RecordRevision(s, t, true), {t}, j) && RecordRevision(s, t, true).cloud == s.cloud
    ensures RecordRevision(s, t, true) == DoPublish(s, RecordRevisionA(t, true))
  {
  }

  lemma CommittedAt(s: State, t: Token, j: JobId, job: Job, revision: nat)
    requires At(s, t, j, Confirmed(revision), job)
    ensures var s' := CommitSnapshot(s, t);
            && j in s'.jobs && s'.jobs[j].status == Completed && s'.jobs[j].cloudRevision == revision
            && Stored(s'.snapshots, job.root) == ManifestOf(job) && Calm(s, s', {t}, j)
            && s'.cloud == s.cloud && s' == DoPublish(s, CommitSnapshotA(t))
  {
    assert OwnedRunning(s, t, j);
    assert CommitSnapshot(s, t).jobs == s.jobs[j := CompletedJob(job, revision, s.now)];
    assert CommitSnapshot(s, t).snapshots == s.snapshots[job.root := ManifestOf(job)];
  }

  lemma CompletionIsPossible(s: State, t: Token, j: JobId) returns (s': State)
    requires Reachable(s) && FreshToken(s, t) && RunningJob(s.jobs, j) && FullyStaged(s.jobs[j]) && Free(s, s.jobs[j].root.tenant)
    ensures Reachable(s') && At(s', t, j, Requested(None), s.jobs[j]) && s'.cloud == s.cloud && Calm(s, s', {t}, j)
    ensures s'.snapshots == s.snapshots
  {
    StartAt(s, t, j);
    LeaseReaches(s, StartCompleteA(t, s.jobs[j].root.tenant, j));
    s' := StartComplete(s, t, s.jobs[j].root.tenant, j);
  }

  lemma CheckIsPossible(s: State, t: Token, j: JobId, job: Job) returns (s': State)
    requires Reachable(s) && At(s, t, j, Requested(None), job)
    ensures Reachable(s') && At(s', t, j, Checked(None, job.cloudRevision), job) && s'.cloud == s.cloud && Calm(s, s', {t}, j)
    ensures s'.snapshots == s.snapshots
  {
    CheckedAt(s, t, j, job);
    PublishReaches(s, CheckCompleteA(t));
    s' := CheckComplete(s, t);
  }

  lemma HandoffIsPossible(s: State, t: Token, j: JobId, job: Job) returns (s': State)
    requires Reachable(s) && At(s, t, j, Checked(None, job.cloudRevision), job) && job.cloudRevision <= 0
    ensures Reachable(s') && At(s', t, j, Intended, HandedOff(job, s.now)) && s'.cloud == s.cloud && Calm(s, s', {t}, j)
    ensures s'.snapshots == s.snapshots
  {
    HandedOffAt(s, t, j, job);
    PublishReaches(s, HandOffA(t));
    s' := HandOff(s, t);
  }

  lemma PublishIsPossible(s: State, t: Token, j: JobId, job: Job) returns (s': State)
    requires Reachable(s) && At(s, t, j, Intended, job)
    ensures Reachable(s') && At(s', t, j, Asked, job) && s'.cloud == s.cloud && Publish(j) in s'.sent && Calm(s, s', {t}, j)
    ensures s'.snapshots == s.snapshots
  {
    AskedAt(s, t, j, job);
    PublishReaches(s, CallPublishA(t));
    s' := CallPublish(s, t);
  }

  /** A fully staged job can be handed off and its publish call made. */
  lemma StagedJobCanBeHandedOff(s: State, t: Token, j: JobId) returns (s': State)
    requires Reachable(s) && FreshToken(s, t) && RunningJob(s.jobs, j) && FullyStaged(s.jobs[j]) && s.jobs[j].cloudRevision <= 0
    requires Free(s, s.jobs[j].root.tenant)
    ensures Reachable(s') && At(s', t, j, Asked, HandedOff(s.jobs[j], s.now)) && s'.cloud == s.cloud && Publish(j) in s'.sent && Calm(s, s', {t}, j)
    ensures s'.snapshots == s.snapshots
  {
    var s1 := CompletionIsPossible(s, t, j);
    var s2 := CheckIsPossible(s1, t, j, s.jobs[j]);
    var s3 := HandoffIsPossible(s2, t, j, s.jobs[j]);
    s' := PublishIsPossible(s3, t, j, HandedOff(s.jobs[j], s.now));
    CalmThrough(s, s1, s2, {t}, {t}, j);
    CalmThrough(s, s2, s3, {t}, {t}, j);
    CalmThrough(s, s3, s', {t}, {t}, j);
  }

  lemma SubmittedAt(s: State, t: Token, j: JobId, job: Job)
    requires At(s, t, j, Asked, job) && j in s.cloud.jobs && s.cloud.jobs[j].state == Open
    ensures var s' := s.(cloud := Arrive(s.cloud, Publish(j)));
            At(s', t, j, Asked, job) && j in s'.cloud.jobs && s'.cloud.jobs[j].state == Submitted && s'.snapshots == s.snapshots
  {
  }

  lemma SubmissionIsPossible(s: State, t: Token, j: JobId, job: Job) returns (s': State)
    requires Reachable(s) && At(s, t, j, Asked, job) && Publish(j) in s.sent && j in s.cloud.jobs && s.cloud.jobs[j].state == Open
    ensures Reachable(s') && At(s', t, j, Asked, job) && Calm(s, s', {}, j) && j in s'.cloud.jobs && s'.cloud.jobs[j].state == Submitted
    ensures s'.snapshots == s.snapshots
  {
    SubmittedAt(s, t, j, job);
    QuietArrival(s, Publish(j), j);
    CloudReaches(s, ArriveA(Publish(j)));
    s' := s.(cloud := Arrive(s.cloud, Publish(j)));
  }

  lemma PublicationAt(s: State, t: Token, j: JobId, job: Job, revision: nat)
    requires At(s, t, j, Asked, job) && job.phase == IndexJobs.Publishing && j in s.cloud.jobs && s.cloud.jobs[j].state == Submitted
    ensures var s' := DoCloud(s, PublicationSucceedsA(j, revision));
            At(s', t, j, Asked, job) && Calm(s, s', {}, j) && IsPublished(s'.cloud, j, revision) && s'.snapshots == s.snapshots
  {
    assert Lost(s.jobs, j) || PartedByPublication(s, j) <= s.doubts.parted;
  }

  lemma PublicationIsPossible(s: State, t: Token, j: JobId, job: Job, revision: nat) returns (s': State)
    requires Reachable(s) && At(s, t, j, Asked, job) && job.phase == IndexJobs.Publishing && j in s.cloud.jobs && s.cloud.jobs[j].state == Submitted
    ensures Reachable(s') && At(s', t, j, Asked, job) && Calm(s, s', {}, j) && IsPublished(s'.cloud, j, revision)
    ensures s'.snapshots == s.snapshots
  {
    PublicationAt(s, t, j, job, revision);
    CloudReaches(s, PublicationSucceedsA(j, revision));
    s' := DoCloud(s, PublicationSucceedsA(j, revision));
  }

  lemma AnswerIsPossible(s: State, t: Token, j: JobId, job: Job, revision: nat) returns (s': State)
    requires Reachable(s) && At(s, t, j, Asked, job) && IsPublished(s.cloud, j, revision)
    ensures Reachable(s') && At(s', t, j, Answered(revision), job) && Calm(s, s', {t}, j)
    ensures s'.cloud == s.cloud
  {
    var reply := Reply(SaysCompleted, Some(revision));
    AnsweredAt(s, t, j, job, revision);
    PublishReaches(s, ReadPublishReplyA(t, reply));
    s' := ReadPublishReply(s, t, reply);
  }

  lemma RecordingIsPossible(s: State, t: Token, j: JobId, job: Job, revision: nat) returns (s': State)
    requires Reachable(s) && At(s, t, j, Answered(revision), job)
    ensures Reachable(s') && At(s', t, j, Confirmed(revision), job.(cloudRevision := revision, heartbeat := s.now)) && Calm(s, s', {t}, j)
    ensures s'.cloud == s.cloud
  {
    RecordedAt(s, t, j, job, revision);
    PublishReaches(s, RecordRevisionA(t, true));
    s' := RecordRevision(s, t, true);
  }

  lemma CommitIsPossible(s: State, t: Token, j: JobId, job: Job, revision: nat) returns (s': State)
    requires Reachable(s) && At(s, t, j, Confirmed(revision), job)
    ensures Reachable(s') && j in s'.jobs && s'.jobs[j].status == Completed && s'.jobs[j].cloudRevision == revision
    ensures Stored(s'.snapshots, job.root) == ManifestOf(job) && Calm(s, s', {t}, j)
    ensures s'.cloud == s.cloud
  {
    CommittedAt(s, t, j, job, revision);
    PublishReaches(s, CommitSnapshotA(t));
    s' := CommitSnapshot(s, t);
  }

  lemma AskedCanBePublished(s: State, t: Token, j: JobId, job: Job, revision: nat) returns (s': State)
    requires Reachable(s) && At(s, t, j, Asked, job) && job.phase == IndexJobs.Publishing && Publish(j) in s.sent
    requires j in s.cloud.jobs && s.cloud.jobs[j].state == Open
    ensures Reachable(s') && At(s', t, j, Asked, job) && Calm(s, s', {}, j) && IsPublished(s'.cloud, j, revision)
    ensures s'.snapshots == s.snapshots
  {
    var s1 := SubmissionIsPossible(s, t, j, job);
    s' := PublicationIsPossible(s1, t, j, job, revision);
    CalmThrough(s, s1, s', {}, {}, j);
  }

  lemma StagedJobCanBePublished(s: State, t: Token, j: JobId, revision: nat) returns (s': State)
    requires Reachable(s) && FreshToken(s, t) && RunningJob(s.jobs, j) && FullyStaged(s.jobs[j]) && s.jobs[j].cloudRevision <= 0
    requires Free(s, s.jobs[j].root.tenant) && j in s.cloud.jobs && s.cloud.jobs[j].state == Open
    ensures Reachable(s') && At(s', t, j, Asked, HandedOff(s.jobs[j], s.now)) && Publish(j) in s'.sent
    ensures IsPublished(s'.cloud, j, revision) && Calm(s, s', {t} + {}, j)
    ensures s'.snapshots == s.snapshots
  {
    var s1 := StagedJobCanBeHandedOff(s, t, j);
    s' := AskedCanBePublished(s1, t, j, HandedOff(s.jobs[j], s.now), revision);
    CalmThrough(s, s1, s', {t}, {}, j);
  }

  lemma PublishedCanBeStored(s: State, t: Token, j: JobId, job: Job, revision: nat) returns (s': State)
    requires Reachable(s) && At(s, t, j, Asked, job) && IsPublished(s.cloud, j, revision)
    ensures Reachable(s') && j in s'.jobs && s'.jobs[j].status == Completed && s'.jobs[j].cloudRevision == revision
    ensures Stored(s'.snapshots, job.root) == ManifestOf(job) && Calm(s, s', {t}, j)
    ensures s'.cloud == s.cloud
  {
    var s1 := AnswerIsPossible(s, t, j, job, revision);
    var s2 := RecordingIsPossible(s1, t, j, job, revision);
    s' := CommitIsPossible(s2, t, j, job.(cloudRevision := revision, heartbeat := s1.now), revision);
    CalmThrough(s, s1, s2, {t}, {t}, j);
    CalmThrough(s, s2, s', {t}, {t}, j);
  }

  /** From every reachable state: a fully staged job that upstream still holds open can be completed with any revision
      that upstream assigns, if its tenant is idle and unfenced. */
  lemma StagedJobCanComplete(s: State, t: Token, j: JobId, revision: nat) returns (s': State)
    requires Reachable(s) && FreshToken(s, t) && RunningJob(s.jobs, j) && FullyStaged(s.jobs[j]) && s.jobs[j].cloudRevision <= 0
    requires Free(s, s.jobs[j].root.tenant) && j in s.cloud.jobs && s.cloud.jobs[j].state == Open
    ensures Reachable(s') && j in s'.jobs && s'.jobs[j].status == Completed && s'.jobs[j].cloudRevision == revision
    ensures Stored(s'.snapshots, s.jobs[j].root) == ManifestOf(s.jobs[j]) && Calm(s, s', {t}, j)
  {
    var s1 := StagedJobCanBePublished(s, t, j, revision);
    s' := PublishedCanBeStored(s1, t, j, HandedOff(s.jobs[j], s.now), revision);
    CalmThrough(s, s1, s', {t} + {}, {t}, j);
  }

  /** A started job is known upstream, and its start has given the lease back. */
  lemma JobIsOpen(s: State, t: Token, root: Root, j: JobId, manifest: Snapshot) returns (s': State)
    requires Reachable(s) && FreshToken(s, t) && Free(s, root.tenant) && FreshJob(s, j)
    requires !RunningOn(s.jobs, root) && !UpToDate(s, root, manifest)
    ensures Reachable(s') && Free(s', root.tenant) && Calm(s, s', {t}, j) && s'.snapshots == s.snapshots
    ensures j in s'.jobs && s'.jobs[j] == NewJob(root, root !in s.workspaces, Stored(s.snapshots, root), manifest, s.now)
    ensures j in s'.cloud.jobs && s'.cloud.jobs[j].state == Open
  {
    var s1 := JobCanStart(s, t, root, j, manifest);
    var s2 := BeginCanArrive(s1, j, root, root !in s.workspaces);
    s' := ReleaseIsPossible(s2, t, root.tenant, j);
    CalmThrough(s, s1, s2, {t}, {}, j);
    CalmThrough(s, s2, s', {t} + {}, {t}, j);
  }

  /** A new job has something to upload or to delete, or is staged as it is. */
  lemma NewJobIsStagedOrRemains(root: Root, full: bool, stored: Snapshot, manifest: Snapshot, now: Time)
    ensures var job := NewJob(root, full, stored, manifest, now);
            && Entries(job.files) == manifest && (FullyStaged(job) || Remaining(job) != map[] || job.deletedCount != 0)
  {
    var job := NewJob(root, full, stored, manifest, now);
    if Pending(stored, manifest) != {} {
      var p :| p in Pending(stored, manifest);
      assert p in Remaining(job);
    }
  }

  lemma OpenJobCanBeStaged(s: State, t: Token, j: JobId) returns (s': State)
    requires Reachable(s) && FreshToken(s, t) && RunningJob(s.jobs, j) && s.jobs[j].phase != IndexJobs.Publishing && !s.jobs[j].lost
    requires Free(s, s.jobs[j].root.tenant) && (FullyStaged(s.jobs[j]) || Remaining(s.jobs[j]) != map[] || s.jobs[j].deletedCount != 0)
    requires j in s.cloud.jobs && s.cloud.jobs[j].state == Open
    ensures Reachable(s') && Free(s', s.jobs[j].root.tenant) && Calm(s, s', {t}, j)
    ensures j in s'.cloud.jobs && s'.cloud.jobs[j].state == Open
    ensures RunningJob(s'.jobs, j) && FullyStaged(s'.jobs[j]) && s'.jobs[j].root == s.jobs[j].root && !s'.jobs[j].lost
    ensures Entries(s'.jobs[j].files) == Entries(s.jobs[j].files) && s'.jobs[j].cloudRevision == s.jobs[j].cloudRevision
    ensures s'.snapshots == s.snapshots
  {
    if FullyStaged(s.jobs[j]) {
      s' := s;
    } else {
      s' := RemainderCanBeStaged(s, t, j);
    }
  }

  lemma ManifestCanBeStaged(s: State, starter: Token, uploader: Token, root: Root, j: JobId, manifest: Snapshot) returns (s': State)
    requires Reachable(s) && FreshToken(s, starter) && FreshToken(s, uploader) && FreshJob(s, j) && starter != uploader
    requires Free(s, root.tenant) && !RunningOn(s.jobs, root) && !UpToDate(s, root, manifest)
    ensures Reachable(s') && Free(s', root.tenant) && Calm(s, s', {starter} + {uploader}, j)
    ensures j in s'.cloud.jobs && s'.cloud.jobs[j].state == Open
    ensures RunningJob(s'.jobs, j) && FullyStaged(s'.jobs[j]) && s'.jobs[j].root == root && s'.jobs[j].cloudRevision == 0
    ensures ManifestOf(s'.jobs[j]) == manifest
  {
    var s1 := JobIsOpen(s, starter, root, j, manifest);
    NewJobIsStagedOrRemains(root, root !in s.workspaces, Stored(s.snapshots, root), manifest, s.now);
    s' := OpenJobCanBeStaged(s1, uploader, j);
    CalmThrough(s, s1, s', {starter}, {uploader}, j);
  }

  /** From every reachable state: any manifest that differs from what is stored can become the stored snapshot of a root
      without a running job, through a start, one upload and one completion, if the tenant is idle and unfenced. */
  lemma ManifestCanBeIndexed(s: State, starter: Token, uploader: Token, publisher: Token, root: Root, j: JobId, manifest: Snapshot, revision: nat)
    returns (s': State)
    requires Reachable(s) && FreshToken(s, starter) && FreshToken(s, uploader) && FreshToken(s, publisher) && FreshJob(s, j)
    requires starter != uploader && publisher !in {starter} + {uploader}
    requires Free(s, root.tenant) && !RunningOn(s.jobs, root) && !UpToDate(s, root, manifest)
    ensures Reachable(s') && j in s'.jobs && s'.jobs[j].status == Completed && s'.jobs[j].cloudRevision == revision
    ensures Stored(s'.snapshots, root) == manifest && Calm(s, s', {starter} + {uploader} + {publisher}, j)
  {
    var s1 := ManifestCanBeStaged(s, starter, uploader, root, j, manifest);
    s' := StagedJobCanComplete(s1, publisher, j, revision);
    CalmThrough(s, s1, s', {starter} + {uploader}, {publisher}, j);
  }
}
