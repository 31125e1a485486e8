/** The part of the inductive invariant that needs no assumption about the upstream engine. */
module Safety {
  import opened RelayTypes
  import opened Leases
  import opened Manifest
  import opened IndexJobs
  import opened ControlPlane
  import Upstream
  import D = RootDeletion
  import C = PlatformConfig
  import opened Durable

  type Jobs = map<JobId, Job>

  predicate PublishingJob(jobs: Jobs, j: JobId) {
    RunningJob(jobs, j) && jobs[j].phase == Publishing
  }

  // ---- jobs and snapshots -----------------------------------------------------------------------

  /** At most one job per root is running. */
  ghost predicate OneRunning(jobs: Jobs) {
    forall i, j | RunningJob(jobs, i) && RunningJob(jobs, j) && jobs[i].root == jobs[j].root :: i == j
  }

  ghost predicate FilesHaveWorkspace(snapshots: map<Root, Snapshot>, workspaces: map<Root, int>) {
    forall r | r in snapshots :: snapshots[r] != map[] ==> r in workspaces
  }

  /** What is true of a running job, given the snapshot stored for its root now. */
  datatype Facet = Lifecycle | DiffOfSnapshot | Progress

  ghost predicate Has(f: Facet, job: Job, stored: Snapshot, hasWorkspace: bool) {
    match f
    case Lifecycle =>
      && job.phase != Done
      && (job.full <==> !hasWorkspace)
      && (job.deletionsSent ==> job.announced != {})
      && (job.phase == Publishing ==> FullyStaged(job) && job.publishingSince.Some?)
      && (job.full || job.totalFiles > 0 || job.deletedCount > 0)
    case DiffOfSnapshot =>
      && stored == job.base
      && Needed(job.files) == Pending(stored, Entries(job.files))
      && job.announced == Deleted(stored, Entries(job.files))
    case Progress =>
      && (forall p | p in job.files && job.files[p].indexed :: job.files[p].needsIndex)
      && job.totalFiles == |Needed(job.files)|
      && job.indexedFiles == |Staged(job.files)|
      && job.deletedCount == |job.announced|
  }

  /** The file table is the diff against the stored snapshot, and the counters count it. */
  ghost predicate JobShape(job: Job, stored: Snapshot, hasWorkspace: bool) {
    forall f: Facet :: Has(f, job, stored, hasWorkspace)
  }

  ghost predicate JobsShaped(jobs: Jobs, snapshots: map<Root, Snapshot>, workspaces: map<Root, int>) {
    forall j | RunningJob(jobs, j) :: JobShape(jobs[j], Stored(snapshots, jobs[j].root), jobs[j].root in workspaces)
  }

  // ---- operations in flight -----------------------------------------------------------------------

  /** The files of a prepared batch are needed files of the job, with the manifest's content; a job without file rows
      may send anything as deleted. */
  ghost predicate BatchFits(job: Job, files: Snapshot, removed: set<Path>) {
    && (job.lost || forall p | p in files :: p in job.files && job.files[p].needsIndex && job.files[p].entry == files[p])
    && (removed == {} || (job.announced != {} && (job.lost || removed == job.announced)))
  }

  ghost predicate CreateOk(row: Lease, op: CreateOp, jobs: Jobs) {
    && row.mode == Exclusive && row.kind == CreateJob && row.tenant == op.root.tenant
    && (op.stage.Inspected? ==> !RunningOn(jobs, op.root))
  }

  ghost predicate UploadOk(row: Lease, op: UploadOp, jobs: Jobs) {
    && row.mode == Shared && row.kind == UploadBatch && row.resource == JobResource(op.job)
    && (!op.stage.Received? && RunningJob(jobs, op.job) ==>
          && jobs[op.job].root.tenant == row.tenant
          && BatchFits(jobs[op.job], op.stage.files, op.stage.removed)
          && (op.stage.Called? ==> jobs[op.job].phase != Publishing))
  }

  /** Stages in which the operation knows that its job is handed off. */
  predicate PastHandoff(stage: PublishStage) {
    !(stage.Requested? || stage.Checked? || stage.Reconciling?)
  }

  ghost predicate PublishOk(row: Lease, op: PublishOp, jobs: Jobs, usurped: map<JobId, Root>) {
    && row.mode == Shared && (row.kind == CompleteJob || row.kind == ReconcilePublication) && row.resource == JobResource(op.job)
    && (op.stage.Checked? && RunningJob(jobs, op.job) ==>
          jobs[op.job].root.tenant == row.tenant && FullyStaged(jobs[op.job]) && jobs[op.job].cloudRevision == op.stage.recorded)
    && (PastHandoff(op.stage) ==> op.job in usurped || (PublishingJob(jobs, op.job) && jobs[op.job].root.tenant == row.tenant))
    && (op.stage.Intended? && op.job in jobs ==> jobs[op.job].cloudRevision <= 0)
  }

  ghost predicate FailOk(row: Lease, op: FailOp, jobs: Jobs) {
    && row.mode == Shared && row.kind == FailJob && row.resource == JobResource(op.job)
    && (op.checked && RunningJob(jobs, op.job) ==> jobs[op.job].root.tenant == row.tenant && jobs[op.job].phase != Publishing)
  }

  ghost predicate DismissOk(row: Lease, op: DismissOp, jobs: Jobs, stored: Snapshot) {
    && row.mode == Exclusive && row.kind == DismissRootFailure && row.tenant == op.root.tenant
    && (!op.stage.DismissEntered? ==> !RunningOn(jobs, op.root))
    && (!op.stage.DismissEntered? && op.stage != DismissReady(true) ==> stored == map[])
  }

  ghost predicate CreatesOk(leases: Leases.Table, creates: map<Token, CreateOp>, jobs: Jobs) {
    forall t | t in creates && t in leases :: CreateOk(leases[t], creates[t], jobs)
  }

  ghost predicate UploadsOk(leases: Leases.Table, uploads: map<Token, UploadOp>, jobs: Jobs) {
    forall t | t in uploads && t in leases :: UploadOk(leases[t], uploads[t], jobs)
  }

  ghost predicate PublishersOk(leases: Leases.Table, publishers: map<Token, PublishOp>, jobs: Jobs, usurped: map<JobId, Root>) {
    forall t | t in publishers && t in leases :: PublishOk(leases[t], publishers[t], jobs, usurped)
  }

  /** A job whose begin failure was recorded after its handoff is failed, as long as its row exists. */
  ghost predicate UsurpedFailed(jobs: Jobs, usurped: map<JobId, Root>) {
    forall j | j in usurped && j in jobs :: jobs[j].status == Failed(BeginFailed) && jobs[j].root == usurped[j]
  }

  ghost predicate FailsOk(leases: Leases.Table, fails: map<Token, FailOp>, jobs: Jobs) {
    forall t | t in fails && t in leases :: FailOk(leases[t], fails[t], jobs)
  }

  ghost predicate DismissalsOk(leases: Leases.Table, dismissals: map<Token, DismissOp>, jobs: Jobs, snapshots: map<Root, Snapshot>) {
    forall t | t in dismissals && t in leases :: DismissOk(leases[t], dismissals[t], jobs, Stored(snapshots, dismissals[t].root))
  }

  predicate DeleteOk(row: Lease, op: DeleteOp) {
    row.mode == Exclusive && row.kind == DeleteRootJob && row.tenant == op.claim.root.tenant
  }

  ghost predicate DeletesOk(leases: Leases.Table, deletes: map<Token, DeleteOp>) {
    forall t | t in deletes && t in leases :: DeleteOk(leases[t], deletes[t])
  }

  // ---- deletion fence -------------------------------------------------------------------------------

  /** While a deletion fences a tenant, none of its jobs is handed off ... */
  ghost predicate FenceExcludesHandoff(deletions: D.Table, jobs: Jobs) {
    forall j | PublishingJob(jobs, j) :: !D.Fencing(deletions, jobs[j].root.tenant)
  }

  ghost predicate Harmless(tenant: Tenant, j: JobId, jobs: Jobs) {
    RunningJob(jobs, j) ==> jobs[j].root.tenant != tenant
  }

  /** ... and no operation, even one with a revived lease, is in a position to hand one off. */
  ghost predicate FencedAreHarmless(deletions: D.Table, leases: Leases.Table, publishers: map<Token, PublishOp>, jobs: Jobs) {
    forall t | t in publishers && t in leases && D.Fencing(deletions, leases[t].tenant) ::
      Harmless(leases[t].tenant, publishers[t].job, jobs)
  }

  // ---- fences, except where a lease was revived under them --------------------------------------------------

  /** Every fence that refuses this lease now has been breached before. */
  ghost predicate Excused(row: Lease, deletions: D.Table, configs: C.Table, late: set<Breach>) {
    && (forall id | D.ActiveIn(deletions, row.tenant, id) && row.kind != DeleteRootJob :: OfDeletion(id) in late)
    && (forall id | C.ResetBy(configs, id) :: OfConfig(id, row.tenant) in late)
  }

  ghost predicate LeasesUnfenced(leases: Leases.Table, now: Time, deletions: D.Table, configs: C.Table, late: set<Breach>) {
    forall t | t in leases && Live(leases[t], now) :: Excused(leases[t], deletions, configs, late)
  }

  /** A deletion with running jobs of its tenant beside it has been breached. */
  ghost predicate TenantExcused(tenant: Tenant, deletions: D.Table, late: set<Breach>) {
    forall id | D.ActiveIn(deletions, tenant, id) :: OfDeletion(id) in late
  }

  ghost predicate JobsUnfenced(jobs: Jobs, deletions: D.Table, late: set<Breach>) {
    forall j | RunningJob(jobs, j) :: TenantExcused(jobs[j].root.tenant, deletions, late)
  }

  /** A deletion and an embedding change are never active together, however late leases are renewed. */
  ghost predicate FencesApart(deletions: D.Table, configs: C.Table) {
    C.Resetting(configs) ==> !D.AnyActive(deletions)
  }

  function BookOf(s: State): Book {
    Book(s.now, s.deletions, s.claims, s.cleaned, s.configs, s.configClaims, s.resets)
  }

  datatype Condition =
    | Usurpations | Duties | LiveLeases | FencedRunning | Fences
    | LeaseRows | RunningJobs | StoredFiles | JobTables | CreateOps | UploadOps | PublishOps
    | FailOps | DismissOps | DeleteOps | ActiveDeletions | FencedJobs | FencedPublishers

  ghost predicate Holds(c: Condition, s: State) {
    match c
    case Duties => Dutiful(BookOf(s))
    case Usurpations => UsurpedFailed(s.jobs, s.doubts.usurped)
    case LiveLeases => LeasesUnfenced(s.leases, s.now, s.deletions, s.configs, s.late)
    case FencedRunning => JobsUnfenced(s.jobs, s.deletions, s.late)
    case Fences => FencesApart(s.deletions, s.configs)
    case LeaseRows => Compatible(s.leases)
    case RunningJobs => OneRunning(s.jobs)
    case StoredFiles => FilesHaveWorkspace(s.snapshots, s.workspaces)
    case JobTables => JobsShaped(s.jobs, s.snapshots, s.workspaces)
    case CreateOps => CreatesOk(s.leases, s.creates, s.jobs)
    case UploadOps => UploadsOk(s.leases, s.uploads, s.jobs)
    case PublishOps => PublishersOk(s.leases, s.publishers, s.jobs, s.doubts.usurped)
    case FailOps => FailsOk(s.leases, s.fails, s.jobs)
    case DismissOps => DismissalsOk(s.leases, s.dismissals, s.jobs, s.snapshots)
    case DeleteOps => DeletesOk(s.leases, s.deletes)
    case ActiveDeletions => D.OneActive(s.deletions)
    case FencedJobs => FenceExcludesHandoff(s.deletions, s.jobs)
    case FencedPublishers => FencedAreHarmless(s.deletions, s.leases, s.publishers, s.jobs)
  }

  /** The safety invariant. Naming its conditions lets a proof open just the ones it needs. */
  ghost predicate Safe(s: State) {
    forall c: Condition :: Holds(c, s)
  }

  lemma Given(c: Condition, s: State)
    requires Safe(s)
    ensures Holds(c, s)
  {
  }

  // ---- what an operation may rely on, and its moves ------------------------------------------------------

  lemma CreateFacts(s: State, t: Token)
    requires Safe(s) && t in s.leases && t in s.creates
    ensures CreateOk(s.leases[t], s.creates[t], s.jobs)
  {
    Given(CreateOps, s);
  }

  lemma PutCreate(s: State, t: Token, op: CreateOp)
    requires Safe(s) && (t in s.leases ==> CreateOk(s.leases[t], op, s.jobs))
    ensures Safe(s.(creates := s.creates[t := op]))
  {
    var s' := s.(creates := s.creates[t := op]);
    forall c: Condition ensures Holds(c, s') { Given(c, s); }
  }

  lemma DropCreate(s: State, t: Token)
    requires Safe(s)
    ensures Safe(s.(creates := s.creates - {t}))
  {
    var s' := s.(creates := s.creates - {t});
    forall c: Condition ensures Holds(c, s') { Given(c, s); }
  }

  lemma UploadFacts(s: State, t: Token)
    requires Safe(s) && t in s.leases && t in s.uploads
    ensures UploadOk(s.leases[t], s.uploads[t], s.jobs)
  {
    Given(UploadOps, s);
  }

  lemma PutUpload(s: State, t: Token, op: UploadOp)
    requires Safe(s) && (t in s.leases ==> UploadOk(s.leases[t], op, s.jobs))
    ensures Safe(s.(uploads := s.uploads[t := op]))
  {
    var s' := s.(uploads := s.uploads[t := op]);
    forall c: Condition ensures Holds(c, s') { Given(c, s); }
  }

  lemma DropUpload(s: State, t: Token)
    requires Safe(s)
    ensures Safe(s.(uploads := s.uploads - {t}))
  {
    var s' := s.(uploads := s.uploads - {t});
    forall c: Condition ensures Holds(c, s') { Given(c, s); }
  }

  lemma PublishFacts(s: State, t: Token)
    requires Safe(s) && t in s.leases && t in s.publishers
    ensures PublishOk(s.leases[t], s.publishers[t], s.jobs, s.doubts.usurped)
    ensures RunningJob(s.jobs, s.publishers[t].job) ==> s.publishers[t].job !in s.doubts.usurped
    ensures D.Fencing(s.deletions, s.leases[t].tenant) ==> Harmless(s.leases[t].tenant, s.publishers[t].job, s.jobs)
  {
    Given(PublishOps, s);
    Given(FencedPublishers, s);
    Given(Usurpations, s);
  }

  lemma PutPublish(s: State, t: Token, op: PublishOp)
    requires Safe(s) && (t in s.leases ==> PublishOk(s.leases[t], op, s.jobs, s.doubts.usurped))
    requires t in s.leases && D.Fencing(s.deletions, s.leases[t].tenant) ==> Harmless(s.leases[t].tenant, op.job, s.jobs)
    ensures Safe(s.(publishers := s.publishers[t := op]))
  {
    var s' := s.(publishers := s.publishers[t := op]);
    forall c: Condition ensures Holds(c, s') { Given(c, s); }
  }

  lemma DropPublish(s: State, t: Token)
    requires Safe(s)
    ensures Safe(s.(publishers := s.publishers - {t}))
  {
    var s' := s.(publishers := s.publishers - {t});
    forall c: Condition ensures Holds(c, s') { Given(c, s); }
  }

  lemma FailFacts(s: State, t: Token)
    requires Safe(s) && t in s.leases && t in s.fails
    ensures FailOk(s.leases[t], s.fails[t], s.jobs)
  {
    Given(FailOps, s);
  }

  lemma PutFail(s: State, t: Token, op: FailOp)
    requires Safe(s) && (t in s.leases ==> FailOk(s.leases[t], op, s.jobs))
    ensures Safe(s.(fails := s.fails[t := op]))
  {
    var s' := s.(fails := s.fails[t := op]);
    forall c: Condition ensures Holds(c, s') { Given(c, s); }
  }

  lemma DropFail(s: State, t: Token)
    requires Safe(s)
    ensures Safe(s.(fails := s.fails - {t}))
  {
    var s' := s.(fails := s.fails - {t});
    forall c: Condition ensures Holds(c, s') { Given(c, s); }
  }

  lemma DismissFacts(s: State, t: Token)
    requires Safe(s) && t in s.leases && t in s.dismissals
    ensures DismissOk(s.leases[t], s.dismissals[t], s.jobs, Stored(s.snapshots, s.dismissals[t].root))
  {
    Given(DismissOps, s);
  }

  lemma PutDismiss(s: State, t: Token, op: DismissOp)
    requires Safe(s) && (t in s.leases ==> DismissOk(s.leases[t], op, s.jobs, Stored(s.snapshots, op.root)))
    ensures Safe(s.(dismissals := s.dismissals[t := op]))
  {
    var s' := s.(dismissals := s.dismissals[t := op]);
    forall c: Condition ensures Holds(c, s') { Given(c, s); }
  }

  lemma DropDismiss(s: State, t: Token)
    requires Safe(s)
    ensures Safe(s.(dismissals := s.dismissals - {t}))
  {
    var s' := s.(dismissals := s.dismissals - {t});
    forall c: Condition ensures Holds(c, s') { Given(c, s); }
  }

  lemma DeleteFacts(s: State, t: Token)
    requires Safe(s) && t in s.leases && t in s.deletes
    ensures DeleteOk(s.leases[t], s.deletes[t])
  {
    Given(DeleteOps, s);
  }

  lemma PutDelete(s: State, t: Token, op: DeleteOp)
    requires Safe(s) && (t in s.leases ==> DeleteOk(s.leases[t], op))
    ensures Safe(s.(deletes := s.deletes[t := op]))
  {
    var s' := s.(deletes := s.deletes[t := op]);
    forall c: Condition ensures Holds(c, s') { Given(c, s); }
  }

  lemma DropDelete(s: State, t: Token)
    requires Safe(s)
    ensures Safe(s.(deletes := s.deletes - {t}))
  {
    var s' := s.(deletes := s.deletes - {t});
    forall c: Condition ensures Holds(c, s') { Given(c, s); }
  }

  lemma JobFacts(s: State, j: JobId)
    requires Safe(s) && RunningJob(s.jobs, j)
    ensures JobShape(s.jobs[j], Stored(s.snapshots, s.jobs[j].root), s.jobs[j].root in s.workspaces)
    ensures s.jobs[j].phase == Publishing ==> !D.Fencing(s.deletions, s.jobs[j].root.tenant)
  {
    Given(JobTables, s);
    Given(FencedJobs, s);
    assert s.jobs[j].phase == Publishing ==> PublishingJob(s.jobs, j);
  }

  lemma TickKeepsSafe(s: State, elapsed: nat)
    requires Safe(s)
    ensures Safe(s.(now := s.now + elapsed))
  {
    var s' := s.(now := s.now + elapsed);
    Given(Duties, s);
    TickKeeps(BookOf(s), elapsed);
    forall c: Condition ensures Holds(c, s') { Given(c, s); }
  }

  lemma WithRevisions(s: State, revisions: map<JobId, int>)
    requires Safe(s)
    ensures Safe(s.(revisions := revisions))
  {
    var s' := s.(revisions := revisions);
    forall c: Condition ensures Holds(c, s') { Given(c, s); }
  }

  lemma WithDoubts(s: State, doubts: Doubts)
    requires Safe(s) && doubts.usurped == s.doubts.usurped
    ensures Safe(s.(doubts := doubts))
  {
    var s' := s.(doubts := doubts);
    forall c: Condition ensures Holds(c, s') { Given(c, s); }
  }

  lemma MoreExcused(late: set<Breach>, more: set<Breach>, row: Lease, deletions: D.Table, configs: C.Table)
    requires late <= more && Excused(row, deletions, configs, late)
    ensures Excused(row, deletions, configs, more)
  {
  }

  lemma LateKeepsSafe(s: State, late: set<Breach>)
    requires Safe(s) && s.late <= late
    ensures Safe(s.(late := late))
  {
    var s' := s.(late := late);
    Given(LiveLeases, s);
    forall t | t in s.leases && Live(s.leases[t], s.now) ensures Excused(s.leases[t], s.deletions, s.configs, late) {
      MoreExcused(s.late, late, s.leases[t], s.deletions, s.configs);
    }
    forall c: Condition ensures Holds(c, s') { Given(c, s); }
  }

  lemma WithSent(s: State, sent: set<Upstream.Message>)
    requires Safe(s)
    ensures Safe(s.(sent := sent))
  {
    var s' := s.(sent := sent);
    forall c: Condition ensures Holds(c, s') { Given(c, s); }
  }

  lemma WithCloud(s: State, cloud: Upstream.Cloud)
    requires Safe(s)
    ensures Safe(s.(cloud := cloud))
  {
    var s' := s.(cloud := cloud);
    forall c: Condition ensures Holds(c, s') { Given(c, s); }
  }

  // ---- lease rows come and go ------------------------------------------------------------------------

  /** Rows of `after` existed before, except possibly the row of `t`. */
  ghost predicate RowsFrom(leases: Leases.Table, after: Leases.Table, t: Token) {
    forall u | u in after && u != t :: u in leases && after[u] == leases[u]
  }

  lemma RowsKeepRootOps(s: State, leases: Leases.Table, t: Token)
    requires Safe(s) && RowsFrom(s.leases, leases, t)
    requires t !in s.creates && t !in s.dismissals && t !in s.deletes
    ensures CreatesOk(leases, s.creates, s.jobs)
    ensures DismissalsOk(leases, s.dismissals, s.jobs, s.snapshots)
    ensures DeletesOk(leases, s.deletes)
  {
    Given(CreateOps, s);
    Given(DismissOps, s);
    Given(DeleteOps, s);
  }

  lemma RowsKeepJobOps(s: State, leases: Leases.Table, t: Token)
    requires Safe(s) && RowsFrom(s.leases, leases, t)
    requires t !in s.uploads && t !in s.publishers && t !in s.fails
    ensures UploadsOk(leases, s.uploads, s.jobs)
    ensures PublishersOk(leases, s.publishers, s.jobs, s.doubts.usurped)
    ensures FailsOk(leases, s.fails, s.jobs)
    ensures FencedAreHarmless(s.deletions, leases, s.publishers, s.jobs)
  {
    Given(UploadOps, s);
    Given(PublishOps, s);
    Given(FailOps, s);
    Given(FencedPublishers, s);
  }

  /** A new row for a fresh token, and rows that disappeared. */
  lemma NewRowKeepsSafe(s: State, leases: Leases.Table, t: Token)
    requires Safe(s) && Compatible(leases) && RowsFrom(s.leases, leases, t) && FreshToken(s, t)
    requires t in leases ==> !Fenced(s.deletions, s.configs, leases[t].tenant, leases[t].kind)
    ensures Safe(s.(leases := leases))
  {
    RowsKeepRootOps(s, leases, t);
    RowsKeepJobOps(s, leases, t);
    var s' := s.(leases := leases);
    forall c: Condition ensures Holds(c, s') { Given(c, s); }
  }

  /** Rows that disappeared or got a new expiry. */
  lemma OldRowsKeepSafe(s: State, leases: Leases.Table)
    requires Safe(s) && Compatible(leases)
    requires forall u | u in leases :: u in s.leases && leases[u].(expires := 0) == s.leases[u].(expires := 0)
    requires forall u | u in leases && Live(leases[u], s.now) ::
               Live(s.leases[u], s.now) || Excused(leases[u], s.deletions, s.configs, s.late)
    ensures Safe(s.(leases := leases))
  {
    var s' := s.(leases := leases);
    forall c: Condition ensures Holds(c, s') { Given(c, s); }
  }

  // ---- jobs that end, disappear or get a heartbeat -----------------------------------------------------

  /** The same job, at another time, with or without its file rows. */
  predicate SameBut(before: Job, after: Job) {
    after == before.(heartbeat := after.heartbeat, lost := after.lost) && (before.lost ==> after.lost)
  }

  /** No job appears, starts running or changes while running, except for its heartbeat and the loss of its file rows;
      handed-off jobs stay, ended jobs stay as they are or disappear. */
  ghost predicate Evolves(jobs: Jobs, after: Jobs) {
    && (forall j | RunningJob(after, j) :: RunningJob(jobs, j) && SameBut(jobs[j], after[j]))
    && (forall j | PublishingJob(jobs, j) :: RunningJob(after, j))
    && (forall j | j in after :: j in jobs && (jobs[j].status == Running || after[j] == jobs[j]))
  }

  lemma RunningOnShrinks(jobs: Jobs, after: Jobs, r: Root)
    requires Evolves(jobs, after)
    ensures RunningOn(after, r) ==> RunningOn(jobs, r)
  {
  }

  lemma EvolvedShape(jobs: Jobs, after: Jobs, j: JobId, stored: Snapshot, hasWorkspace: bool)
    requires Evolves(jobs, after) && RunningJob(after, j) && JobShape(jobs[j], stored, hasWorkspace)
    ensures JobShape(after[j], stored, hasWorkspace)
  {
    forall f: Facet ensures Has(f, after[j], stored, hasWorkspace) { assert Has(f, jobs[j], stored, hasWorkspace); }
  }

  lemma EvolveKeepsTables(jobs: Jobs, after: Jobs, snapshots: map<Root, Snapshot>, workspaces: map<Root, int>, deletions: D.Table, late: set<Breach>)
    requires Evolves(jobs, after) && OneRunning(jobs) && JobsShaped(jobs, snapshots, workspaces) && FenceExcludesHandoff(deletions, jobs)
    ensures JobsUnfenced(jobs, deletions, late) ==> JobsUnfenced(after, deletions, late)
    ensures OneRunning(after) && JobsShaped(after, snapshots, workspaces) && FenceExcludesHandoff(deletions, after)
  {
    forall j | RunningJob(after, j)
      ensures after[j].root == jobs[j].root
      ensures JobShape(after[j], Stored(snapshots, after[j].root), after[j].root in workspaces)
    {
      EvolvedShape(jobs, after, j, Stored(snapshots, jobs[j].root), jobs[j].root in workspaces);
    }
    forall j | PublishingJob(after, j) ensures !D.Fencing(deletions, after[j].root.tenant) {
      assert PublishingJob(jobs, j);
    }
  }

  lemma EvolveKeepsCreates(leases: Leases.Table, creates: map<Token, CreateOp>, jobs: Jobs, after: Jobs)
    requires Evolves(jobs, after) && CreatesOk(leases, creates, jobs)
    ensures CreatesOk(leases, creates, after)
  {
  }

  lemma EvolveKeepsUploads(leases: Leases.Table, uploads: map<Token, UploadOp>, jobs: Jobs, after: Jobs)
    requires Evolves(jobs, after) && UploadsOk(leases, uploads, jobs)
    ensures UploadsOk(leases, uploads, after)
  {
  }

  lemma EvolveKeepsPublishers(leases: Leases.Table, publishers: map<Token, PublishOp>, jobs: Jobs, after: Jobs, usurped: map<JobId, Root>)
    requires Evolves(jobs, after) && PublishersOk(leases, publishers, jobs, usurped) && UsurpedFailed(jobs, usurped)
    ensures PublishersOk(leases, publishers, after, usurped)
  {
  }

  lemma EvolveKeepsFence(deletions: D.Table, leases: Leases.Table, publishers: map<Token, PublishOp>, jobs: Jobs, after: Jobs)
    requires Evolves(jobs, after) && FencedAreHarmless(deletions, leases, publishers, jobs)
    ensures FencedAreHarmless(deletions, leases, publishers, after)
  {
  }

  lemma EvolveKeepsFails(leases: Leases.Table, fails: map<Token, FailOp>, jobs: Jobs, after: Jobs)
    requires Evolves(jobs, after) && FailsOk(leases, fails, jobs)
    ensures FailsOk(leases, fails, after)
  {
  }

  lemma EvolveKeepsDismissals(leases: Leases.Table, dismissals: map<Token, DismissOp>, jobs: Jobs, after: Jobs, snapshots: map<Root, Snapshot>)
    requires Evolves(jobs, after) && DismissalsOk(leases, dismissals, jobs, snapshots)
    ensures DismissalsOk(leases, dismissals, after, snapshots)
  {
  }

  lemma EvolveKeepsSafe(s: State, jobs: Jobs)
    requires Safe(s) && Evolves(s.jobs, jobs)
    ensures Safe(s.(jobs := jobs))
  {
    var s' := s.(jobs := jobs);
    Given(RunningJobs, s);
    Given(JobTables, s);
    Given(FencedJobs, s);
    Given(Usurpations, s);
    EvolveKeepsTables(s.jobs, jobs, s.snapshots, s.workspaces, s.deletions, s.late);
    forall c: Condition ensures Holds(c, s') {
      Given(c, s);
      match c
      case CreateOps => EvolveKeepsCreates(s.leases, s.creates, s.jobs, jobs);
      case UploadOps => EvolveKeepsUploads(s.leases, s.uploads, s.jobs, jobs);
      case PublishOps => EvolveKeepsPublishers(s.leases, s.publishers, s.jobs, jobs, s.doubts.usurped);
      case FencedPublishers => EvolveKeepsFence(s.deletions, s.leases, s.publishers, s.jobs, jobs);
      case FailOps => EvolveKeepsFails(s.leases, s.fails, s.jobs, jobs);
      case DismissOps => EvolveKeepsDismissals(s.leases, s.dismissals, s.jobs, jobs, s.snapshots);
      case _ =>
    }
  }

  // ---- an operation changes the job its lease covers ----------------------------------------------------

  /** The lease `row` entitles its holder to change job `j` of `tenant`. */
  predicate Covers(row: Lease, tenant: Tenant, j: JobId) {
    row.tenant == tenant && (row.mode == Exclusive || row.resource == JobResource(j))
  }

  /** The holder of `t` may change the running job `j`, and the job stays on its root. */
  ghost predicate MayChange(leases: Leases.Table, jobs: Jobs, t: Token, j: JobId, job: Job) {
    && Compatible(leases) && t in leases && RunningJob(jobs, j)
    && Covers(leases[t], jobs[j].root.tenant, j) && job.root == jobs[j].root
  }

  lemma ChangeKeepsCreates(leases: Leases.Table, creates: map<Token, CreateOp>, jobs: Jobs, t: Token, j: JobId, job: Job)
    requires MayChange(leases, jobs, t, j, job) && CreatesOk(leases, creates, jobs) && t !in creates
    ensures CreatesOk(leases, creates, jobs[j := job])
  {
  }

  lemma ChangeKeepsDismissals(leases: Leases.Table, dismissals: map<Token, DismissOp>, jobs: Jobs, snapshots: map<Root, Snapshot>, t: Token, j: JobId, job: Job)
    requires MayChange(leases, jobs, t, j, job) && DismissalsOk(leases, dismissals, jobs, snapshots) && t !in dismissals
    ensures DismissalsOk(leases, dismissals, jobs[j := job], snapshots)
  {
  }

  lemma ChangeKeepsFails(leases: Leases.Table, fails: map<Token, FailOp>, jobs: Jobs, t: Token, j: JobId, job: Job)
    requires MayChange(leases, jobs, t, j, job) && FailsOk(leases, fails, jobs) && t !in fails
    ensures FailsOk(leases, fails, jobs[j := job])
  {
  }

  lemma ChangeKeepsPublishers(leases: Leases.Table, publishers: map<Token, PublishOp>, jobs: Jobs, t: Token, j: JobId, job: Job, usurped: map<JobId, Root>)
    requires MayChange(leases, jobs, t, j, job) && PublishersOk(leases, publishers, jobs, usurped) && UsurpedFailed(jobs, usurped)
    requires t in publishers ==> PublishOk(leases[t], publishers[t], jobs[j := job], usurped)
    ensures PublishersOk(leases, publishers, jobs[j := job], usurped)
  {
  }

  lemma ChangeKeepsFence(deletions: D.Table, leases: Leases.Table, publishers: map<Token, PublishOp>, jobs: Jobs, j: JobId, job: Job)
    requires RunningJob(jobs, j) && job.root == jobs[j].root && FencedAreHarmless(deletions, leases, publishers, jobs)
    ensures FencedAreHarmless(deletions, leases, publishers, jobs[j := job])
  {
  }

  /** A change that concurrent uploads of the same job survive. */
  ghost predicate UploadFriendly(before: Job, after: Job) {
    && after.status == Running && after.phase != Publishing && after.announced == before.announced && after.lost == before.lost
    && before.files.Keys == after.files.Keys
    && forall p | p in before.files ::
         after.files[p].entry == before.files[p].entry && after.files[p].needsIndex == before.files[p].needsIndex
  }

  lemma ChangeKeepsUploads(leases: Leases.Table, uploads: map<Token, UploadOp>, jobs: Jobs, t: Token, j: JobId, job: Job)
    requires MayChange(leases, jobs, t, j, job) && UploadsOk(leases, uploads, jobs)
    requires if leases[t].kind == UploadBatch then UploadFriendly(jobs[j], job) else t !in uploads
    ensures UploadsOk(leases, uploads, jobs[j := job])
  {
  }

  lemma ChangeKeepsOneRunning(jobs: Jobs, j: JobId, job: Job)
    requires OneRunning(jobs) && RunningJob(jobs, j) && job.root == jobs[j].root
    ensures OneRunning(jobs[j := job])
  {
  }

  lemma ChangeKeepsShapes(jobs: Jobs, j: JobId, job: Job, snapshots: map<Root, Snapshot>, workspaces: map<Root, int>)
    requires JobsShaped(jobs, snapshots, workspaces)
    requires job.status == Running ==> JobShape(job, Stored(snapshots, job.root), job.root in workspaces)
    ensures JobsShaped(jobs[j := job], snapshots, workspaces)
  {
  }

  lemma ChangeKeepsHandoffFence(deletions: D.Table, jobs: Jobs, j: JobId, job: Job)
    requires FenceExcludesHandoff(deletions, jobs)
    requires job.status == Running && job.phase == Publishing ==> !D.Fencing(deletions, job.root.tenant)
    ensures FenceExcludesHandoff(deletions, jobs[j := job])
  {
  }

  /** A lease kind belongs to one kind of operation. */
  lemma KindsExclude(s: State, t: Token)
    requires Safe(s) && t in s.leases
    ensures s.leases[t].kind != CreateJob ==> t !in s.creates
    ensures s.leases[t].kind != UploadBatch ==> t !in s.uploads
    ensures s.leases[t].kind != CompleteJob && s.leases[t].kind != ReconcilePublication ==> t !in s.publishers
    ensures s.leases[t].kind != FailJob ==> t !in s.fails
    ensures s.leases[t].kind != DismissRootFailure ==> t !in s.dismissals
  {
    Given(CreateOps, s);
    Given(UploadOps, s);
    Given(PublishOps, s);
    Given(FailOps, s);
    Given(DismissOps, s);
  }

  ghost predicate KeepsShape(s: State, job: Job) {
    job.status == Running ==>
      && JobShape(job, Stored(s.snapshots, job.root), job.root in s.workspaces)
      && (job.phase == Publishing ==> !D.Fencing(s.deletions, job.root.tenant))
  }

  predicate WorksOnJob(kind: Kind) {
    kind == UploadBatch || kind == CompleteJob || kind == ReconcilePublication
  }

  lemma ChangeKeepsJobTables(s: State, j: JobId, job: Job)
    requires Safe(s) && RunningJob(s.jobs, j) && job.root == s.jobs[j].root && KeepsShape(s, job)
    ensures OneRunning(s.jobs[j := job]) && JobsShaped(s.jobs[j := job], s.snapshots, s.workspaces)
    ensures FenceExcludesHandoff(s.deletions, s.jobs[j := job])
    ensures JobsUnfenced(s.jobs[j := job], s.deletions, s.late)
    ensures UsurpedFailed(s.jobs[j := job], s.doubts.usurped)
  {
    Given(FencedRunning, s);
    Given(Usurpations, s);
    Given(RunningJobs, s);
    ChangeKeepsOneRunning(s.jobs, j, job);
    Given(JobTables, s);
    ChangeKeepsShapes(s.jobs, j, job, s.snapshots, s.workspaces);
    Given(FencedJobs, s);
    ChangeKeepsHandoffFence(s.deletions, s.jobs, j, job);
  }

  lemma ChangeKeepsRootOps(s: State, t: Token, j: JobId, job: Job)
    requires Safe(s) && MayChange(s.leases, s.jobs, t, j, job) && WorksOnJob(s.leases[t].kind)
    ensures CreatesOk(s.leases, s.creates, s.jobs[j := job]) && DismissalsOk(s.leases, s.dismissals, s.jobs[j := job], s.snapshots)
    ensures FailsOk(s.leases, s.fails, s.jobs[j := job])
  {
    KindsExclude(s, t);
    Given(CreateOps, s);
    Given(DismissOps, s);
    Given(FailOps, s);
    ChangeKeepsCreates(s.leases, s.creates, s.jobs, t, j, job);
    ChangeKeepsDismissals(s.leases, s.dismissals, s.jobs, s.snapshots, t, j, job);
    ChangeKeepsFails(s.leases, s.fails, s.jobs, t, j, job);
  }

  lemma ChangeKeepsJobOps(s: State, t: Token, j: JobId, job: Job)
    requires Safe(s) && MayChange(s.leases, s.jobs, t, j, job)
    requires s.leases[t].kind == UploadBatch ==> UploadFriendly(s.jobs[j], job)
    requires t in s.publishers ==> PublishOk(s.leases[t], s.publishers[t], s.jobs[j := job], s.doubts.usurped)
    ensures UploadsOk(s.leases, s.uploads, s.jobs[j := job]) && PublishersOk(s.leases, s.publishers, s.jobs[j := job], s.doubts.usurped)
    ensures FencedAreHarmless(s.deletions, s.leases, s.publishers, s.jobs[j := job])
  {
    KindsExclude(s, t);
    Given(UploadOps, s);
    Given(PublishOps, s);
    Given(FencedPublishers, s);
    Given(Usurpations, s);
    ChangeKeepsUploads(s.leases, s.uploads, s.jobs, t, j, job);
    ChangeKeepsPublishers(s.leases, s.publishers, s.jobs, t, j, job, s.doubts.usurped);
    ChangeKeepsFence(s.deletions, s.leases, s.publishers, s.jobs, j, job);
  }

  /** An upload, completion or reconciliation changes the job its lease covers; the job must keep its shape. */
  lemma ChangeKeepsSafe(s: State, t: Token, j: JobId, job: Job)
    requires Safe(s) && MayChange(s.leases, s.jobs, t, j, job) && KeepsShape(s, job) && WorksOnJob(s.leases[t].kind)
    requires s.leases[t].kind == UploadBatch ==> UploadFriendly(s.jobs[j], job)
    requires t in s.publishers ==> PublishOk(s.leases[t], s.publishers[t], s.jobs[j := job], s.doubts.usurped)
    ensures Safe(s.(jobs := s.jobs[j := job]))
  {
    var s' := s.(jobs := s.jobs[j := job]);
    ChangeKeepsJobTables(s, j, job);
    ChangeKeepsRootOps(s, t, j, job);
    ChangeKeepsJobOps(s, t, j, job);
    forall c: Condition ensures Holds(c, s') { Given(c, s); }
  }
}
