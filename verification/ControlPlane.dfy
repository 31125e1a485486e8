/** The relay's indexing control plane as a transition system: one action per SQL transaction,
    SQL statement or upstream event, with any number of operations, workers and sweepers interleaved.

    An operation in flight is keyed by the token of its lease and remembers what it has read so far.
    It acts only while its lease row exists and is unexpired, unless it is a start that cleans up after a failed begin. */
module ControlPlane {
  import opened RelayTypes
  import opened Leases
  import opened Manifest
  import opened IndexJobs
  import opened Upstream
  import D = RootDeletion
  import C = PlatformConfig

  // ---- operations between two of their statements ---------------------------------------------

  datatype CreateStage = Entered | Inspected | Begun(job: JobId) | Aborted(job: JobId)
  datatype CreateOp = CreateOp(root: Root, stage: CreateStage)

  datatype UploadStage =
    | Received
    | Prepared(files: Snapshot, removed: set<Path>)
    | Called(files: Snapshot, removed: set<Path>)
  datatype UploadOp = UploadOp(job: JobId, stage: UploadStage)

  /** completeIndexJobUnderLease and reconcileIndexPublication, which calls it. */
  datatype PublishStage =
    | Requested(known: Option<int>)
    | Checked(known: Option<int>, recorded: int)
    | Intended
    | Asked
    | Answered(revision: int)
    | Confirmed(revision: int)
    | Refused
    | Reconciling
    | StatusCalled
    | AbortCalled
  datatype PublishOp = PublishOp(job: JobId, stage: PublishStage)

  datatype FailOp = FailOp(job: JobId, checked: bool)

  datatype DismissStage = DismissEntered | DismissReady(published: bool) | WipeCalled | Wiped
  datatype DismissOp = DismissOp(root: Root, stage: DismissStage)

  datatype DeleteStage = DeleteEntered | DeleteCurrent | ClearCalled | ReceiptRead(count: int)
  datatype DeleteOp = DeleteOp(claim: D.Claim, stage: DeleteStage)

  /** What went wrong on roots: jobs that were handed off when a begin failure was recorded for them, jobs that lost
      their file rows, both with their roots, and the roots on which relay and upstream have parted. */
  datatype Doubts = Doubts(usurped: map<JobId, Root>, stripped: map<JobId, Root>, parted: set<Root>)

  /** A fence that a lease of a tenant has got past, by being renewed after it had expired. */
  datatype Breach = OfDeletion(id: string) | OfConfig(change: string, tenant: Tenant)

  /** `cleaned`, `resets`, `sent`, `revisions`, `doubts` and `late` record history: finished deletions, relay-wide
      resets, messages, the first positive revision of each job, and what the two types above say. */
  datatype State = State(
    now: Time,
    leases: Leases.Table,
    creates: map<Token, CreateOp>,
    uploads: map<Token, UploadOp>,
    publishers: map<Token, PublishOp>,
    fails: map<Token, FailOp>,
    dismissals: map<Token, DismissOp>,
    deletes: map<Token, DeleteOp>,
    jobs: map<JobId, Job>,
    snapshots: map<Root, Snapshot>,
    workspaces: map<Root, int>,
    deletions: D.Table,
    claims: set<D.Claim>,
    cleaned: seq<string>,
    configs: C.Table,
    configClaims: set<C.Claim>,
    resets: seq<string>,
    cloud: Cloud,
    sent: set<Message>,
    revisions: map<JobId, int>,
    doubts: Doubts,
    late: set<Breach>)

  function Initial(now: Time): State {
    State(now, map[], map[], map[], map[], map[], map[], map[], map[], map[], map[],
          map[], {}, [], map[], {}, [], Cloud(map[], map[], map[], {}), {}, map[], Doubts(map[], map[], {}), {})
  }

  function Stored(snapshots: map<Root, Snapshot>, root: Root): Snapshot {
    if root in snapshots then snapshots[root] else map[]
  }

  predicate RunningJob(jobs: map<JobId, Job>, j: JobId) {
    j in jobs && jobs[j].status == Running
  }

  predicate RunningOn(jobs: map<JobId, Job>, root: Root) {
    exists j | j in jobs :: jobs[j].root == root && RunningJob(jobs, j)
  }

  predicate Acting(s: State, t: Token) {
    t in s.leases && Live(s.leases[t], s.now)
  }

  /** The row an operation holding lease `t` finds when it filters by its tenant and status running. */
  predicate OwnedRunning(s: State, t: Token, j: JobId)
    requires t in s.leases
  {
    RunningJob(s.jobs, j) && s.jobs[j].root.tenant == s.leases[t].tenant
  }

  // ---- leases -------------------------------------------------------------------------------

  /** The two durable-fence subqueries of the grant statement. */
  predicate Fenced(deletions: D.Table, configs: C.Table, tenant: Tenant, kind: Kind) {
    (D.Fencing(deletions, tenant) && kind != DeleteRootJob) || C.Resetting(configs)
  }

  function OnJob(tenant: Tenant, job: JobId, kind: Kind): Lease {
    Lease(tenant, JobResource(job), Shared, kind, 0)
  }

  function OnTenant(tenant: Tenant, kind: Kind): Lease {
    Lease(tenant, Everything, Exclusive, kind, 0)
  }

  /** One acquisition attempt. An operation whose attempt is refused has no row and never acts. */
  function Attempt(s: State, t: Token, wanted: Lease): Leases.Table {
    AfterAttempt(s.leases, t, wanted, s.now, Fenced(s.deletions, s.configs, wanted.tenant, wanted.kind))
  }

  function StartCreate(s: State, t: Token, root: Root): State {
    s.(leases := Attempt(s, t, OnTenant(root.tenant, CreateJob)), creates := s.creates[t := CreateOp(root, Entered)])
  }

  function StartUpload(s: State, t: Token, tenant: Tenant, j: JobId): State {
    s.(leases := Attempt(s, t, OnJob(tenant, j, UploadBatch)), uploads := s.uploads[t := UploadOp(j, Received)])
  }

  function StartComplete(s: State, t: Token, tenant: Tenant, j: JobId): State {
    s.(leases := Attempt(s, t, OnJob(tenant, j, CompleteJob)), publishers := s.publishers[t := PublishOp(j, Requested(None))])
  }

  function StartReconcile(s: State, t: Token, tenant: Tenant, j: JobId): State {
    s.(leases := Attempt(s, t, OnJob(tenant, j, ReconcilePublication)), publishers := s.publishers[t := PublishOp(j, Reconciling)])
  }

  function StartFail(s: State, t: Token, tenant: Tenant, j: JobId): State {
    s.(leases := Attempt(s, t, OnJob(tenant, j, FailJob)), fails := s.fails[t := FailOp(j, false)])
  }

  function StartDismiss(s: State, t: Token, root: Root): State {
    s.(leases := Attempt(s, t, OnTenant(root.tenant, DismissRootFailure)), dismissals := s.dismissals[t := DismissOp(root, DismissEntered)])
  }

  function StartDelete(s: State, t: Token, claim: D.Claim): State {
    s.(leases := Attempt(s, t, OnTenant(claim.root.tenant, DeleteRootJob)), deletes := s.deletes[t := DeleteOp(claim, DeleteEntered)])
  }

  /** Any other holder of a lease, such as a tenant-wide clear; what it does is not modelled. */
  function StartOther(s: State, t: Token, wanted: Lease): State {
    s.(leases := Attempt(s, t, wanted))
  }

  /** The fences that refuse this lease now. */
  function Refusals(s: State, row: Lease): set<Breach> {
    (set id | id in s.deletions && D.ActiveIn(s.deletions, row.tenant, id) && row.kind != DeleteRootJob :: OfDeletion(id))
    + (set id | id in s.configs && C.ResetBy(s.configs, id) :: OfConfig(id, row.tenant))
  }

  function Renew(s: State, t: Token): State {
    if t in s.leases
    then s.(leases := AfterRenewal(s.leases, s.leases[t].tenant, t, s.now),
            late := if Live(s.leases[t], s.now) then s.late else s.late + Refusals(s, s.leases[t]))
    else s
  }

  function Release(s: State, t: Token): State {
    if t in s.leases then s.(leases := AfterRelease(s.leases, s.leases[t].tenant, t)) else s
  }

  /** An operation gives up between two statements: a crash, an error reply, a cancelled context. */
  function Abandon(s: State, t: Token): State {
    s.(creates := s.creates - {t}, uploads := s.uploads - {t}, publishers := s.publishers - {t},
       fails := s.fails - {t}, dismissals := s.dismissals - {t}, deletes := s.deletes - {t})
  }

  // ---- start --------------------------------------------------------------------------------

  predicate HealthyOn(s: State, root: Root) {
    exists j | j in s.jobs :: s.jobs[j].root == root && RunningJob(s.jobs, j) && !HeartbeatExpired(s.jobs[j], s.now)
  }

  function ExpiredOn(s: State, root: Root): set<JobId> {
    set j | j in s.jobs && s.jobs[j].root == root && RunningJob(s.jobs, j) && HeartbeatExpired(s.jobs[j], s.now)
  }

  function TimeOut(jobs: map<JobId, Job>, ids: set<JobId>): map<JobId, Job> {
    map j | j in jobs :: if j in ids then Ended(jobs[j], TimedOut) else jobs[j]
  }

  function AbortsFor(jobs: map<JobId, Job>, ids: set<JobId>): set<Message> {
    set j | j in ids && j in jobs && jobs[j].cloudRevision <= 0 :: Abort(j)
  }

  /** A healthy running job blocks the start; expired ones are timed out under the same lock. */
  function InspectActive(s: State, t: Token): State
    requires Acting(s, t) && t in s.creates
  {
    var root := s.creates[t].root;
    var expired := ExpiredOn(s, root);
    var blocked := HealthyOn(s, root);
    s.(jobs := if blocked then s.jobs else TimeOut(s.jobs, expired),
       sent := if blocked then s.sent else s.sent + AbortsFor(s.jobs, expired),
       creates := if blocked then s.creates - {t} else s.creates[t := CreateOp(root, Inspected)])
  }

  predicate UpToDate(s: State, root: Root, files: Snapshot) {
    && root in s.workspaces
    && Pending(Stored(s.snapshots, root), files) == {}
    && Deleted(Stored(s.snapshots, root), files) == {}
  }

  function Inserted(s: State, t: Token, id: JobId, files: Snapshot): State
    requires t in s.creates
  {
    var root := s.creates[t].root;
    var full := root !in s.workspaces;
    s.(jobs := s.jobs[id := NewJob(root, full, Stored(s.snapshots, root), files, s.now)],
       sent := s.sent + {Begin(id, root, full)},
       creates := s.creates[t := CreateOp(root, Begun(id))])
  }

  /** `limited` is the answer of the start rate limiter. */
  function InsertJob(s: State, t: Token, id: JobId, manifest: Snapshot, unreadable: set<Path>, limited: bool): State
    requires Acting(s, t) && t in s.creates
  {
    var files := Graft(Stored(s.snapshots, s.creates[t].root), manifest, unreadable);
    if UpToDate(s, s.creates[t].root, files) || limited then s.(creates := s.creates - {t}) else Inserted(s, t, id, files)
  }

  /** The begin call failed: abort upstream, then mark the job failed if it is still running. Both happen in a
      context of their own, whether or not the start still has its lease. */
  function AbortBegun(s: State, t: Token): State
    requires t in s.creates && s.creates[t].stage.Begun?
  {
    var op := s.creates[t];
    s.(sent := s.sent + {Abort(op.stage.job)}, creates := s.creates[t := CreateOp(op.root, Aborted(op.stage.job))])
  }

  /** The failure is recorded and the file rows are removed, by two statements; the first may fail alone. */
  function FailBegun(s: State, t: Token, recorded: bool): State
    requires t in s.creates && s.creates[t].stage.Aborted?
  {
    var s' := AfterBeginFailure(s, s.creates[t], recorded);
    s'.(creates := s'.creates - {t})
  }

  function AfterBeginFailure(s: State, op: CreateOp, recorded: bool): State
    requires op.stage.Aborted?
  {
    if !HitBy(s.jobs, op) then s else if recorded then Unbegun(s, op.stage.job) else Stripped(s, op.stage.job)
  }

  /** The row that the statement finds: by id, tenant and status, in whatever phase. */
  predicate HitBy(jobs: map<JobId, Job>, op: CreateOp)
    requires op.stage.Aborted?
  {
    RunningJob(jobs, op.stage.job) && jobs[op.stage.job].root.tenant == op.root.tenant
  }

  function Unbegun(s: State, j: JobId): State
    requires j in s.jobs
  {
    s.(jobs := s.jobs[j := Ended(s.jobs[j], Failed(BeginFailed)).(heartbeat := s.now)],
       doubts := if s.jobs[j].phase == Publishing then Usurped(s, j) else s.doubts)
  }

  /** The job is remembered, and its root if upstream has published the job and it never gets stored. */
  function Usurped(s: State, j: JobId): Doubts
    requires j in s.jobs
  {
    var root := s.jobs[j].root;
    s.doubts.(usurped := s.doubts.usurped[j := root],
              parted := if PublishedIn(s.cloud, j) && Content(s.cloud, root) != Stored(s.snapshots, root)
                        then s.doubts.parted + {root} else s.doubts.parted)
  }

  /** The job goes on without its file rows; its root is remembered if upstream has published files that it never stores. */
  function Stripped(s: State, j: JobId): State
    requires j in s.jobs
  {
    var root := s.jobs[j].root;
    s.(jobs := s.jobs[j := s.jobs[j].(lost := true)],
       doubts := s.doubts.(stripped := s.doubts.stripped[j := root],
                           parted := if AwaitsSnapshot(s.jobs, s.cloud, root, j) && Content(s.cloud, root) != map[]
                                     then s.doubts.parted + {root} else s.doubts.parted))
  }

  // ---- upload -------------------------------------------------------------------------------

  function DeletionsToSend(job: Job, stored: Snapshot): set<Path> {
    if !job.deletionsSent && job.deletedCount > 0 then stored.Keys - (if job.lost then {} else job.files.Keys) else {}
  }

  predicate BatchAccepted(s: State, t: Token, root: Root, batch: map<Path, BatchFile>)
    requires t in s.leases && t in s.uploads
  {
    var j := s.uploads[t].job;
    && OwnedRunning(s, t, j)
    && s.jobs[j].root == root
    && (batch != map[] || s.jobs[j].deletedCount != 0)
    && (batch != map[] ==> !s.jobs[j].lost)
    && forall p | p in batch :: BatchFileAccepted(s.jobs[j].files, p, batch[p])
  }

  function PrepareBatch(s: State, t: Token, root: Root, batch: map<Path, BatchFile>): State
    requires Acting(s, t) && t in s.uploads
  {
    var j := s.uploads[t].job;
    s.(uploads := if BatchAccepted(s, t, root, batch)
                  then s.uploads[t := UploadOp(j, Prepared(map p | p in batch :: batch[p].content,
                                                           DeletionsToSend(s.jobs[j], Stored(s.snapshots, root))))]
                  else s.uploads - {t})
  }

  /** The conditional heartbeat, then the stage call. */
  function StageBatch(s: State, t: Token): State
    requires Acting(s, t) && t in s.uploads && s.uploads[t].stage.Prepared?
  {
    var op := s.uploads[t];
    var alive := OwnedRunning(s, t, op.job) && s.jobs[op.job].phase != Publishing;
    s.(jobs := if alive then s.jobs[op.job := s.jobs[op.job].(phase := Uploading, heartbeat := s.now)] else s.jobs,
       sent := if alive then s.sent + {Stage(op.job, op.stage.files, op.stage.removed)} else s.sent,
       uploads := if alive then s.uploads[t := UploadOp(op.job, Called(op.stage.files, op.stage.removed))] else s.uploads - {t})
  }

  function CommitBatch(s: State, t: Token): State
    requires Acting(s, t) && t in s.uploads && s.uploads[t].stage.Called?
  {
    var op := s.uploads[t];
    var paths := op.stage.files.Keys;
    s.(uploads := s.uploads - {t},
       jobs := if OwnedRunning(s, t, op.job) && Committable(s.jobs[op.job], paths)
               then s.jobs[op.job := BatchCommitted(s.jobs[op.job], paths, op.stage.removed != {}, s.now)]
               else s.jobs)
  }

  // ---- complete and reconcile -----------------------------------------------------------------

  function CheckComplete(s: State, t: Token): State
    requires Acting(s, t) && t in s.publishers && s.publishers[t].stage.Requested?
  {
    var op := s.publishers[t];
    s.(publishers := if OwnedRunning(s, t, op.job) && FullyStaged(s.jobs[op.job])
                     then s.publishers[t := PublishOp(op.job, Checked(op.stage.known, s.jobs[op.job].cloudRevision))]
                     else s.publishers - {t})
  }

  /** Which way completion goes on after the handoff: None gives up on a conflicting revision. */
  function NextStage(known: Option<int>, recorded: int): Option<PublishStage> {
    match known
    case Some(r) => if r < 1 || (recorded > 0 && recorded != r) then None else Some(Confirmed(r))
    case None => if recorded > 0 then Some(Confirmed(recorded)) else Some(Intended)
  }

  /** The write-ahead handoff, committed before any publish call is made. */
  function HandOff(s: State, t: Token): State
    requires Acting(s, t) && t in s.publishers && s.publishers[t].stage.Checked?
  {
    var op := s.publishers[t];
    var next := NextStage(op.stage.known, op.stage.recorded);
    s.(jobs := if OwnedRunning(s, t, op.job) then s.jobs[op.job := HandedOff(s.jobs[op.job], s.now)] else s.jobs,
       publishers := if OwnedRunning(s, t, op.job) && next.Some?
                     then s.publishers[t := PublishOp(op.job, next.value)] else s.publishers - {t})
  }

  function CallPublish(s: State, t: Token): State
    requires Acting(s, t) && t in s.publishers
  {
    s.(sent := s.sent + {Publish(s.publishers[t].job)}, publishers := s.publishers[t := PublishOp(s.publishers[t].job, Asked)])
  }

  function ReadPublishReply(s: State, t: Token, reply: Reply): State
    requires Acting(s, t) && t in s.publishers
  {
    var j := s.publishers[t].job;
    s.(publishers := if ReportsFailure(reply) then s.publishers[t := PublishOp(j, Refused)]
                     else if !reply.word.SaysPublishing? && RevisionOf(reply).Some?
                     then s.publishers[t := PublishOp(j, Answered(RevisionOf(reply).value))]
                     else s.publishers - {t},
       jobs := if reply.word.SaysPublishing? && OwnedRunning(s, t, j)
               then s.jobs[j := s.jobs[j].(phase := Publishing, heartbeat := s.now)] else s.jobs)
  }

  function Remember(revisions: map<JobId, int>, j: JobId, revision: int): map<JobId, int> {
    if j in revisions || revision <= 0 then revisions else revisions[j := revision]
  }

  /** Recording the revision may fail without stopping the completion. */
  function RecordRevision(s: State, t: Token, stored: bool): State
    requires Acting(s, t) && t in s.publishers && s.publishers[t].stage.Answered?
  {
    var op := s.publishers[t];
    s.(publishers := s.publishers[t := PublishOp(op.job, Confirmed(op.stage.revision))],
       jobs := if stored && OwnedRunning(s, t, op.job)
               then s.jobs[op.job := s.jobs[op.job].(cloudRevision := op.stage.revision, heartbeat := s.now)]
               else s.jobs,
       revisions := if stored && OwnedRunning(s, t, op.job) then Remember(s.revisions, op.job, op.stage.revision) else s.revisions)
  }

  function CompletedJob(job: Job, revision: int, now: Time): Job {
    Ended(job, Completed).(cloudRevision := revision, heartbeat := now)
  }

  /** The snapshot swap: the job's manifest becomes the stored snapshot, the job completes. */
  function CommitSnapshot(s: State, t: Token): State
    requires Acting(s, t) && t in s.publishers && s.publishers[t].stage.Confirmed?
  {
    var j := s.publishers[t].job;
    var revision := s.publishers[t].stage.revision;
    var ready := OwnedRunning(s, t, j) && FullyStaged(s.jobs[j]);
    s.(publishers := s.publishers - {t},
       snapshots := if ready then s.snapshots[s.jobs[j].root := ManifestOf(s.jobs[j])] else s.snapshots,
       workspaces := if ready then s.workspaces[s.jobs[j].root := revision] else s.workspaces,
       revisions := if ready then Remember(s.revisions, j, revision) else s.revisions,
       jobs := if ready then s.jobs[j := CompletedJob(s.jobs[j], revision, s.now)] else s.jobs)
  }

  function FinishFailed(s: State, t: Token): State
    requires Acting(s, t) && t in s.publishers
  {
    var j := s.publishers[t].job;
    s.(publishers := s.publishers - {t},
       jobs := if OwnedRunning(s, t, j)
               then s.jobs[j := Ended(s.jobs[j], Failed(PublicationFailed)).(heartbeat := s.now)] else s.jobs)
  }

  function CheckReconcile(s: State, t: Token): State
    requires Acting(s, t) && t in s.publishers
  {
    var j := s.publishers[t].job;
    s.(publishers := if OwnedRunning(s, t, j) && s.jobs[j].phase == Publishing
                     then s.publishers[t := PublishOp(j, StatusCalled)] else s.publishers - {t})
  }

  predicate Overdue(s: State, j: JobId) {
    j in s.jobs && s.jobs[j].publishingSince.Some? && s.now - s.jobs[j].publishingSince.value >= PUBLICATION_MAX_AGE
  }

  /** Where a reconciliation goes on after the status call (None if the call failed); no stage gives up. */
  function StageAfterStatus(reply: Option<Reply>, overdue: bool): Option<PublishStage> {
    if reply.Some? && ReportsFailure(reply.value) then Some(Refused)
    else if reply.Some? && reply.value.word.SaysCompleted? then
      if RevisionOf(reply.value).Some? then Some(Requested(RevisionOf(reply.value))) else None
    else if overdue then Some(AbortCalled)
    else if reply.Some? && reply.value.word.SaysNotSubmitted? then Some(Requested(None))
    else None
  }

  function ReadStatusReply(s: State, t: Token, reply: Option<Reply>): State
    requires Acting(s, t) && t in s.publishers
  {
    var j := s.publishers[t].job;
    var next := StageAfterStatus(reply, Overdue(s, j));
    s.(publishers := if next.Some? then s.publishers[t := PublishOp(j, next.value)] else s.publishers - {t},
       sent := if next == Some(AbortCalled) then s.sent + {Abort(j)} else s.sent)
  }

  function ReadAbortReply(s: State, t: Token, reply: Reply): State
    requires Acting(s, t) && t in s.publishers
  {
    s.(publishers := if reply.word.SaysAborted? || reply.word.SaysCancelled?
                     then s.publishers[t := PublishOp(s.publishers[t].job, Refused)] else s.publishers - {t})
  }

  // ---- fail, heartbeat, sweep, dismiss ----------------------------------------------------------

  function CheckFail(s: State, t: Token): State
    requires Acting(s, t) && t in s.fails
  {
    var j := s.fails[t].job;
    s.(fails := if j in s.jobs && s.jobs[j].root.tenant == s.leases[t].tenant
                   && s.jobs[j].phase != Publishing && s.jobs[j].status != Completed
                then s.fails[t := FailOp(j, true)] else s.fails - {t})
  }

  function CommitFail(s: State, t: Token): State
    requires Acting(s, t) && t in s.fails
  {
    var j := s.fails[t].job;
    s.(fails := s.fails - {t},
       sent := if OwnedRunning(s, t, j) then s.sent + {Abort(j)} else s.sent,
       jobs := if OwnedRunning(s, t, j)
               then s.jobs[j := Ended(s.jobs[j], Failed(ClientReported)).(heartbeat := s.now)] else s.jobs)
  }

  function Beat(s: State, tenant: Tenant, j: JobId): State {
    s.(jobs := if RunningJob(s.jobs, j) && s.jobs[j].root.tenant == tenant && s.jobs[j].phase != Publishing
               then s.jobs[j := s.jobs[j].(heartbeat := s.now)] else s.jobs)
  }

  /** Reconciliation rotates through the handed-off jobs by touching their heartbeat. */
  function Rotate(s: State, j: JobId): State {
    s.(jobs := if RunningJob(s.jobs, j) && s.jobs[j].phase == Publishing then s.jobs[j := s.jobs[j].(heartbeat := s.now)] else s.jobs)
  }

  function Sweepable(s: State): set<JobId> {
    set j | j in s.jobs && RunningJob(s.jobs, j) && HeartbeatExpired(s.jobs[j], s.now)
  }

  /** `seen`: the expired rows that SKIP LOCKED did not skip. */
  function Sweep(s: State, seen: set<JobId>): State {
    var expired := Sweepable(s) * seen;
    s.(jobs := TimeOut(s.jobs, expired), sent := s.sent + AbortsFor(s.jobs, expired))
  }

  function CheckDismiss(s: State, t: Token): State
    requires Acting(s, t) && t in s.dismissals
  {
    var root := s.dismissals[t].root;
    s.(dismissals := if RunningOn(s.jobs, root) then s.dismissals - {t}
                     else s.dismissals[t := DismissOp(root, DismissReady(root in s.workspaces && Stored(s.snapshots, root) != map[]))])
  }

  /** A root that never published is cleared upstream first, by a call that carries no operation id. */
  function CallWipe(s: State, t: Token): State
    requires Acting(s, t) && t in s.dismissals
  {
    s.(sent := s.sent + {Wipe(t, s.dismissals[t].root)}, dismissals := s.dismissals[t := DismissOp(s.dismissals[t].root, WipeCalled)])
  }

  function ReadWipeReply(s: State, t: Token): State
    requires Acting(s, t) && t in s.dismissals
  {
    s.(dismissals := s.dismissals[t := DismissOp(s.dismissals[t].root, Wiped)])
  }

  predicate Dismissed(job: Job, root: Root) {
    job.root == root && (job.status.Failed? || job.status.TimedOut?)
  }

  function WithoutDismissed(jobs: map<JobId, Job>, root: Root): map<JobId, Job> {
    map j | j in jobs && !Dismissed(jobs[j], root) :: jobs[j]
  }

  function CommitDismiss(s: State, t: Token): State
    requires Acting(s, t) && t in s.dismissals
  {
    var root := s.dismissals[t].root;
    s.(dismissals := s.dismissals - {t},
       jobs := WithoutDismissed(s.jobs, root),
       workspaces := if s.dismissals[t].stage.Wiped? then s.workspaces - {root} else s.workspaces)
  }

  // ---- durable deletion -------------------------------------------------------------------------

  predicate LiveLeaseOf(s: State, tenant: Tenant) {
    exists t | t in s.leases :: s.leases[t].tenant == tenant && Live(s.leases[t], s.now)
  }

  predicate RunningJobOf(jobs: map<JobId, Job>, tenant: Tenant) {
    exists j | j in jobs :: jobs[j].root.tenant == tenant && RunningJob(jobs, j)
  }

  predicate DeletionBusy(s: State, tenant: Tenant) {
    LiveLeaseOf(s, tenant) || RunningJobOf(s.jobs, tenant) || C.Resetting(s.configs)
  }

  function SubmitDeletion(s: State, root: Root, newId: string, retry: Option<string>, limited: bool): State {
    s.(deletions := D.Submitted(s.deletions, root, newId, retry, DeletionBusy(s, root.tenant), limited, s.now))
  }

  function ClaimDeletion(s: State, flagged: set<string>, pick: Option<string>, attempt: string): State {
    var table := D.Claimed(s.deletions, flagged, pick, attempt, s.now);
    s.(deletions := table, claims := D.WithClaim(s.claims, table, pick, attempt))
  }

  function RecordDeletionError(s: State, claim: D.Claim, deferOnly: bool): State {
    s.(deletions := D.Recorded(s.deletions, claim, deferOnly, s.now))
  }

  function CheckDeletionCurrent(s: State, t: Token): State
    requires Acting(s, t) && t in s.deletes
  {
    var claim := s.deletes[t].claim;
    s.(deletes := if D.Current(s.deletions, claim, s.now) then s.deletes[t := DeleteOp(claim, DeleteCurrent)] else s.deletes - {t})
  }

  function CallClear(s: State, t: Token): State
    requires Acting(s, t) && t in s.deletes
  {
    var claim := s.deletes[t].claim;
    s.(sent := s.sent + {Clear(claim.id, claim.root)}, deletes := s.deletes[t := DeleteOp(claim, ClearCalled)])
  }

  /** A receipt counts only if it names this operation and this root. */
  function ReadReceipt(s: State, t: Token, operation: string, receipt: Upstream.Receipt): State
    requires Acting(s, t) && t in s.deletes
  {
    var claim := s.deletes[t].claim;
    s.(deletes := if operation == claim.id && receipt.target == claim.root
                  then s.deletes[t := DeleteOp(claim, ReceiptRead(receipt.files))] else s.deletes - {t})
  }

  function CountOf(cloudCount: int, storedCount: int): int {
    if cloudCount > 0 then cloudCount else storedCount
  }

  function WithoutRoot(jobs: map<JobId, Job>, root: Root): map<JobId, Job> {
    map j | j in jobs && jobs[j].root != root :: jobs[j]
  }

  /** Files are found through their workspace row. */
  function WithoutFiles(snapshots: map<Root, Snapshot>, workspaces: map<Root, int>, root: Root): map<Root, Snapshot> {
    if root in workspaces then snapshots - {root} else snapshots
  }

  /** Relay cleanup and success marker in one transaction. */
  function FinishDeletion(s: State, t: Token): State
    requires Acting(s, t) && t in s.deletes && s.deletes[t].stage.ReceiptRead?
  {
    var claim := s.deletes[t].claim;
    var removed := if claim.root in s.workspaces then |Stored(s.snapshots, claim.root)| else 0;
    if D.Current(s.deletions, claim, s.now) then
      s.(deletes := s.deletes - {t},
         jobs := WithoutRoot(s.jobs, claim.root),
         snapshots := WithoutFiles(s.snapshots, s.workspaces, claim.root),
         workspaces := s.workspaces - {claim.root},
         deletions := D.Finished(s.deletions, claim, CountOf(s.deletes[t].stage.count, removed), s.now),
         cleaned := s.cleaned + [claim.id])
    else s.(deletes := s.deletes - {t})
  }

  function PruneDeletions(s: State, ids: set<string>): State {
    s.(deletions := D.Pruned(s.deletions, ids, s.now))
  }

  // ---- platform configuration ---------------------------------------------------------------------

  predicate IndexBusy(s: State) {
    (exists t | t in s.leases :: Live(s.leases[t], s.now)) || D.AnyActive(s.deletions)
  }

  function EnqueueConfig(s: State, id: string, section: string, embeddingChanged: bool): State {
    s.(configs := C.Enqueued(s.configs, id, section, embeddingChanged, IndexBusy(s), s.now))
  }

  function ClaimConfig(s: State, pick: Option<string>, attempt: string): State {
    var table := C.Claimed(s.configs, pick, attempt, s.now);
    s.(configs := table, configClaims := C.WithClaim(s.configClaims, table, pick, attempt))
  }

  /** Settling an embedding change empties every relay index table in the same transaction. */
  function SettleConfig(s: State, claim: C.Claim, receipt: C.Receipt): State {
    if !C.Settles(s.configs, claim, receipt, s.now) then s
    else if C.ClearsRelay(claim, receipt) then
      s.(configs := C.Settled(s.configs, claim, receipt),
         leases := map[], jobs := map[], snapshots := map[], workspaces := map[], resets := s.resets + [claim.id])
    else s.(configs := C.Settled(s.configs, claim, receipt))
  }

  function PostponeConfig(s: State, claim: C.Claim): State {
    s.(configs := C.Postponed(s.configs, claim, s.now))
  }

  function RecoverConfig(s: State, id: string): State {
    s.(configs := C.Resumed(s.configs, id, s.now))
  }

  // ---- the transition system ----------------------------------------------------------------------

  /** Time passing, and the lease table. */
  datatype LeaseAction =
    | TickA(elapsed: nat)
    | StartCreateA(t: Token, root: Root)
    | StartUploadA(t: Token, tenant: Tenant, job: JobId)
    | StartCompleteA(t: Token, tenant: Tenant, job: JobId)
    | StartReconcileA(t: Token, tenant: Tenant, job: JobId)
    | StartFailA(t: Token, tenant: Tenant, job: JobId)
    | StartDismissA(t: Token, root: Root)
    | StartDeleteA(t: Token, claim: D.Claim)
    | StartOtherA(t: Token, wanted: Lease)
    | RenewA(t: Token)
    | ReleaseA(t: Token)
    | AbandonA(t: Token)

  /** Start and upload. */
  datatype UploadAction =
    | InspectActiveA(t: Token)
    | InsertJobA(t: Token, id: JobId, manifest: Snapshot, unreadable: set<Path>, limited: bool)
    | AbortBegunA(t: Token)
    | FailBegunA(t: Token, recorded: bool)
    | PrepareBatchA(t: Token, root: Root, batch: map<Path, BatchFile>)
    | StageBatchA(t: Token)
    | CommitBatchA(t: Token)

  /** Completion and reconciliation. */
  datatype PublishAction =
    | CheckCompleteA(t: Token)
    | HandOffA(t: Token)
    | CallPublishA(t: Token)
    | ReadPublishReplyA(t: Token, reply: Reply)
    | RecordRevisionA(t: Token, stored: bool)
    | CommitSnapshotA(t: Token)
    | FinishFailedA(t: Token)
    | CheckReconcileA(t: Token)
    | ReadStatusReplyA(t: Token, status: Option<Reply>)
    | ReadAbortReplyA(t: Token, reply: Reply)

  /** Client failure, heartbeat, sweep and dismissal. */
  datatype EndingAction =
    | CheckFailA(t: Token)
    | CommitFailA(t: Token)
    | BeatA(tenant: Tenant, id: JobId)
    | RotateA(id: JobId)
    | SweepA(seen: set<JobId>)
    | CheckDismissA(t: Token)
    | CallWipeA(t: Token)
    | ReadWipeReplyA(t: Token)
    | CommitDismissA(t: Token)

  /** Durable root deletion. */
  datatype DeletionAction =
    | SubmitDeletionA(root: Root, newId: string, retry: Option<string>, limited: bool)
    | ClaimDeletionA(flagged: set<string>, pick: Option<string>, attempt: string)
    | RecordDeletionErrorA(claim: D.Claim, deferOnly: bool)
    | CheckDeletionCurrentA(t: Token)
    | CallClearA(t: Token)
    | ReadReceiptA(t: Token, operation: string, receipt: Upstream.Receipt)
    | FinishDeletionA(t: Token)
    | PruneDeletionsA(ids: set<string>)

  /** Platform configuration. */
  datatype ConfigAction =
    | EnqueueConfigA(id: string, section: string, embeddingChanged: bool)
    | ClaimConfigA(pick: Option<string>, attempt: string)
    | SettleConfigA(claim: C.Claim, outcome: C.Receipt)
    | PostponeConfigA(claim: C.Claim)
    | RecoverConfigA(id: string)

  /** Events inside the upstream engine. */
  datatype CloudAction =
    | ArriveA(m: Message)
    | PublicationSucceedsA(id: JobId, revision: nat)
    | UpstreamDropsA(id: JobId)

  datatype Action =
    | LeaseStep(lease: LeaseAction)
    | UploadStep(upload: UploadAction)
    | PublishStep(publish: PublishAction)
    | EndingStep(ending: EndingAction)
    | DeletionStep(deletion: DeletionAction)
    | ConfigStep(config: ConfigAction)
    | CloudStep(cloud: CloudAction)

  // Tokens, job ids, deletion ids and attempt ids are fresh UUIDs.

  predicate FreshToken(s: State, t: Token) {
    && t !in s.leases && t !in s.creates && t !in s.uploads && t !in s.publishers
    && t !in s.fails && t !in s.dismissals && t !in s.deletes
    && (forall m | m in s.sent :: m.Wipe? ==> m.call != t)
  }

  predicate FreshJob(s: State, id: JobId) {
    && id !in s.jobs
    && id !in s.cloud.jobs
    && id !in s.doubts.usurped && id !in s.doubts.stripped
    && (forall m | m in s.sent :: !Names(m, id))
    && (forall t | t in s.creates :: s.creates[t].stage != Begun(id) && s.creates[t].stage != Aborted(id))
    && (forall t | t in s.uploads :: s.uploads[t].job != id)
    && (forall t | t in s.publishers :: s.publishers[t].job != id)
    && (forall t | t in s.fails :: s.fails[t].job != id)
  }

  predicate FreshDeletion(s: State, id: string) {
    && id !in s.deletions
    && id !in s.cloud.receipts
    && id !in s.cleaned
    && (forall m | m in s.sent :: m.Clear? ==> m.operation != id)
    && (forall c | c in s.claims :: c.id != id)
  }

  predicate LeaseEnabled(s: State, a: LeaseAction) {
    match a
    case TickA(_) => true
    case RenewA(_) => true
    case ReleaseA(_) => true
    case AbandonA(_) => true
    case StartDeleteA(t, claim) => FreshToken(s, t) && claim in s.claims
    case StartOtherA(t, wanted) => FreshToken(s, t) && wanted.kind == OtherKind
    case _ => FreshToken(s, a.t)
  }

  function DoLease(s: State, a: LeaseAction): State {
    if !LeaseEnabled(s, a) then s else
    match a
    case TickA(elapsed) => s.(now := s.now + elapsed)
    case StartCreateA(t, root) => StartCreate(s, t, root)
    case StartUploadA(t, tenant, j) => StartUpload(s, t, tenant, j)
    case StartCompleteA(t, tenant, j) => StartComplete(s, t, tenant, j)
    case StartReconcileA(t, tenant, j) => StartReconcile(s, t, tenant, j)
    case StartFailA(t, tenant, j) => StartFail(s, t, tenant, j)
    case StartDismissA(t, root) => StartDismiss(s, t, root)
    case StartDeleteA(t, claim) => StartDelete(s, t, claim)
    case StartOtherA(t, wanted) => StartOther(s, t, wanted)
    case RenewA(t) => Renew(s, t)
    case ReleaseA(t) => Release(s, t)
    case AbandonA(t) => Abandon(s, t)
  }

  predicate UploadEnabled(s: State, a: UploadAction) {
    && (Acting(s, a.t) || a.AbortBegunA? || a.FailBegunA?)
    && match a
       case InspectActiveA(t) => t in s.creates && s.creates[t].stage.Entered?
       case InsertJobA(t, id, _, _, _) => t in s.creates && s.creates[t].stage.Inspected? && FreshJob(s, id)
       case AbortBegunA(t) => t in s.creates && s.creates[t].stage.Begun?
       case FailBegunA(t, _) => t in s.creates && s.creates[t].stage.Aborted?
       case PrepareBatchA(t, _, _) => t in s.uploads && s.uploads[t].stage.Received?
       case StageBatchA(t) => t in s.uploads && s.uploads[t].stage.Prepared?
       case CommitBatchA(t) =>
         && t in s.uploads && s.uploads[t].stage.Called?
         && StageAcknowledged(s.cloud, s.uploads[t].job, s.uploads[t].stage.files, s.uploads[t].stage.removed)
  }

  function DoUpload(s: State, a: UploadAction): State {
    if !UploadEnabled(s, a) then s else
    match a
    case InspectActiveA(t) => InspectActive(s, t)
    case InsertJobA(t, id, manifest, unreadable, limited) => InsertJob(s, t, id, manifest, unreadable, limited)
    case AbortBegunA(t) => AbortBegun(s, t)
    case FailBegunA(t, recorded) => FailBegun(s, t, recorded)
    case PrepareBatchA(t, root, batch) => PrepareBatch(s, t, root, batch)
    case StageBatchA(t) => StageBatch(s, t)
    case CommitBatchA(t) => CommitBatch(s, t)
  }

  predicate PublishEnabled(s: State, a: PublishAction) {
    && Acting(s, a.t) && a.t in s.publishers
    && match a
       case CheckCompleteA(t) => s.publishers[t].stage.Requested?
       case HandOffA(t) => s.publishers[t].stage.Checked?
       case CallPublishA(t) => s.publishers[t].stage.Intended?
       case ReadPublishReplyA(t, reply) => s.publishers[t].stage.Asked? && Truthful(s.cloud, s.publishers[t].job, reply)
       case RecordRevisionA(t, _) => s.publishers[t].stage.Answered?
       case CommitSnapshotA(t) => s.publishers[t].stage.Confirmed?
       case FinishFailedA(t) => s.publishers[t].stage.Refused?
       case CheckReconcileA(t) => s.publishers[t].stage.Reconciling?
       case ReadStatusReplyA(t, status) =>
         s.publishers[t].stage.StatusCalled? && (status.Some? ==> Truthful(s.cloud, s.publishers[t].job, status.value))
       case ReadAbortReplyA(t, reply) => s.publishers[t].stage.AbortCalled? && Truthful(s.cloud, s.publishers[t].job, reply)
  }

  function DoPublish(s: State, a: PublishAction): State {
    if !PublishEnabled(s, a) then s else
    match a
    case CheckCompleteA(t) => CheckComplete(s, t)
    case HandOffA(t) => HandOff(s, t)
    case CallPublishA(t) => CallPublish(s, t)
    case ReadPublishReplyA(t, reply) => ReadPublishReply(s, t, reply)
    case RecordRevisionA(t, stored) => RecordRevision(s, t, stored)
    case CommitSnapshotA(t) => CommitSnapshot(s, t)
    case FinishFailedA(t) => FinishFailed(s, t)
    case CheckReconcileA(t) => CheckReconcile(s, t)
    case ReadStatusReplyA(t, status) => ReadStatusReply(s, t, status)
    case ReadAbortReplyA(t, reply) => ReadAbortReply(s, t, reply)
  }

  predicate EndingEnabled(s: State, a: EndingAction) {
    match a
    case CheckFailA(t) => Acting(s, t) && t in s.fails && !s.fails[t].checked
    case CommitFailA(t) => Acting(s, t) && t in s.fails && s.fails[t].checked
    case BeatA(_, _) => true
    case RotateA(_) => true
    case SweepA(_) => true
    case CheckDismissA(t) => Acting(s, t) && t in s.dismissals && s.dismissals[t].stage.DismissEntered?
    case CallWipeA(t) => Acting(s, t) && t in s.dismissals && s.dismissals[t].stage == DismissReady(false)
    case ReadWipeReplyA(t) => Acting(s, t) && t in s.dismissals && s.dismissals[t].stage.WipeCalled? && t in s.cloud.wipes
    case CommitDismissA(t) => Acting(s, t) && t in s.dismissals && (s.dismissals[t].stage == DismissReady(true) || s.dismissals[t].stage.Wiped?)
  }

  function DoEnding(s: State, a: EndingAction): State {
    if !EndingEnabled(s, a) then s else
    match a
    case CheckFailA(t) => CheckFail(s, t)
    case CommitFailA(t) => CommitFail(s, t)
    case BeatA(tenant, id) => Beat(s, tenant, id)
    case RotateA(id) => Rotate(s, id)
    case SweepA(seen) => Sweep(s, seen)
    case CheckDismissA(t) => CheckDismiss(s, t)
    case CallWipeA(t) => CallWipe(s, t)
    case ReadWipeReplyA(t) => ReadWipeReply(s, t)
    case CommitDismissA(t) => CommitDismiss(s, t)
  }

  predicate DeletionEnabled(s: State, a: DeletionAction) {
    match a
    case SubmitDeletionA(_, newId, _, _) => FreshDeletion(s, newId)
    case ClaimDeletionA(flagged, pick, attempt) =>
      && (forall id | id in flagged :: id in s.deletions && D.Spent(s.deletions[id], s.now))
      && (pick.Some? ==> pick.value in s.deletions && D.Claimable(s.deletions[pick.value], s.now))
      && (forall c | c in s.claims :: c.attempt != attempt)
    case RecordDeletionErrorA(claim, _) => claim in s.claims
    case CheckDeletionCurrentA(t) => Acting(s, t) && t in s.deletes && s.deletes[t].stage.DeleteEntered?
    case CallClearA(t) => Acting(s, t) && t in s.deletes && s.deletes[t].stage.DeleteCurrent?
    case ReadReceiptA(t, operation, receipt) =>
      && Acting(s, t) && t in s.deletes && s.deletes[t].stage.ClearCalled?
      && operation in s.cloud.receipts && s.cloud.receipts[operation] == receipt
    case FinishDeletionA(t) => Acting(s, t) && t in s.deletes && s.deletes[t].stage.ReceiptRead?
    case PruneDeletionsA(_) => true
  }

  function DoDeletion(s: State, a: DeletionAction): State {
    if !DeletionEnabled(s, a) then s else
    match a
    case SubmitDeletionA(root, newId, retry, limited) => SubmitDeletion(s, root, newId, retry, limited)
    case ClaimDeletionA(flagged, pick, attempt) => ClaimDeletion(s, flagged, pick, attempt)
    case RecordDeletionErrorA(claim, deferOnly) => RecordDeletionError(s, claim, deferOnly)
    case CheckDeletionCurrentA(t) => CheckDeletionCurrent(s, t)
    case CallClearA(t) => CallClear(s, t)
    case ReadReceiptA(t, operation, receipt) => ReadReceipt(s, t, operation, receipt)
    case FinishDeletionA(t) => FinishDeletion(s, t)
    case PruneDeletionsA(ids) => PruneDeletions(s, ids)
  }

  predicate ConfigEnabled(s: State, a: ConfigAction) {
    match a
    case EnqueueConfigA(_, _, _) => true
    case ClaimConfigA(pick, attempt) =>
      && (pick.Some? ==> pick.value in s.configs && C.Claimable(s.configs[pick.value], s.now))
      && (forall c | c in s.configClaims :: c.attempt != attempt)
    case SettleConfigA(claim, _) => claim in s.configClaims
    case PostponeConfigA(claim) => claim in s.configClaims
    case RecoverConfigA(_) => true
  }

  function DoConfig(s: State, a: ConfigAction): State {
    if !ConfigEnabled(s, a) then s else
    match a
    case EnqueueConfigA(id, section, embeddingChanged) => EnqueueConfig(s, id, section, embeddingChanged)
    case ClaimConfigA(pick, attempt) => ClaimConfig(s, pick, attempt)
    case SettleConfigA(claim, outcome) => SettleConfig(s, claim, outcome)
    case PostponeConfigA(claim) => PostponeConfig(s, claim)
    case RecoverConfigA(id) => RecoverConfig(s, id)
  }

  predicate CloudEnabled(s: State, a: CloudAction) {
    match a
    case ArriveA(m) => m in s.sent
    case PublicationSucceedsA(id, _) => id in s.cloud.jobs && s.cloud.jobs[id].state == Submitted
    case UpstreamDropsA(id) => id in s.cloud.jobs && !Terminal(s.cloud.jobs[id].state)
  }

  function CloudAfter(s: State, a: CloudAction): Cloud {
    if !CloudEnabled(s, a) then s.cloud else
    match a
    case ArriveA(m) => Arrive(s.cloud, m)
    case PublicationSucceedsA(id, revision) => PublicationSucceeded(s.cloud, id, revision)
    case UpstreamDropsA(id) => Dropped(s.cloud, id)
  }

  predicate PublishedIn(cloud: Cloud, j: JobId) {
    j in cloud.jobs && cloud.jobs[j].state.Published?
  }

  /** A handed-off job on `root` is published upstream, and its snapshot is not stored yet. */
  predicate AwaitsSnapshot(jobs: map<JobId, Job>, cloud: Cloud, root: Root, j: JobId) {
    RunningJob(jobs, j) && jobs[j].phase == Publishing && jobs[j].root == root && PublishedIn(cloud, j)
  }

  predicate PublishedOn(jobs: map<JobId, Job>, cloud: Cloud, root: Root) {
    exists j | j in jobs :: AwaitsSnapshot(jobs, cloud, root, j)
  }

  predicate DeletionOn(deletions: D.Table, root: Root) {
    exists id | id in deletions :: D.Active(deletions[id]) && deletions[id].root == root
  }

  predicate ClearedOn(deletions: D.Table, cloud: Cloud, root: Root) {
    exists id | id in deletions :: D.Active(deletions[id]) && deletions[id].root == root && id in cloud.receipts
  }

  /** With this content upstream, `root` would be out of step: it is not what a published job will store, not the
      nothing that an active deletion has left, and not what is stored although nothing is about to change that. */
  predicate Misfits(s: State, root: Root, content: Snapshot) {
    || (exists j | j in s.jobs :: AwaitsSnapshot(s.jobs, s.cloud, root, j) && ManifestOf(s.jobs[j]) != content)
    || (ClearedOn(s.deletions, s.cloud, root) && content != map[])
    || (Stored(s.snapshots, root) != content && !DeletionOn(s.deletions, root) && !PublishedOn(s.jobs, s.cloud, root))
  }

  function Judged(parted: set<Root>, root: Root, misfits: bool): set<Root> {
    if misfits then parted + {root} else parted - {root}
  }

  /** What upstream makes of a root when job `j` is published. */
  function ContentAfter(cloud: Cloud, j: JobId): Snapshot
    requires j in cloud.jobs
  {
    PublishedContent(Content(cloud, cloud.jobs[j].root), cloud.jobs[j])
  }

  /** A handed-off job that has its file rows is not judged: what it publishes is shown to be its manifest. */
  function PartedByPublication(s: State, j: JobId): set<Root>
    requires j in s.cloud.jobs
  {
    var root, content := s.cloud.jobs[j].root, ContentAfter(s.cloud, j);
    if RunningJob(s.jobs, j) && s.jobs[j].phase == Publishing then
      if content == ManifestOf(s.jobs[j]) then s.doubts.parted - {root}
      else if s.jobs[j].lost then s.doubts.parted + {root} else s.doubts.parted
    else Judged(s.doubts.parted, root, Misfits(s, root, content))
  }

  /** An operation-less clear is judged; a clear that takes effect for its deletion brings the root back in step. */
  function PartedByArrival(s: State, m: Message): set<Root> {
    if m.Wipe? then Judged(s.doubts.parted, m.target, Misfits(s, m.target, map[]))
    else if m.Clear? && m.operation !in s.cloud.receipts then s.doubts.parted - {m.target}
    else s.doubts.parted
  }

  function PartedAfter(s: State, a: CloudAction): set<Root> {
    if !CloudEnabled(s, a) then s.doubts.parted else
    match a
    case ArriveA(m) => PartedByArrival(s, m)
    case PublicationSucceedsA(id, _) => PartedByPublication(s, id)
    case UpstreamDropsA(_) => s.doubts.parted
  }

  function DoCloud(s: State, a: CloudAction): State {
    s.(cloud := CloudAfter(s, a), doubts := s.doubts.(parted := PartedAfter(s, a)))
  }

  /** One step. An action that is not enabled does nothing. */
  function Do(s: State, a: Action): State {
    match a
    case LeaseStep(x) => DoLease(s, x)
    case UploadStep(x) => DoUpload(s, x)
    case PublishStep(x) => DoPublish(s, x)
    case EndingStep(x) => DoEnding(s, x)
    case DeletionStep(x) => DoDeletion(s, x)
    case ConfigStep(x) => DoConfig(s, x)
    case CloudStep(x) => DoCloud(s, x)
  }

  /** A run: it starts empty, and every state follows from the one before it by one action. */
  ghost predicate IsRun(states: seq<State>, actions: seq<Action>) {
    && |states| == |actions| + 1
    && states[0] == Initial(states[0].now)
    && forall i {:trigger actions[i]} | 0 <= i < |actions| :: states[i + 1] == Do(states[i], actions[i])
  }

  ghost predicate Reachable(s: State) {
    exists states, actions :: IsRun(states, actions) && s == states[|actions|]
  }

  lemma OneMoreStep(states: seq<State>, actions: seq<Action>, a: Action)
    requires IsRun(states, actions)
    ensures IsRun(states + [Do(states[|actions|], a)], actions + [a])
  {
    var longer := states + [Do(states[|actions|], a)];
    var more := actions + [a];
    forall i | 0 <= i < |more| ensures longer[i + 1] == Do(longer[i], more[i]) {
      if i < |actions| {
        assert more[i] == actions[i];
      }
    }
  }

  lemma StartIsReachable(now: Time)
    ensures Reachable(Initial(now))
  {
    var actions: seq<Action> := [];
    assert IsRun([Initial(now)], actions);
  }

  lemma StepIsReachable(s: State, a: Action)
    requires Reachable(s)
    ensures Reachable(Do(s, a))
  {
    var states, actions :| IsRun(states, actions) && s == states[|actions|];
    OneMoreStep(states, actions, a);
    var longer, more := states + [Do(s, a)], actions + [a];
    assert IsRun(longer, more) && Do(s, a) == longer[|more|];
  }

  lemma LeaseReaches(s: State, a: LeaseAction)
    requires Reachable(s)
    ensures Reachable(DoLease(s, a))
  {
    StepIsReachable(s, LeaseStep(a));
  }

  lemma UploadReaches(s: State, a: UploadAction)
    requires Reachable(s)
    ensures Reachable(DoUpload(s, a))
  {
    StepIsReachable(s, UploadStep(a));
  }

  lemma EndingReaches(s: State, a: EndingAction)
    requires Reachable(s)
    ensures Reachable(DoEnding(s, a))
  {
    StepIsReachable(s, EndingStep(a));
  }

  lemma PublishReaches(s: State, a: PublishAction)
    requires Reachable(s)
    ensures Reachable(DoPublish(s, a))
  {
    StepIsReachable(s, PublishStep(a));
  }

  lemma CloudReaches(s: State, a: CloudAction)
    requires Reachable(s)
    ensures Reachable(DoCloud(s, a))
  {
    StepIsReachable(s, CloudStep(a));
  }

  lemma DeletionReaches(s: State, a: DeletionAction)
    requires Reachable(s)
    ensures Reachable(DoDeletion(s, a))
  {
    StepIsReachable(s, DeletionStep(a));
  }
}
