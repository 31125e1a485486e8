/** Every action of the control plane keeps the relay and the upstream engine linked. */
module AgreementSteps {
  import opened RelayTypes
  import opened Manifest
  import opened IndexJobs
  import opened Upstream
  import opened ControlPlane
  import opened Safety
  import opened SafetySteps
  import opened Agreement
  import opened UpstreamMoves
  import D = RootDeletion
  import C = PlatformConfig

  // ---- leases -----------------------------------------------------------------------------------

  lemma LeasesKeepAgreed(s: State, leases: Leases.Table)
    requires Agreed(s)
    ensures Agreed(s.(leases := leases))
  {
    SameViewAgreed(s, s.(leases := leases));
  }

  lemma CreatesKeepAgreed(s: State, creates: map<Token, CreateOp>)
    requires Agreed(s)
    ensures Agreed(s.(creates := creates))
  {
    SameViewAgreed(s, s.(creates := creates));
  }

  lemma UploadsKeepAgreed(s: State, uploads: map<Token, UploadOp>)
    requires Agreed(s)
    ensures Agreed(s.(uploads := uploads))
  {
    SameViewAgreed(s, s.(uploads := uploads));
  }

  lemma FailsKeepAgreed(s: State, fails: map<Token, FailOp>)
    requires Agreed(s)
    ensures Agreed(s.(fails := fails))
  {
    SameViewAgreed(s, s.(fails := fails));
  }

  lemma DismissalsKeepAgreed(s: State, dismissals: map<Token, DismissOp>)
    requires Agreed(s)
    ensures Agreed(s.(dismissals := dismissals))
  {
    SameViewAgreed(s, s.(dismissals := dismissals));
  }

  lemma WorkspacesKeepAgreed(s: State, workspaces: map<Root, int>)
    requires Agreed(s)
    ensures Agreed(s.(workspaces := workspaces))
  {
    SameViewAgreed(s, s.(workspaces := workspaces));
  }

  lemma StartPublishKeepsAgreed(s: State, t: Token, leases: Leases.Table, op: PublishOp)
    requires Agreed(s) && OpTrue(op, s.cloud)
    ensures Agreed(s.(leases := leases, publishers := s.publishers[t := op]))
  {
    LeasesKeepAgreed(s, leases);
    PutReply(s.(leases := leases), t, op);
  }

  lemma StartDeleteKeepsAgreed(s: State, t: Token, claim: D.Claim)
    requires Agreed(s) && claim in s.claims
    ensures Agreed(StartDelete(s, t, claim))
  {
    var leases := StartDelete(s, t, claim).leases;
    LeasesKeepAgreed(s, leases);
    PutDeletion(s.(leases := leases), t, DeleteOp(claim, DeleteEntered));
  }

  lemma AbandonKeepsAgreed(s: State, t: Token)
    requires Agreed(s)
    ensures Agreed(Abandon(s, t))
  {
    var s1 := s.(publishers := s.publishers - {t});
    DropReply(s, t);
    DropDeletion(s1, t);
    SameViewAgreed(s1.(deletes := s.deletes - {t}), Abandon(s, t));
  }

  /** Time, leases and operations other than completions and deletions. */
  lemma OperationsKeepAgreed(s: State, now: Time, leases: Leases.Table, late: set<Breach>, creates: map<Token, CreateOp>,
                             uploads: map<Token, UploadOp>, fails: map<Token, FailOp>, dismissals: map<Token, DismissOp>)
    requires Agreed(s)
    ensures Agreed(s.(now := now, leases := leases, late := late, creates := creates, uploads := uploads, fails := fails, dismissals := dismissals))
  {
    SameViewAgreed(s, s.(now := now, leases := leases, late := late, creates := creates, uploads := uploads, fails := fails, dismissals := dismissals));
  }

  lemma LeaseStepKeepsAgreed(s: State, a: LeaseAction)
    requires Agreed(s)
    ensures Agreed(DoLease(s, a))
  {
    if LeaseEnabled(s, a) {
      var s' := DoLease(s, a);
      match a
      case StartCompleteA(t, _, j) => StartPublishKeepsAgreed(s, t, s'.leases, PublishOp(j, Requested(None)));
      case StartReconcileA(t, _, j) => StartPublishKeepsAgreed(s, t, s'.leases, PublishOp(j, Reconciling));
      case StartDeleteA(t, claim) => StartDeleteKeepsAgreed(s, t, claim);
      case AbandonA(t) => AbandonKeepsAgreed(s, t);
      case _ => OperationsKeepAgreed(s, s'.now, s'.leases, s'.late, s'.creates, s'.uploads, s'.fails, s'.dismissals);
    }
  }

  // ---- start and upload --------------------------------------------------------------------------------

  lemma TimeOutFades(jobs: Jobs, ids: set<JobId>)
    requires forall j | j in ids :: RunningJob(jobs, j) && jobs[j].phase != Publishing
    ensures Fades(jobs, TimeOut(jobs, ids))
  {
  }

  lemma TimeOutKeepsAgreed(s: State, ids: set<JobId>)
    requires Agreed(s) && forall j | j in ids :: RunningJob(s.jobs, j) && s.jobs[j].phase != Publishing
    ensures Agreed(s.(jobs := TimeOut(s.jobs, ids), sent := s.sent + AbortsFor(s.jobs, ids)))
  {
    TimeOutFades(s.jobs, ids);
    FadeKeepsAgreed(s, TimeOut(s.jobs, ids));
    SendAborts(s.(jobs := TimeOut(s.jobs, ids)), AbortsFor(s.jobs, ids));
  }

  lemma InspectActiveKeepsAgreed(s: State, t: Token)
    requires Agreed(s) && Acting(s, t) && t in s.creates
    ensures Agreed(InspectActive(s, t))
  {
    var root := s.creates[t].root;
    if HealthyOn(s, root) {
      CreatesKeepAgreed(s, s.creates - {t});
    } else {
      var creates := s.creates[t := CreateOp(root, Inspected)];
      CreatesKeepAgreed(s, creates);
      TimeOutKeepsAgreed(s.(creates := creates), ExpiredOn(s, root));
    }
  }

  lemma BegunJobAgreed(s: State, id: JobId, job: Job)
    requires Agreed(s) && UnusedJob(s, id) && Brandnew(job)
    ensures Agreed(s.(jobs := s.jobs[id := job], sent := s.sent + {Begin(id, job.root, job.full)}))
  {
    InsertKeepsAgreed(s, id, job);
    SendBegin(s.(jobs := s.jobs[id := job]), id, job.root, job.full);
  }

  lemma InsertedKeepsAgreed(s: State, t: Token, id: JobId, files: Snapshot)
    requires Agreed(s) && t in s.creates && UnusedJob(s, id)
    ensures Agreed(Inserted(s, t, id, files))
  {
    var root := s.creates[t].root;
    var full := root !in s.workspaces;
    CreatesKeepAgreed(s, s.creates[t := CreateOp(root, Begun(id))]);
    BegunJobAgreed(s.(creates := s.creates[t := CreateOp(root, Begun(id))]), id, NewJob(root, full, Stored(s.snapshots, root), files, s.now));
  }

  lemma AbortBegunKeepsAgreed(s: State, t: Token)
    requires Agreed(s) && t in s.creates && s.creates[t].stage.Begun?
    ensures Agreed(AbortBegun(s, t))
  {
    var s' := AbortBegun(s, t);
    CreatesKeepAgreed(s, s'.creates);
    SendAborts(s.(creates := s'.creates), {Abort(s.creates[t].stage.job)});
  }

  /** A job that is running and not handed off ends without upstream. */
  lemma LocalEndKeepsAgreed(s: State, j: JobId, job: Job)
    requires Agreed(s) && RunningJob(s.jobs, j) && s.jobs[j].phase != Publishing
    requires EndsLocally(job.status) && job.root == s.jobs[j].root && job.full == s.jobs[j].full
    requires job.cloudRevision == s.jobs[j].cloudRevision
    ensures Agreed(s.(jobs := s.jobs[j := job]))
  {
    FadeKeepsAgreed(s, s.jobs[j := job]);
  }

  lemma UnbegunKeepsAgreed(s: State, j: JobId)
    requires Safe(s) && Agreed(s) && RunningJob(s.jobs, j)
    ensures Agreed(Unbegun(s, j))
  {
    var job := Ended(s.jobs[j], Failed(BeginFailed)).(heartbeat := s.now);
    if s.jobs[j].phase == Publishing {
      Given(Usurpations, s);
      Given(RunningJobs, s);
      HandoffExcludesDeletion(s, j);
      UsurpKeepsAgreed(s, j, job, Usurped(s, j));
    } else {
      LocalEndKeepsAgreed(s, j, job);
    }
  }

  lemma AfterBeginFailureKeepsAgreed(s: State, op: CreateOp, recorded: bool)
    requires Safe(s) && Agreed(s) && op.stage.Aborted?
    ensures Agreed(AfterBeginFailure(s, op, recorded))
  {
    if HitBy(s.jobs, op) {
      UnbegunKeepsAgreed(s, op.stage.job);
      Given(RunningJobs, s);
      StripKeepsAgreed(s, op.stage.job);
    }
  }

  lemma FailBegunKeepsAgreed(s: State, t: Token, recorded: bool)
    requires Safe(s) && Agreed(s) && t in s.creates && s.creates[t].stage.Aborted?
    ensures Agreed(FailBegun(s, t, recorded))
  {
    var s' := AfterBeginFailure(s, s.creates[t], recorded);
    AfterBeginFailureKeepsAgreed(s, s.creates[t], recorded);
    CreatesKeepAgreed(s', s'.creates - {t});
  }

  lemma StagedJobAgreed(s: State, j: JobId, files: Snapshot, removed: set<Path>)
    requires Agreed(s) && RunningJob(s.jobs, j) && s.jobs[j].phase != Publishing && BatchFits(s.jobs[j], files, removed) && j !in s.doubts.usurped
    ensures Agreed(s.(jobs := s.jobs[j := s.jobs[j].(phase := Uploading, heartbeat := s.now)], sent := s.sent + {Stage(j, files, removed)}))
  {
    var job := s.jobs[j].(phase := Uploading, heartbeat := s.now);
    Gives(Staging, s);
    Gives(Outcomes, s);
    ProgressKeepsAgreed(s, j, job);
    SendStage(s.(jobs := s.jobs[j := job]), j, files, removed);
  }

  lemma StageBatchKeepsAgreed(s: State, t: Token)
    requires Safe(s) && Agreed(s) && Acting(s, t) && t in s.uploads && s.uploads[t].stage.Prepared?
    ensures Agreed(StageBatch(s, t))
  {
    var op := s.uploads[t];
    if OwnedRunning(s, t, op.job) && s.jobs[op.job].phase != Publishing {
      var uploads := s.uploads[t := UploadOp(op.job, Called(op.stage.files, op.stage.removed))];
      UploadFacts(s, t);
      Given(Usurpations, s);
      UploadsKeepAgreed(s, uploads);
      StagedJobAgreed(s.(uploads := uploads), op.job, op.stage.files, op.stage.removed);
    } else {
      UploadsKeepAgreed(s, s.uploads - {t});
    }
  }

  lemma CommittedMirrors(job: Job, paths: set<Path>, files: Snapshot, removed: set<Path>, now: Time, staged: Snapshot, gone: set<Path>)
    requires Mirrors(job, staged, gone) && BatchFits(job, files, removed) && paths == files.Keys
    requires (forall p | p in files :: p in staged) && removed <= gone
    ensures Mirrors(BatchCommitted(job, paths, removed != {}, now), staged, gone)
  {
  }

  lemma CommittedJobAgreed(s: State, j: JobId, files: Snapshot, removed: set<Path>)
    requires Agreed(s) && RunningJob(s.jobs, j) && s.jobs[j].phase != Publishing && BatchFits(s.jobs[j], files, removed) && j !in s.doubts.usurped
    requires StageAcknowledged(s.cloud, j, files, removed)
    ensures Agreed(s.(jobs := s.jobs[j := BatchCommitted(s.jobs[j], files.Keys, removed != {}, s.now)]))
  {
    var job := BatchCommitted(s.jobs[j], files.Keys, removed != {}, s.now);
    Gives(Staging, s);
    Gives(Outcomes, s);
    assert OutcomeTrue(s.jobs[j], j, s.cloud);
    CommittedMirrors(s.jobs[j], files.Keys, files, removed, s.now, StagedAt(s.cloud, j), RemovedAt(s.cloud, j));
    ProgressKeepsAgreed(s, j, job);
  }

  lemma CommitBatchKeepsAgreed(s: State, t: Token)
    requires Safe(s) && Agreed(s) && Acting(s, t) && t in s.uploads && s.uploads[t].stage.Called?
    requires StageAcknowledged(s.cloud, s.uploads[t].job, s.uploads[t].stage.files, s.uploads[t].stage.removed)
    ensures Agreed(CommitBatch(s, t))
  {
    var op := s.uploads[t];
    UploadsKeepAgreed(s, s.uploads - {t});
    if OwnedRunning(s, t, op.job) && Committable(s.jobs[op.job], op.stage.files.Keys) {
      UploadFacts(s, t);
      Given(Usurpations, s);
      CommittedJobAgreed(s.(uploads := s.uploads - {t}), op.job, op.stage.files, op.stage.removed);
    }
  }

  lemma InsertJobKeepsAgreed(s: State, t: Token, id: JobId, manifest: Snapshot, unreadable: set<Path>, limited: bool)
    requires Agreed(s) && Acting(s, t) && t in s.creates && UnusedJob(s, id)
    ensures Agreed(InsertJob(s, t, id, manifest, unreadable, limited))
  {
    CreatesKeepAgreed(s, s.creates - {t});
    InsertedKeepsAgreed(s, t, id, Graft(Stored(s.snapshots, s.creates[t].root), manifest, unreadable));
  }

  lemma UploadStepKeepsAgreed(s: State, a: UploadAction)
    requires Safe(s) && Agreed(s)
    ensures Agreed(DoUpload(s, a))
  {
    if UploadEnabled(s, a) {
      match a
      case InspectActiveA(t) => InspectActiveKeepsAgreed(s, t);
      case InsertJobA(t, id, manifest, unreadable, limited) => InsertJobKeepsAgreed(s, t, id, manifest, unreadable, limited);
      case AbortBegunA(t) => AbortBegunKeepsAgreed(s, t);
      case FailBegunA(t, recorded) => FailBegunKeepsAgreed(s, t, recorded);
      case PrepareBatchA(t, root, batch) => UploadsKeepAgreed(s, PrepareBatch(s, t, root, batch).uploads);
      case StageBatchA(t) => StageBatchKeepsAgreed(s, t);
      case CommitBatchA(t) => CommitBatchKeepsAgreed(s, t);
    }
  }

  // ---- completion and reconciliation ----------------------------------------------------------------------

  lemma CheckCompleteKeepsAgreed(s: State, t: Token)
    requires Agreed(s) && Acting(s, t) && t in s.publishers && s.publishers[t].stage.Requested?
    ensures Agreed(CheckComplete(s, t))
  {
    var op := s.publishers[t];
    DropReply(s, t);
    if OwnedRunning(s, t, op.job) {
      Gives(Replies, s);
      Gives(Outcomes, s);
      assert OutcomeTrue(s.jobs[op.job], op.job, s.cloud) && OpTrue(op, s.cloud);
      PutReply(s, t, PublishOp(op.job, Checked(op.stage.known, s.jobs[op.job].cloudRevision)));
    }
  }

  lemma HandedOffAgreed(s: State, j: JobId)
    requires Agreed(s) && RunningJob(s.jobs, j) && j !in s.doubts.usurped
    ensures Agreed(s.(jobs := s.jobs[j := HandedOff(s.jobs[j], s.now)]))
  {
    Gives(Staging, s);
    Gives(Outcomes, s);
    assert OutcomeTrue(s.jobs[j], j, s.cloud);
    ProgressKeepsAgreed(s, j, HandedOff(s.jobs[j], s.now));
  }

  lemma NextStageTrue(j: JobId, known: Option<int>, recorded: int, cloud: Cloud)
    requires OpTrue(PublishOp(j, Checked(known, recorded)), cloud) && NextStage(known, recorded).Some?
    ensures OpTrue(PublishOp(j, NextStage(known, recorded).value), cloud)
  {
  }

  lemma HandOffKeepsAgreed(s: State, t: Token)
    requires Safe(s) && Agreed(s) && Acting(s, t) && t in s.publishers && s.publishers[t].stage.Checked?
    ensures Agreed(HandOff(s, t))
  {
    var op := s.publishers[t];
    if OwnedRunning(s, t, op.job) {
      var s1 := s.(jobs := s.jobs[op.job := HandedOff(s.jobs[op.job], s.now)]);
      Given(Usurpations, s);
      HandedOffAgreed(s, op.job);
      Gives(Replies, s);
      var next := NextStage(op.stage.known, op.stage.recorded);
      if next.Some? {
        NextStageTrue(op.job, op.stage.known, op.stage.recorded, s.cloud);
        PutReply(s1, t, PublishOp(op.job, next.value));
      } else {
        DropReply(s1, t);
      }
    } else {
      DropReply(s, t);
    }
  }

  lemma CallPublishKeepsAgreed(s: State, t: Token)
    requires Safe(s) && Agreed(s) && Acting(s, t) && t in s.publishers && s.publishers[t].stage.Intended?
    ensures Agreed(CallPublish(s, t))
  {
    var j := s.publishers[t].job;
    PublishFacts(s, t);
    SendPublish(s, j);
    PutReply(s.(sent := s.sent + {Publish(j)}), t, PublishOp(j, Asked));
  }

  lemma ReadPublishReplyKeepsAgreed(s: State, t: Token, reply: Reply)
    requires Safe(s) && Agreed(s) && Acting(s, t) && t in s.publishers && s.publishers[t].stage.Asked?
    requires Truthful(s.cloud, s.publishers[t].job, reply)
    ensures Agreed(ReadPublishReply(s, t, reply))
  {
    var j := s.publishers[t].job;
    DropReply(s, t);
    if ReportsFailure(reply) {
      PutReply(s, t, PublishOp(j, Refused));
    } else if reply.word.SaysPublishing? {
      PublishFacts(s, t);
      if OwnedRunning(s, t, j) {
        FadeKeepsAgreed(s.(publishers := s.publishers - {t}), s.jobs[j := s.jobs[j].(phase := Publishing, heartbeat := s.now)]);
      }
    } else if RevisionOf(reply).Some? {
      PutReply(s, t, PublishOp(j, Answered(RevisionOf(reply).value)));
    }
  }

  lemma RecordedAgreed(s: State, j: JobId, revision: int)
    requires Agreed(s) && RunningJob(s.jobs, j) && IsPublished(s.cloud, j, revision) && j !in s.doubts.usurped
    ensures Agreed(s.(jobs := s.jobs[j := s.jobs[j].(cloudRevision := revision, heartbeat := s.now)],
                      revisions := Remember(s.revisions, j, revision)))
  {
    var job := s.jobs[j].(cloudRevision := revision, heartbeat := s.now);
    Gives(Staging, s);
    Gives(Revisions, s);
    RememberedRevision(s.jobs, s.revisions, s.cloud, j, job);
    AdvanceKeepsAgreed(s, j, job, Remember(s.revisions, j, revision));
  }

  lemma RecordRevisionKeepsAgreed(s: State, t: Token, stored: bool)
    requires Safe(s) && Agreed(s) && Acting(s, t) && t in s.publishers && s.publishers[t].stage.Answered?
    ensures Agreed(RecordRevision(s, t, stored))
  {
    var op := s.publishers[t];
    Gives(Replies, s);
    assert OpTrue(op, s.cloud);
    PutReply(s, t, PublishOp(op.job, Confirmed(op.stage.revision)));
    if stored && OwnedRunning(s, t, op.job) {
      Given(Usurpations, s);
      RecordedAgreed(s.(publishers := s.publishers[t := PublishOp(op.job, Confirmed(op.stage.revision))]), op.job, op.stage.revision);
    }
  }

  lemma CommitSnapshotKeepsAgreed(s: State, t: Token)
    requires Safe(s) && Agreed(s) && Acting(s, t) && t in s.publishers && s.publishers[t].stage.Confirmed?
    ensures Agreed(CommitSnapshot(s, t))
  {
    var j := s.publishers[t].job;
    DropReply(s, t);
    if OwnedRunning(s, t, j) && FullyStaged(s.jobs[j]) {
      Gives(Replies, s);
      assert OpTrue(s.publishers[t], s.cloud);
      PublishFacts(s, t);
      var s1 := s.(publishers := s.publishers - {t}, workspaces := s.workspaces[s.jobs[j].root := s.publishers[t].stage.revision]);
      WorkspacesKeepAgreed(s.(publishers := s.publishers - {t}), s1.workspaces);
      CompletionKeepsAgreed(s1, j, CompletedJob(s.jobs[j], s.publishers[t].stage.revision, s.now));
    }
  }

  lemma FinishFailedKeepsAgreed(s: State, t: Token)
    requires Safe(s) && Agreed(s) && Acting(s, t) && t in s.publishers && s.publishers[t].stage.Refused?
    ensures Agreed(FinishFailed(s, t))
  {
    var j := s.publishers[t].job;
    DropReply(s, t);
    if OwnedRunning(s, t, j) {
      Gives(Replies, s);
      assert OpTrue(s.publishers[t], s.cloud);
      PublishFacts(s, t);
      FailureKeepsAgreed(s.(publishers := s.publishers - {t}), j, Ended(s.jobs[j], Failed(PublicationFailed)).(heartbeat := s.now));
    }
  }

  lemma CheckReconcileKeepsAgreed(s: State, t: Token)
    requires Agreed(s) && Acting(s, t) && t in s.publishers
    ensures Agreed(CheckReconcile(s, t))
  {
    DropReply(s, t);
    PutReply(s, t, PublishOp(s.publishers[t].job, StatusCalled));
  }

  lemma StageAfterStatusTrue(j: JobId, reply: Option<Reply>, overdue: bool, cloud: Cloud)
    requires (reply.Some? ==> Truthful(cloud, j, reply.value)) && StageAfterStatus(reply, overdue).Some?
    ensures OpTrue(PublishOp(j, StageAfterStatus(reply, overdue).value), cloud)
  {
  }

  lemma PublisherAborts(s: State, t: Token, op: PublishOp, aborts: set<Message>)
    requires Agreed(s) && OpTrue(op, s.cloud) && forall m | m in aborts :: m.Abort?
    ensures Agreed(s.(publishers := s.publishers[t := op], sent := s.sent + aborts))
  {
    PutReply(s, t, op);
    SendAborts(s.(publishers := s.publishers[t := op]), aborts);
  }

  lemma ReadStatusReplyKeepsAgreed(s: State, t: Token, reply: Option<Reply>)
    requires Agreed(s) && Acting(s, t) && t in s.publishers && s.publishers[t].stage.StatusCalled?
    requires reply.Some? ==> Truthful(s.cloud, s.publishers[t].job, reply.value)
    ensures Agreed(ReadStatusReply(s, t, reply))
  {
    var j := s.publishers[t].job;
    var next := StageAfterStatus(reply, Overdue(s, j));
    if next.Some? {
      StageAfterStatusTrue(j, reply, Overdue(s, j), s.cloud);
      PutReply(s, t, PublishOp(j, next.value));
      PublisherAborts(s, t, PublishOp(j, next.value), {Abort(j)});
    } else {
      DropReply(s, t);
    }
  }

  lemma ReadAbortReplyKeepsAgreed(s: State, t: Token, reply: Reply)
    requires Agreed(s) && Acting(s, t) && t in s.publishers && Truthful(s.cloud, s.publishers[t].job, reply)
    ensures Agreed(ReadAbortReply(s, t, reply))
  {
    if reply.word.SaysAborted? || reply.word.SaysCancelled? {
      PutReply(s, t, PublishOp(s.publishers[t].job, Refused));
    } else {
      DropReply(s, t);
    }
  }

  lemma PublishStepKeepsAgreed(s: State, a: PublishAction)
    requires Safe(s) && Agreed(s)
    ensures Agreed(DoPublish(s, a))
  {
    if PublishEnabled(s, a) {
      match a
      case CheckCompleteA(t) => CheckCompleteKeepsAgreed(s, t);
      case HandOffA(t) => HandOffKeepsAgreed(s, t);
      case CallPublishA(t) => CallPublishKeepsAgreed(s, t);
      case ReadPublishReplyA(t, reply) => ReadPublishReplyKeepsAgreed(s, t, reply);
      case RecordRevisionA(t, stored) => RecordRevisionKeepsAgreed(s, t, stored);
      case CommitSnapshotA(t) => CommitSnapshotKeepsAgreed(s, t);
      case FinishFailedA(t) => FinishFailedKeepsAgreed(s, t);
      case CheckReconcileA(t) => CheckReconcileKeepsAgreed(s, t);
      case ReadStatusReplyA(t, status) => ReadStatusReplyKeepsAgreed(s, t, status);
      case ReadAbortReplyA(t, reply) => ReadAbortReplyKeepsAgreed(s, t, reply);
    }
  }

  // ---- client failure, heartbeat, sweep, dismissal -------------------------------------------------------------

  lemma CommitFailKeepsAgreed(s: State, t: Token)
    requires Safe(s) && Agreed(s) && Acting(s, t) && t in s.fails && s.fails[t].checked
    ensures Agreed(CommitFail(s, t))
  {
    var j := s.fails[t].job;
    FailFacts(s, t);
    FailsKeepAgreed(s, s.fails - {t});
    if OwnedRunning(s, t, j) {
      var job := Ended(s.jobs[j], Failed(ClientReported)).(heartbeat := s.now);
      LocalEndKeepsAgreed(s.(fails := s.fails - {t}), j, job);
      SendAborts(s.(fails := s.fails - {t}, jobs := s.jobs[j := job]), {Abort(j)});
    }
  }

  lemma BeatKeepsAgreed(s: State, j: JobId)
    requires Agreed(s) && RunningJob(s.jobs, j)
    ensures Agreed(s.(jobs := s.jobs[j := s.jobs[j].(heartbeat := s.now)]))
  {
    FadeKeepsAgreed(s, s.jobs[j := s.jobs[j].(heartbeat := s.now)]);
  }

  lemma BeatStepKeepsAgreed(s: State, tenant: Tenant, j: JobId)
    requires Agreed(s)
    ensures Agreed(Beat(s, tenant, j))
  {
    if RunningJob(s.jobs, j) { BeatKeepsAgreed(s, j); }
  }

  lemma RotateKeepsAgreed(s: State, j: JobId)
    requires Agreed(s)
    ensures Agreed(Rotate(s, j))
  {
    if RunningJob(s.jobs, j) { BeatKeepsAgreed(s, j); }
  }

  lemma SweepKeepsAgreed(s: State, seen: set<JobId>)
    requires Agreed(s)
    ensures Agreed(Sweep(s, seen))
  {
    TimeOutKeepsAgreed(s, Sweepable(s) * seen);
  }

  lemma CallWipeKeepsAgreed(s: State, t: Token)
    requires Agreed(s) && Acting(s, t) && t in s.dismissals
    ensures Agreed(CallWipe(s, t))
  {
    var s' := CallWipe(s, t);
    DismissalsKeepAgreed(s, s'.dismissals);
    SendWipe(s.(dismissals := s'.dismissals), t, s.dismissals[t].root);
  }

  lemma CommitDismissKeepsAgreed(s: State, t: Token)
    requires Agreed(s) && Acting(s, t) && t in s.dismissals
    ensures Agreed(CommitDismiss(s, t))
  {
    var s' := CommitDismiss(s, t);
    DismissalsKeepAgreed(s, s'.dismissals);
    WorkspacesKeepAgreed(s.(dismissals := s'.dismissals), s'.workspaces);
    FadeKeepsAgreed(s.(dismissals := s'.dismissals, workspaces := s'.workspaces), WithoutDismissed(s.jobs, s.dismissals[t].root));
  }

  lemma EndingStepKeepsAgreed(s: State, a: EndingAction)
    requires Safe(s) && Agreed(s)
    ensures Agreed(DoEnding(s, a))
  {
    if EndingEnabled(s, a) {
      match a
      case CheckFailA(t) => FailsKeepAgreed(s, CheckFail(s, t).fails);
      case CommitFailA(t) => CommitFailKeepsAgreed(s, t);
      case BeatA(tenant, id) => BeatStepKeepsAgreed(s, tenant, id);
      case RotateA(id) => RotateKeepsAgreed(s, id);
      case SweepA(seen) => SweepKeepsAgreed(s, seen);
      case CheckDismissA(t) => DismissalsKeepAgreed(s, CheckDismiss(s, t).dismissals);
      case CallWipeA(t) => CallWipeKeepsAgreed(s, t);
      case ReadWipeReplyA(t) => DismissalsKeepAgreed(s, ReadWipeReply(s, t).dismissals);
      case CommitDismissA(t) => CommitDismissKeepsAgreed(s, t);
    }
  }

  // ---- durable deletion ----------------------------------------------------------------------------------------------

  predicate UnusedDeletion(s: State, id: string) {
    && id !in s.cloud.receipts
    && (forall m | m in s.sent :: m.Clear? ==> m.operation != id)
    && (forall c | c in s.claims :: c.id != id)
  }

  /** Rows keep their root and their activity; new rows have ids never used before. */
  ghost predicate Continues(s: State, deletions: D.Table) {
    && (forall id | id in deletions && id in s.deletions ::
          deletions[id].root == s.deletions[id].root && (D.Active(deletions[id]) <==> D.Active(s.deletions[id])))
    && (forall id | id in s.deletions && D.Active(s.deletions[id]) :: id in deletions)
    && (forall id | id in deletions && id !in s.deletions :: UnusedDeletion(s, id))
  }

  lemma ContinuedAuthorised(s: State, deletions: D.Table)
    requires Agreed(s) && Continues(s, deletions)
    ensures ClaimsAuthorised(s.claims, deletions, s.cloud) && ClearsAuthorised(s.sent, deletions, s.cloud)
  {
    Gives(DeletionCopies, s);
    Gives(Clears, s);
    forall c | c in s.claims ensures Authorised(c.id, c.root, deletions, s.cloud) {
      assert Authorised(c.id, c.root, s.deletions, s.cloud);
    }
    forall m | m in s.sent && m.Clear? ensures Authorised(m.operation, m.target, deletions, s.cloud) {
      assert Authorised(m.operation, m.target, s.deletions, s.cloud);
    }
  }

  lemma ContinuedDeletion(s: State, deletions: D.Table, root: Root)
    requires Continues(s, deletions)
    ensures DeletionOn(s.deletions, root) ==> DeletionOn(deletions, root)
    ensures ClearedOn(deletions, s.cloud, root) ==> ClearedOn(s.deletions, s.cloud, root)
  {
    if DeletionOn(s.deletions, root) {
      var id :| id in s.deletions && D.Active(s.deletions[id]) && s.deletions[id].root == root;
      assert id in deletions && D.Active(deletions[id]) && deletions[id].root == root;
    }
    if ClearedOn(deletions, s.cloud, root) {
      var id :| id in deletions && D.Active(deletions[id]) && deletions[id].root == root && id in s.cloud.receipts;
      assert id in s.deletions && D.Active(s.deletions[id]) && s.deletions[id].root == root;
    }
  }

  lemma ContinuedContents(s: State, deletions: D.Table)
    requires Agreed(s) && Continues(s, deletions) && s.resets == []
    ensures RootsInStep(s.jobs, s.snapshots, deletions, s.cloud, s.doubts.parted)
  {
    Gives(Contents, s);
    forall root: Root | root !in s.doubts.parted ensures RootInStep(s.jobs, s.snapshots, deletions, s.cloud, root) {
      ContinuedDeletion(s, deletions, root);
      StillInStep(s.jobs, s.jobs, s.snapshots, s.snapshots, s.deletions, deletions, s.cloud, s.cloud, root);
    }
  }

  lemma ContinuedKeepsAgreed(s: State, deletions: D.Table)
    requires Agreed(s) && Continues(s, deletions)
    ensures Agreed(s.(deletions := deletions))
  {
    var s' := s.(deletions := deletions);
    ContinuedAuthorised(s, deletions);
    if s.resets == [] {
      ContinuedContents(s, deletions);
    }
    forall c: Link ensures Linked(c, s') { Gives(c, s); }
  }

  lemma NewClaimKeepsAgreed(s: State, claim: D.Claim)
    requires Agreed(s) && Authorised(claim.id, claim.root, s.deletions, s.cloud)
    ensures Agreed(s.(claims := s.claims + {claim}))
  {
    var s' := s.(claims := s.claims + {claim});
    forall c: Link ensures Linked(c, s') { Gives(c, s); }
  }

  lemma SubmitDeletionKeepsAgreed(s: State, root: Root, newId: string, retry: Option<string>, limited: bool)
    requires Agreed(s) && FreshDeletion(s, newId)
    ensures Agreed(SubmitDeletion(s, root, newId, retry, limited))
  {
    ContinuedKeepsAgreed(s, SubmitDeletion(s, root, newId, retry, limited).deletions);
  }

  lemma ClaimDeletionKeepsAgreed(s: State, flagged: set<string>, pick: Option<string>, attempt: string)
    requires Agreed(s) && (pick.Some? ==> pick.value in s.deletions && D.Claimable(s.deletions[pick.value], s.now))
    ensures Agreed(ClaimDeletion(s, flagged, pick, attempt))
  {
    var table := D.Claimed(s.deletions, flagged, pick, attempt, s.now);
    ContinuedKeepsAgreed(s, table);
    if pick.Some? {
      NewClaimKeepsAgreed(s.(deletions := table), D.Claim(pick.value, table[pick.value].root, attempt, table[pick.value].ticket.attempts));
    }
  }

  lemma WithoutRootFades(jobs: Jobs, root: Root)
    requires forall j | PublishingJob(jobs, j) :: jobs[j].root != root
    ensures Fades(jobs, WithoutRoot(jobs, root))
  {
  }

  /** A deletion of `root` that has its receipt ends; the stored snapshot of the root goes with it. */
  ghost predicate DeletionEnds(s: State, id: string, deletions: D.Table, snapshots: map<Root, Snapshot>) {
    && id in s.deletions && id in deletions && id in s.cloud.receipts && D.Active(s.deletions[id]) && !D.Active(deletions[id])
    && deletions == s.deletions[id := deletions[id]] && deletions[id].root == s.deletions[id].root
    && SameElsewhere(s.snapshots, snapshots, deletions[id].root) && Stored(snapshots, deletions[id].root) == map[]
  }

  lemma DeletionEndAuthorised(s: State, id: string, deletions: D.Table, snapshots: map<Root, Snapshot>)
    requires Agreed(s) && DeletionEnds(s, id, deletions, snapshots)
    ensures ClaimsAuthorised(s.claims, deletions, s.cloud) && ClearsAuthorised(s.sent, deletions, s.cloud)
  {
    Gives(DeletionCopies, s);
    Gives(Clears, s);
    forall c | c in s.claims ensures Authorised(c.id, c.root, deletions, s.cloud) {
      assert Authorised(c.id, c.root, s.deletions, s.cloud);
    }
    forall m | m in s.sent && m.Clear? ensures Authorised(m.operation, m.target, deletions, s.cloud) {
      assert Authorised(m.operation, m.target, s.deletions, s.cloud);
    }
  }

  lemma DeletionEndContents(s: State, id: string, deletions: D.Table, snapshots: map<Root, Snapshot>)
    requires Agreed(s) && DeletionEnds(s, id, deletions, snapshots) && s.resets == []
    ensures RootsInStep(s.jobs, snapshots, deletions, s.cloud, s.doubts.parted)
  {
    Gives(Contents, s);
    forall root: Root | root !in s.doubts.parted ensures RootInStep(s.jobs, snapshots, deletions, s.cloud, root) {
      assert RootInStep(s.jobs, s.snapshots, s.deletions, s.cloud, root);
      if root == deletions[id].root {
        assert ClearedOn(s.deletions, s.cloud, root);
      } else {
        OtherDeletionsGoOn(s, id, deletions, snapshots, root);
        StillInStep(s.jobs, s.jobs, s.snapshots, snapshots, s.deletions, deletions, s.cloud, s.cloud, root);
      }
    }
  }

  lemma OtherDeletionsGoOn(s: State, id: string, deletions: D.Table, snapshots: map<Root, Snapshot>, root: Root)
    requires DeletionEnds(s, id, deletions, snapshots) && root != deletions[id].root
    ensures DeletionOn(s.deletions, root) ==> DeletionOn(deletions, root)
    ensures ClearedOn(deletions, s.cloud, root) ==> ClearedOn(s.deletions, s.cloud, root)
  {
    if DeletionOn(s.deletions, root) {
      var other :| other in s.deletions && D.Active(s.deletions[other]) && s.deletions[other].root == root;
      assert other in deletions && D.Active(deletions[other]) && deletions[other].root == root;
    }
    if ClearedOn(deletions, s.cloud, root) {
      var other :| other in deletions && D.Active(deletions[other]) && deletions[other].root == root && other in s.cloud.receipts;
      assert other in s.deletions && D.Active(s.deletions[other]) && s.deletions[other].root == root;
    }
  }

  lemma DeletionEndKeepsAgreed(s: State, id: string, deletions: D.Table, snapshots: map<Root, Snapshot>)
    requires Agreed(s) && DeletionEnds(s, id, deletions, snapshots)
    ensures Agreed(s.(deletions := deletions, snapshots := snapshots))
  {
    var s' := s.(deletions := deletions, snapshots := snapshots);
    DeletionEndAuthorised(s, id, deletions, snapshots);
    if s.resets == [] {
      DeletionEndContents(s, id, deletions, snapshots);
    }
    forall c: Link ensures Linked(c, s') { Gives(c, s); }
  }

  /** The relay files of a root are found through its workspace row, and a stored file implies that row. */
  lemma WithoutFilesEmpties(snapshots: map<Root, Snapshot>, workspaces: map<Root, int>, root: Root)
    requires FilesHaveWorkspace(snapshots, workspaces)
    ensures SameElsewhere(snapshots, WithoutFiles(snapshots, workspaces, root), root)
    ensures Stored(WithoutFiles(snapshots, workspaces, root), root) == map[]
  {
  }

  lemma ReceiptHolder(s: State, t: Token)
    requires Agreed(s) && t in s.deletes && s.deletes[t].stage.ReceiptRead? && s.deletes[t].claim.id in s.deletions
    ensures ReceiptTrue(s.deletes[t], s.cloud) && s.deletions[s.deletes[t].claim.id].root == s.deletes[t].claim.root
  {
    Gives(Deletes, s);
    Gives(DeletionCopies, s);
    assert Authorised(s.deletes[t].claim.id, s.deletes[t].claim.root, s.deletions, s.cloud);
  }

  lemma EndedDeletionKeepsAgreed(s: State, t: Token, count: int)
    requires Safe(s) && Agreed(s) && t in s.deletes && s.deletes[t].stage.ReceiptRead?
    requires D.Current(s.deletions, s.deletes[t].claim, s.now)
    ensures Agreed(s.(deletions := D.Finished(s.deletions, s.deletes[t].claim, count, s.now),
                      snapshots := WithoutFiles(s.snapshots, s.workspaces, s.deletes[t].claim.root)))
  {
    var claim := s.deletes[t].claim;
    ReceiptHolder(s, t);
    Given(StoredFiles, s);
    WithoutFilesEmpties(s.snapshots, s.workspaces, claim.root);
    DeletionEndKeepsAgreed(s, claim.id, D.Finished(s.deletions, claim, count, s.now), WithoutFiles(s.snapshots, s.workspaces, claim.root));
  }

  lemma CleanedKeepsAgreed(s: State, cleaned: seq<string>)
    requires Agreed(s)
    ensures Agreed(s.(cleaned := cleaned))
  {
    SameViewAgreed(s, s.(cleaned := cleaned));
  }

  lemma FinishDeletionKeepsAgreed(s: State, t: Token)
    requires Safe(s) && Agreed(s) && Acting(s, t) && t in s.deletes && s.deletes[t].stage.ReceiptRead?
    ensures Agreed(FinishDeletion(s, t))
  {
    var claim := s.deletes[t].claim;
    if D.Current(s.deletions, claim, s.now) {
      var s' := FinishDeletion(s, t);
      EndedDeletionKeepsAgreed(s, t, s'.deletions[claim.id].deletedFiles);
      var s1 := s.(deletions := s'.deletions, snapshots := s'.snapshots);
      FencedRootHasNoHandoff(s, claim);
      WithoutRootFades(s.jobs, claim.root);
      FadeKeepsAgreed(s1, s'.jobs);
      RestOfFinishAgreed(s1.(jobs := s'.jobs), t, s'.workspaces, s'.cleaned);
    } else {
      DropDeletion(s, t);
    }
  }

  lemma RestOfFinishAgreed(s: State, t: Token, workspaces: map<Root, int>, cleaned: seq<string>)
    requires Agreed(s)
    ensures Agreed(s.(workspaces := workspaces, cleaned := cleaned, deletes := s.deletes - {t}))
  {
    WorkspacesKeepAgreed(s, workspaces);
    CleanedKeepsAgreed(s.(workspaces := workspaces), cleaned);
    DropDeletion(s.(workspaces := workspaces, cleaned := cleaned), t);
  }

  lemma CallClearKeepsAgreed(s: State, t: Token)
    requires Agreed(s) && Acting(s, t) && t in s.deletes
    ensures Agreed(CallClear(s, t))
  {
    var claim := s.deletes[t].claim;
    Gives(Deletes, s);
    SendClear(s, claim);
    PutDeletion(s.(sent := s.sent + {Clear(claim.id, claim.root)}), t, DeleteOp(claim, ClearCalled));
  }

  lemma DeleteMovesKeepsAgreed(s: State, t: Token, stage: DeleteStage)
    requires Agreed(s) && t in s.deletes && ReceiptTrue(DeleteOp(s.deletes[t].claim, stage), s.cloud)
    ensures Agreed(s.(deletes := s.deletes[t := DeleteOp(s.deletes[t].claim, stage)]))
  {
    Gives(Deletes, s);
    PutDeletion(s, t, DeleteOp(s.deletes[t].claim, stage));
  }

  lemma ReadReceiptKeepsAgreed(s: State, t: Token, operation: string, receipt: Upstream.Receipt)
    requires Agreed(s) && Acting(s, t) && t in s.deletes && operation in s.cloud.receipts && s.cloud.receipts[operation] == receipt
    ensures Agreed(ReadReceipt(s, t, operation, receipt))
  {
    DropDeletion(s, t);
    if operation == s.deletes[t].claim.id && receipt.target == s.deletes[t].claim.root {
      DeleteMovesKeepsAgreed(s, t, ReceiptRead(receipt.files));
    }
  }

  lemma DeletionStepKeepsAgreed(s: State, a: DeletionAction)
    requires Safe(s) && Agreed(s)
    ensures Agreed(DoDeletion(s, a))
  {
    if DeletionEnabled(s, a) {
      match a
      case SubmitDeletionA(root, newId, retry, limited) => SubmitDeletionKeepsAgreed(s, root, newId, retry, limited);
      case ClaimDeletionA(flagged, pick, attempt) => ClaimDeletionKeepsAgreed(s, flagged, pick, attempt);
      case RecordDeletionErrorA(claim, deferOnly) => ContinuedKeepsAgreed(s, D.Recorded(s.deletions, claim, deferOnly, s.now));
      case CheckDeletionCurrentA(t) =>
        DropDeletion(s, t);
        DeleteMovesKeepsAgreed(s, t, DeleteCurrent);
      case CallClearA(t) => CallClearKeepsAgreed(s, t);
      case ReadReceiptA(t, operation, receipt) => ReadReceiptKeepsAgreed(s, t, operation, receipt);
      case FinishDeletionA(t) => FinishDeletionKeepsAgreed(s, t);
      case PruneDeletionsA(ids) => ContinuedKeepsAgreed(s, D.Pruned(s.deletions, ids, s.now));
    }
  }

  // ---- configuration ------------------------------------------------------------------------------------------------------

  lemma ResetKeepsAgreed(s: State, s': State)
    requires Agreed(s) && s'.jobs == map[] && s'.resets != []
    requires s'.publishers == s.publishers && s'.deletes == s.deletes && s'.deletions == s.deletions && s'.claims == s.claims
    requires s'.cloud == s.cloud && s'.sent == s.sent && s'.revisions == s.revisions && s'.doubts == s.doubts
    ensures Agreed(s')
  {
    forall c: Link ensures Linked(c, s') { Gives(c, s); }
  }

  lemma ConfigsKeepAgreed(s: State, configs: C.Table, claims: set<C.Claim>)
    requires Agreed(s)
    ensures Agreed(s.(configs := configs, configClaims := claims))
  {
    SameViewAgreed(s, s.(configs := configs, configClaims := claims));
  }

  lemma SettleConfigKeepsAgreed(s: State, claim: C.Claim, receipt: C.Receipt)
    requires Agreed(s)
    ensures Agreed(SettleConfig(s, claim, receipt))
  {
    if C.Settles(s.configs, claim, receipt, s.now) && C.ClearsRelay(claim, receipt) {
      ResetKeepsAgreed(s, SettleConfig(s, claim, receipt));
    } else {
      ConfigsKeepAgreed(s, SettleConfig(s, claim, receipt).configs, s.configClaims);
    }
  }

  lemma ConfigStepKeepsAgreed(s: State, a: ConfigAction)
    requires Agreed(s)
    ensures Agreed(DoConfig(s, a))
  {
    if a.SettleConfigA? {
      SettleConfigKeepsAgreed(s, a.claim, a.outcome);
    } else {
      ConfigsKeepAgreed(s, DoConfig(s, a).configs, DoConfig(s, a).configClaims);
    }
  }

  lemma StepKeepsAgreed(s: State, a: Action)
    requires Safe(s) && Agreed(s)
    ensures Agreed(Do(s, a))
  {
    match a
    case LeaseStep(x) => LeaseStepKeepsAgreed(s, x);
    case UploadStep(x) => UploadStepKeepsAgreed(s, x);
    case PublishStep(x) => PublishStepKeepsAgreed(s, x);
    case EndingStep(x) => EndingStepKeepsAgreed(s, x);
    case DeletionStep(x) => DeletionStepKeepsAgreed(s, x);
    case ConfigStep(x) => ConfigStepKeepsAgreed(s, x);
    case CloudStep(x) => CloudStepKeepsAgreed(s, x);
  }

  lemma InitiallyAgreed(now: Time)
    ensures Agreed(Initial(now))
  {
  }

  lemma FirstHasInvariants(states: seq<State>, actions: seq<Action>)
    requires IsRun(states, actions)
    ensures Safe(states[0]) && Agreed(states[0])
  {
    InitiallySafe(states[0].now);
    InitiallyAgreed(states[0].now);
  }

  lemma NextKeepsInvariants(states: seq<State>, actions: seq<Action>, n: nat)
    requires IsRun(states, actions) && n < |actions| && Safe(states[n]) && Agreed(states[n])
    ensures Safe(states[n + 1]) && Agreed(states[n + 1])
  {
    assert states[n + 1] == Do(states[n], actions[n]);
    StepKeepsSafe(states[n], actions[n]);
    StepKeepsAgreed(states[n], actions[n]);
  }

  /** Every state of every run satisfies both invariants. */
  lemma {:induction false} RunKeepsInvariants(states: seq<State>, actions: seq<Action>, n: nat)
    requires IsRun(states, actions) && n <= |actions|
    ensures Safe(states[n]) && Agreed(states[n])
  {
    if n == 0 {
      FirstHasInvariants(states, actions);
    } else {
      RunKeepsInvariants(states, actions, n - 1);
      NextKeepsInvariants(states, actions, n - 1);
    }
  }

  lemma Invariants(s: State)
    requires Reachable(s)
    ensures Safe(s) && Agreed(s)
  {
    var states, actions :| IsRun(states, actions) && s == states[|actions|];
    RunKeepsInvariants(states, actions, |actions|);
  }
}
