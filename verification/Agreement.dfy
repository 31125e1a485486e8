/** The part of the invariant that relates the relay to the upstream engine. */
module Agreement {
  import opened RelayTypes
  import opened IndexJobs
  import opened Upstream
  import opened ControlPlane
  import opened Safety
  import D = RootDeletion

  // ---- one job, here and upstream -----------------------------------------------------------------

  ghost predicate BeginsMatch(jobs: Jobs, sent: set<Message>, d: Doubts) {
    && (forall m | m in sent && m.Begin? && m.job in jobs :: jobs[m.job].root == m.root && jobs[m.job].full == m.full)
    && (forall m | m in sent && m.Begin? && m.job in d.usurped :: d.usurped[m.job] == m.root)
  }

  ghost predicate CloudMatches(jobs: Jobs, cloud: Cloud, d: Doubts) {
    && (forall j | j in jobs && j in cloud.jobs :: cloud.jobs[j].root == jobs[j].root && cloud.jobs[j].full == jobs[j].full)
    && (forall j | j in d.usurped && j in cloud.jobs :: cloud.jobs[j].root == d.usurped[j])
  }

  ghost predicate StagesFit(jobs: Jobs, sent: set<Message>) {
    forall m | m in sent && m.Stage? && RunningJob(jobs, m.job) :: BatchFits(jobs[m.job], m.files, m.removed)
  }

  function StagedAt(cloud: Cloud, j: JobId): Snapshot {
    if j in cloud.jobs then cloud.jobs[j].staged else map[]
  }

  function RemovedAt(cloud: Cloud, j: JobId): set<Path> {
    if j in cloud.jobs then cloud.jobs[j].removed else {}
  }

  /** Only needed files are staged, with the manifest's content; everything counted is staged. What a job without its
      file rows has sent is not known. */
  ghost predicate Mirrors(job: Job, staged: Snapshot, removed: set<Path>) {
    job.lost || StagedFits(job, staged, removed)
  }

  ghost predicate StagedFits(job: Job, staged: Snapshot, removed: set<Path>) {
    && (forall p | p in staged :: p in job.files && job.files[p].needsIndex && job.files[p].entry == staged[p])
    && (forall p | p in job.files && job.files[p].indexed :: p in staged)
    && removed <= job.announced
    && (job.deletionsSent ==> job.announced <= removed)
  }

  ghost predicate StagingMirrors(jobs: Jobs, cloud: Cloud) {
    forall j | RunningJob(jobs, j) :: Mirrors(jobs[j], StagedAt(cloud, j), RemovedAt(cloud, j))
  }

  ghost predicate SubmittedWereSent(cloud: Cloud, sent: set<Message>) {
    forall j | j in cloud.jobs && (cloud.jobs[j].state.Submitted? || cloud.jobs[j].state.Published?) :: Publish(j) in sent
  }

  /** A job for which a publish call may have been made is still handed off, or got its outcome from upstream,
      unless a begin failure was recorded for it. */
  ghost predicate HandoffFinal(jobs: Jobs, sent: set<Message>, d: Doubts) {
    forall j | j in jobs && Publish(j) in sent ::
      PublishingJob(jobs, j) || jobs[j].status == Completed || jobs[j].status == Failed(PublicationFailed) || j in d.usurped
  }

  ghost predicate OutcomeTrue(job: Job, j: JobId, cloud: Cloud) {
    && (job.status == Completed ==> IsPublished(cloud, j, job.cloudRevision))
    && (job.status == Failed(PublicationFailed) ==> IsUnpublished(cloud, j))
    && (job.status == Running && job.cloudRevision > 0 ==> IsPublished(cloud, j, job.cloudRevision))
  }

  ghost predicate OutcomesTrue(jobs: Jobs, cloud: Cloud) {
    forall j | j in jobs :: OutcomeTrue(jobs[j], j, cloud)
  }

  /** What an operation remembers of upstream replies is still true. */
  ghost predicate OpTrue(op: PublishOp, cloud: Cloud) {
    match op.stage
    case Requested(known) => known.Some? ==> IsPublished(cloud, op.job, known.value)
    case Checked(known, recorded) =>
      && (known.Some? ==> IsPublished(cloud, op.job, known.value))
      && (recorded > 0 ==> IsPublished(cloud, op.job, recorded))
    case Answered(revision) => IsPublished(cloud, op.job, revision)
    case Confirmed(revision) => IsPublished(cloud, op.job, revision)
    case Refused => IsUnpublished(cloud, op.job)
    case _ => true
  }

  ghost predicate RepliesTrue(publishers: map<Token, PublishOp>, cloud: Cloud) {
    forall t | t in publishers :: OpTrue(publishers[t], cloud)
  }

  /** The revision of a job row is the first positive one that was ever recorded for it, and upstream's own. */
  ghost predicate RevisionsFixed(jobs: Jobs, revisions: map<JobId, int>, cloud: Cloud) {
    && (forall j | j in revisions :: revisions[j] > 0 && IsPublished(cloud, j, revisions[j]))
    && (forall j | j in jobs :: if j in revisions then jobs[j].cloudRevision == revisions[j] else jobs[j].cloudRevision <= 0)
  }

  // ---- deletions --------------------------------------------------------------------------------------

  /** A clear under this id either took effect already or belongs to a deletion of `root` that is still active. */
  ghost predicate Authorised(id: string, root: Root, deletions: D.Table, cloud: Cloud) {
    && (id in deletions ==> deletions[id].root == root)
    && (id in cloud.receipts || (id in deletions && D.Active(deletions[id])))
  }

  ghost predicate ClaimsAuthorised(claims: set<D.Claim>, deletions: D.Table, cloud: Cloud) {
    forall c | c in claims :: Authorised(c.id, c.root, deletions, cloud)
  }

  ghost predicate ClearsAuthorised(sent: set<Message>, deletions: D.Table, cloud: Cloud) {
    forall m | m in sent && m.Clear? :: Authorised(m.operation, m.target, deletions, cloud)
  }

  /** The receipt that an operation has read is upstream's, for this operation and this root. */
  ghost predicate ReceiptTrue(op: DeleteOp, cloud: Cloud) {
    op.stage.ReceiptRead? ==>
      op.claim.id in cloud.receipts && cloud.receipts[op.claim.id].target == op.claim.root && cloud.receipts[op.claim.id].files == op.stage.count
  }

  ghost predicate DeletesClaimed(deletes: map<Token, DeleteOp>, claims: set<D.Claim>, cloud: Cloud) {
    forall t | t in deletes :: deletes[t].claim in claims && ReceiptTrue(deletes[t], cloud)
  }

  // ---- content, as long as no configuration change has emptied the relay ------------------------------------

  ghost predicate SentEnded(jobs: Jobs, cloud: Cloud, sent: set<Message>, d: Doubts) {
    forall j | Publish(j) in sent && j !in d.usurped :: PublishingJob(jobs, j) || IsTerminal(cloud, j)
  }

  ghost predicate RootAgrees(jobs: Jobs, snapshots: map<Root, Snapshot>, deletions: D.Table, cloud: Cloud, root: Root) {
    Content(cloud, root) == Stored(snapshots, root) || DeletionOn(deletions, root) || PublishedOn(jobs, cloud, root)
  }

  /** Upstream has the stored snapshot of the root, except while a deletion of that root is active or a handed-off job
      is published and not stored yet. Then the content is what that job will store, and nothing is left once the
      deletion's clear has taken effect. */
  ghost predicate RootInStep(jobs: Jobs, snapshots: map<Root, Snapshot>, deletions: D.Table, cloud: Cloud, root: Root) {
    && RootAgrees(jobs, snapshots, deletions, cloud, root)
    && (forall j | j in jobs && AwaitsSnapshot(jobs, cloud, root, j) :: Content(cloud, root) == ManifestOf(jobs[j]))
    && (ClearedOn(deletions, cloud, root) ==> Content(cloud, root) == map[])
  }

  ghost predicate RootsInStep(jobs: Jobs, snapshots: map<Root, Snapshot>, deletions: D.Table, cloud: Cloud, parted: set<Root>) {
    forall root: Root | root !in parted :: RootInStep(jobs, snapshots, deletions, cloud, root)
  }

  ghost predicate LossesRecorded(jobs: Jobs, d: Doubts) {
    && (forall j | RunningJob(jobs, j) && jobs[j].lost :: j in d.stripped)
    && (forall j | j in d.stripped && j in jobs :: d.stripped[j] == jobs[j].root)
  }

  /** Upstream has published a job of `root` that the relay has ended as never begun, or stripped of its file rows. */
  ghost predicate Overtaken(jobs: map<JobId, Root>, cloud: Cloud, root: Root) {
    exists j | j in jobs :: jobs[j] == root && PublishedIn(cloud, j)
  }

  /** A dismissal has called its clear of the root, or a job of the root was overtaken. */
  ghost predicate Suspect(d: Doubts, cloud: Cloud, sent: set<Message>, root: Root) {
    || (exists t: Token :: Wipe(t, root) in sent)
    || Overtaken(d.usurped, cloud, root)
    || Overtaken(d.stripped, cloud, root)
  }

  ghost predicate PartedAreSuspect(d: Doubts, cloud: Cloud, sent: set<Message>) {
    forall root | root in d.parted :: Suspect(d, cloud, sent, root)
  }

  datatype Link =
    | Begins | Revisions | CloudRoots | Stages | Staging | Submissions | Handoffs | Outcomes | Replies
    | DeletionCopies | Clears | Deletes | Endings | Contents | Losses | Suspicions

  ghost predicate Linked(c: Link, s: State) {
    match c
    case Begins => BeginsMatch(s.jobs, s.sent, s.doubts)
    case Revisions => RevisionsFixed(s.jobs, s.revisions, s.cloud)
    case CloudRoots => CloudMatches(s.jobs, s.cloud, s.doubts)
    case Stages => StagesFit(s.jobs, s.sent)
    case Staging => StagingMirrors(s.jobs, s.cloud)
    case Submissions => SubmittedWereSent(s.cloud, s.sent)
    case Handoffs => HandoffFinal(s.jobs, s.sent, s.doubts)
    case Outcomes => OutcomesTrue(s.jobs, s.cloud)
    case Replies => RepliesTrue(s.publishers, s.cloud)
    case DeletionCopies => ClaimsAuthorised(s.claims, s.deletions, s.cloud)
    case Clears => ClearsAuthorised(s.sent, s.deletions, s.cloud)
    case Deletes => DeletesClaimed(s.deletes, s.claims, s.cloud)
    case Endings => s.resets == [] ==> SentEnded(s.jobs, s.cloud, s.sent, s.doubts)
    case Contents => s.resets == [] ==> RootsInStep(s.jobs, s.snapshots, s.deletions, s.cloud, s.doubts.parted)
    case Losses => LossesRecorded(s.jobs, s.doubts)
    case Suspicions => s.resets == [] ==> PartedAreSuspect(s.doubts, s.cloud, s.sent)
  }

  ghost predicate Agreed(s: State) {
    forall c: Link :: Linked(c, s)
  }

  lemma Gives(c: Link, s: State)
    requires Agreed(s)
    ensures Linked(c, s)
  {
  }

  // ---- moves that touch one thing -------------------------------------------------------------------------------

  /** Nothing that the links speak of differs. */
  ghost predicate SameView(s: State, s': State) {
    && s'.publishers == s.publishers && s'.deletes == s.deletes && s'.jobs == s.jobs && s'.snapshots == s.snapshots
    && s'.deletions == s.deletions && s'.claims == s.claims && s'.resets == s.resets && s'.cloud == s.cloud && s'.sent == s.sent
    && s'.revisions == s.revisions && s'.doubts == s.doubts
  }

  lemma SameViewAgreed(s: State, s': State)
    requires Agreed(s) && SameView(s, s')
    ensures Agreed(s')
  {
    forall c: Link ensures Linked(c, s') { Gives(c, s); }
  }

  lemma PutReply(s: State, t: Token, op: PublishOp)
    requires Agreed(s) && OpTrue(op, s.cloud)
    ensures Agreed(s.(publishers := s.publishers[t := op]))
  {
    var s' := s.(publishers := s.publishers[t := op]);
    forall c: Link ensures Linked(c, s') { Gives(c, s); }
  }

  lemma DropReply(s: State, t: Token)
    requires Agreed(s)
    ensures Agreed(s.(publishers := s.publishers - {t}))
  {
    var s' := s.(publishers := s.publishers - {t});
    forall c: Link ensures Linked(c, s') { Gives(c, s); }
  }

  lemma PutDeletion(s: State, t: Token, op: DeleteOp)
    requires Agreed(s) && op.claim in s.claims && ReceiptTrue(op, s.cloud)
    ensures Agreed(s.(deletes := s.deletes[t := op]))
  {
    var s' := s.(deletes := s.deletes[t := op]);
    forall c: Link ensures Linked(c, s') { Gives(c, s); }
  }

  lemma DropDeletion(s: State, t: Token)
    requires Agreed(s)
    ensures Agreed(s.(deletes := s.deletes - {t}))
  {
    var s' := s.(deletes := s.deletes - {t});
    forall c: Link ensures Linked(c, s') { Gives(c, s); }
  }

  /** Suspicion stays. */
  lemma SuspectStays(d: Doubts, d': Doubts, cloud: Cloud, cloud': Cloud, sent: set<Message>, sent': set<Message>, root: Root)
    requires Suspect(d, cloud, sent, root) && sent <= sent'
    requires forall j | j in d.usurped :: j in d'.usurped && d'.usurped[j] == d.usurped[j]
    requires forall j | j in d.stripped :: j in d'.stripped && d'.stripped[j] == d.stripped[j]
    requires forall j | PublishedIn(cloud, j) :: PublishedIn(cloud', j)
    ensures Suspect(d', cloud', sent', root)
  {
    if Overtaken(d.usurped, cloud, root) {
      var j :| j in d.usurped && d.usurped[j] == root && PublishedIn(cloud, j);
      assert d'.usurped[j] == root && PublishedIn(cloud', j);
    }
    if Overtaken(d.stripped, cloud, root) {
      var j :| j in d.stripped && d.stripped[j] == root && PublishedIn(cloud, j);
      assert d'.stripped[j] == root && PublishedIn(cloud', j);
    }
  }

  lemma SuspicionsStay(d: Doubts, cloud: Cloud, sent: set<Message>, sent': set<Message>)
    requires PartedAreSuspect(d, cloud, sent) && sent <= sent'
    ensures PartedAreSuspect(d, cloud, sent')
  {
    forall root | root in d.parted ensures Suspect(d, cloud, sent', root) { SuspectStays(d, d, cloud, cloud, sent, sent', root); }
  }

  // ---- messages -----------------------------------------------------------------------------------------------------

  lemma SendAborts(s: State, aborts: set<Message>)
    requires Agreed(s) && forall m | m in aborts :: m.Abort?
    ensures Agreed(s.(sent := s.sent + aborts))
  {
    var s' := s.(sent := s.sent + aborts);
    if s.resets == [] { Gives(Suspicions, s); SuspicionsStay(s.doubts, s.cloud, s.sent, s'.sent); }
    forall c: Link ensures Linked(c, s') { Gives(c, s); }
  }

  lemma SendStage(s: State, j: JobId, files: Snapshot, removed: set<Path>)
    requires Agreed(s) && (RunningJob(s.jobs, j) ==> BatchFits(s.jobs[j], files, removed))
    ensures Agreed(s.(sent := s.sent + {Stage(j, files, removed)}))
  {
    var s' := s.(sent := s.sent + {Stage(j, files, removed)});
    if s.resets == [] { Gives(Suspicions, s); SuspicionsStay(s.doubts, s.cloud, s.sent, s'.sent); }
    forall c: Link ensures Linked(c, s') { Gives(c, s); }
  }

  /** The publish call is made only for a job that is already handed off, or was when it was last looked at. */
  lemma SendPublish(s: State, j: JobId)
    requires Agreed(s) && (PublishingJob(s.jobs, j) || j in s.doubts.usurped)
    ensures Agreed(s.(sent := s.sent + {Publish(j)}))
  {
    var s' := s.(sent := s.sent + {Publish(j)});
    if s.resets == [] { Gives(Suspicions, s); SuspicionsStay(s.doubts, s.cloud, s.sent, s'.sent); }
    forall c: Link ensures Linked(c, s') { Gives(c, s); }
  }

  lemma SendWipe(s: State, t: Token, root: Root)
    requires Agreed(s)
    ensures Agreed(s.(sent := s.sent + {Wipe(t, root)}))
  {
    var s' := s.(sent := s.sent + {Wipe(t, root)});
    if s.resets == [] { Gives(Suspicions, s); SuspicionsStay(s.doubts, s.cloud, s.sent, s'.sent); }
    forall c: Link ensures Linked(c, s') { Gives(c, s); }
  }

  lemma SendClear(s: State, claim: D.Claim)
    requires Agreed(s) && claim in s.claims
    ensures Agreed(s.(sent := s.sent + {Clear(claim.id, claim.root)}))
  {
    Gives(DeletionCopies, s);
    var s' := s.(sent := s.sent + {Clear(claim.id, claim.root)});
    if s.resets == [] { Gives(Suspicions, s); SuspicionsStay(s.doubts, s.cloud, s.sent, s'.sent); }
    forall c: Link ensures Linked(c, s') { Gives(c, s); }
  }

  // ---- the job table is replaced ---------------------------------------------------------------------------------------

  ghost predicate JobsFit(jobs: Jobs, cloud: Cloud, sent: set<Message>, revisions: map<JobId, int>, d: Doubts) {
    && RevisionsFixed(jobs, revisions, cloud)
    && BeginsMatch(jobs, sent, d) && StagesFit(jobs, sent) && HandoffFinal(jobs, sent, d)
    && CloudMatches(jobs, cloud, d) && StagingMirrors(jobs, cloud) && OutcomesTrue(jobs, cloud) && LossesRecorded(jobs, d)
  }

  ghost predicate ContentFits(jobs: Jobs, snapshots: map<Root, Snapshot>, deletions: D.Table, cloud: Cloud, sent: set<Message>, d: Doubts) {
    SentEnded(jobs, cloud, sent, d) && RootsInStep(jobs, snapshots, deletions, cloud, d.parted)
  }

  lemma GivesJobsFit(s: State)
    requires Agreed(s)
    ensures JobsFit(s.jobs, s.cloud, s.sent, s.revisions, s.doubts)
  {
    Gives(Revisions, s);
    Gives(Begins, s);
    Gives(Stages, s);
    Gives(Handoffs, s);
    Gives(CloudRoots, s);
    Gives(Staging, s);
    Gives(Outcomes, s);
    Gives(Losses, s);
  }

  lemma GivesContentFits(s: State)
    requires Agreed(s) && s.resets == []
    ensures ContentFits(s.jobs, s.snapshots, s.deletions, s.cloud, s.sent, s.doubts)
  {
    Gives(Endings, s);
    Gives(Contents, s);
  }

  /** On this root nothing happened that matters. */
  lemma StillInStep(jobs: Jobs, jobs': Jobs, snapshots: map<Root, Snapshot>, snapshots': map<Root, Snapshot>,
                    deletions: D.Table, deletions': D.Table, cloud: Cloud, cloud': Cloud, root: Root)
    requires RootInStep(jobs, snapshots, deletions, cloud, root)
    requires Content(cloud', root) == Content(cloud, root) && Stored(snapshots', root) == Stored(snapshots, root)
    requires DeletionOn(deletions, root) ==> DeletionOn(deletions', root)
    requires ClearedOn(deletions', cloud', root) ==> ClearedOn(deletions, cloud, root)
    requires forall j :: AwaitsSnapshot(jobs', cloud', root, j) <==> AwaitsSnapshot(jobs, cloud, root, j)
    requires forall j | AwaitsSnapshot(jobs, cloud, root, j) :: j in jobs' && ManifestOf(jobs'[j]) == ManifestOf(jobs[j])
    ensures RootInStep(jobs', snapshots', deletions', cloud', root)
  {
    if PublishedOn(jobs, cloud, root) {
      var j :| j in jobs && AwaitsSnapshot(jobs, cloud, root, j);
      assert j in jobs' && AwaitsSnapshot(jobs', cloud', root, j);
    }
  }

  /** The job table changes, but nothing about handed-off jobs. */
  lemma JobsStayInStep(jobs: Jobs, after: Jobs, snapshots: map<Root, Snapshot>, deletions: D.Table, cloud: Cloud, parted: set<Root>)
    requires RootsInStep(jobs, snapshots, deletions, cloud, parted)
    requires forall j :: PublishingJob(after, j) && PublishedIn(cloud, j) <==> PublishingJob(jobs, j) && PublishedIn(cloud, j)
    requires forall j | PublishingJob(jobs, j) && PublishedIn(cloud, j) ::
               j in after && after[j].root == jobs[j].root && ManifestOf(after[j]) == ManifestOf(jobs[j])
    ensures RootsInStep(after, snapshots, deletions, cloud, parted)
  {
    forall root: Root | root !in parted ensures RootInStep(after, snapshots, deletions, cloud, root) {
      forall j ensures AwaitsSnapshot(after, cloud, root, j) <==> AwaitsSnapshot(jobs, cloud, root, j) {
        assert PublishingJob(after, j) && PublishedIn(cloud, j) <==> PublishingJob(jobs, j) && PublishedIn(cloud, j);
      }
      StillInStep(jobs, after, snapshots, snapshots, deletions, deletions, cloud, cloud, root);
    }
  }

  lemma ReplaceKeepsAgreed(s: State, jobs: Jobs, snapshots: map<Root, Snapshot>, revisions: map<JobId, int>)
    requires Agreed(s) && JobsFit(jobs, s.cloud, s.sent, revisions, s.doubts)
    requires s.resets == [] ==> ContentFits(jobs, snapshots, s.deletions, s.cloud, s.sent, s.doubts)
    ensures Agreed(s.(jobs := jobs, snapshots := snapshots, revisions := revisions))
  {
    var s' := s.(jobs := jobs, snapshots := snapshots, revisions := revisions);
    forall c: Link ensures Linked(c, s') { Gives(c, s); }
  }

  // ---- jobs that end without upstream, disappear or get a heartbeat -----------------------------------------------------

  predicate EndsLocally(status: Status) {
    status == TimedOut || status == Failed(ClientReported) || status == Failed(BeginFailed)
  }

  predicate Fade(before: Job, after: Job) {
    || after.(heartbeat := 0) == before.(heartbeat := 0)
    || (before.status == Running && before.phase != Publishing && EndsLocally(after.status)
        && after.root == before.root && after.full == before.full && after.cloudRevision == before.cloudRevision)
  }

  ghost predicate Fades(jobs: Jobs, after: Jobs) {
    && (forall j | j in after :: j in jobs && Fade(jobs[j], after[j]))
    && (forall j | PublishingJob(jobs, j) :: j in after)
  }

  lemma FadeKeepsMessages(jobs: Jobs, after: Jobs, sent: set<Message>, d: Doubts)
    requires Fades(jobs, after) && BeginsMatch(jobs, sent, d) && StagesFit(jobs, sent) && HandoffFinal(jobs, sent, d)
    ensures BeginsMatch(after, sent, d) && StagesFit(after, sent) && HandoffFinal(after, sent, d)
  {
  }

  lemma FadeKeepsCloud(jobs: Jobs, after: Jobs, cloud: Cloud, d: Doubts)
    requires Fades(jobs, after) && CloudMatches(jobs, cloud, d) && StagingMirrors(jobs, cloud) && OutcomesTrue(jobs, cloud)
    ensures CloudMatches(after, cloud, d) && StagingMirrors(after, cloud) && OutcomesTrue(after, cloud)
  {
    forall j | RunningJob(after, j) ensures Mirrors(after[j], StagedAt(cloud, j), RemovedAt(cloud, j)) {
      assert Fade(jobs[j], after[j]);
      assert RunningJob(jobs, j);
    }
    forall j | j in after ensures OutcomeTrue(after[j], j, cloud) {
      assert Fade(jobs[j], after[j]) && OutcomeTrue(jobs[j], j, cloud);
    }
  }

  lemma FadeKeepsRevisions(jobs: Jobs, after: Jobs, revisions: map<JobId, int>, cloud: Cloud)
    requires Fades(jobs, after) && RevisionsFixed(jobs, revisions, cloud)
    ensures RevisionsFixed(after, revisions, cloud)
  {
  }

  lemma FadeKeepsHandoffs(jobs: Jobs, after: Jobs, j: JobId)
    requires Fades(jobs, after)
    ensures PublishingJob(jobs, j) <==> PublishingJob(after, j)
    ensures PublishingJob(jobs, j) ==> after[j].root == jobs[j].root && ManifestOf(after[j]) == ManifestOf(jobs[j])
  {
  }

  lemma FadeKeepsContents(jobs: Jobs, after: Jobs, snapshots: map<Root, Snapshot>, deletions: D.Table, cloud: Cloud, sent: set<Message>, d: Doubts)
    requires Fades(jobs, after) && ContentFits(jobs, snapshots, deletions, cloud, sent, d)
    ensures ContentFits(after, snapshots, deletions, cloud, sent, d)
  {
    forall j: JobId { FadeKeepsHandoffs(jobs, after, j); }
    JobsStayInStep(jobs, after, snapshots, deletions, cloud, d.parted);
  }

  lemma FadeKeepsLosses(jobs: Jobs, after: Jobs, d: Doubts)
    requires Fades(jobs, after) && LossesRecorded(jobs, d)
    ensures LossesRecorded(after, d)
  {
  }

  lemma FadeKeepsAgreed(s: State, jobs: Jobs)
    requires Agreed(s) && Fades(s.jobs, jobs)
    ensures Agreed(s.(jobs := jobs))
  {
    GivesJobsFit(s);
    FadeKeepsMessages(s.jobs, jobs, s.sent, s.doubts);
    FadeKeepsCloud(s.jobs, jobs, s.cloud, s.doubts);
    FadeKeepsRevisions(s.jobs, jobs, s.revisions, s.cloud);
    FadeKeepsLosses(s.jobs, jobs, s.doubts);
    if s.resets == [] {
      GivesContentFits(s);
      FadeKeepsContents(s.jobs, jobs, s.snapshots, s.deletions, s.cloud, s.sent, s.doubts);
    }
    ReplaceKeepsAgreed(s, jobs, s.snapshots, s.revisions);
  }

  // ---- a running job makes progress ------------------------------------------------------------------------------------------

  /** Same manifest, same deletion list, and a handoff is not taken back. */
  ghost predicate Advances(before: Job, after: Job) {
    && before.status == Running && after.status == Running
    && after.root == before.root && after.full == before.full && after.announced == before.announced
    && (before.phase == Publishing ==> after.phase == Publishing) && after.lost == before.lost
    && before.files.Keys == after.files.Keys
    && forall p | p in before.files ::
         after.files[p].entry == before.files[p].entry && after.files[p].needsIndex == before.files[p].needsIndex
  }

  /** `job` is a truthful next version of the running job `j`. */
  ghost predicate Progresses(jobs: Jobs, cloud: Cloud, j: JobId, job: Job) {
    && RunningJob(jobs, j) && Advances(jobs[j], job)
    && Mirrors(job, StagedAt(cloud, j), RemovedAt(cloud, j))
    && (job.cloudRevision > 0 ==> IsPublished(cloud, j, job.cloudRevision))
  }

  lemma AdvanceKeepsMessages(jobs: Jobs, cloud: Cloud, sent: set<Message>, j: JobId, job: Job, d: Doubts)
    requires Progresses(jobs, cloud, j, job) && BeginsMatch(jobs, sent, d) && StagesFit(jobs, sent) && HandoffFinal(jobs, sent, d)
    ensures BeginsMatch(jobs[j := job], sent, d) && StagesFit(jobs[j := job], sent) && HandoffFinal(jobs[j := job], sent, d)
  {
  }

  lemma AdvanceKeepsCloud(jobs: Jobs, cloud: Cloud, j: JobId, job: Job, d: Doubts)
    requires Progresses(jobs, cloud, j, job) && CloudMatches(jobs, cloud, d) && StagingMirrors(jobs, cloud) && OutcomesTrue(jobs, cloud)
    ensures CloudMatches(jobs[j := job], cloud, d) && StagingMirrors(jobs[j := job], cloud) && OutcomesTrue(jobs[j := job], cloud)
  {
  }

  /** Only a job that is handed off already can be published. */
  lemma PublishedIsHandedOff(jobs: Jobs, cloud: Cloud, sent: set<Message>, j: JobId, d: Doubts)
    requires RunningJob(jobs, j) && j !in d.usurped && HandoffFinal(jobs, sent, d) && SubmittedWereSent(cloud, sent) && PublishedIn(cloud, j)
    ensures PublishingJob(jobs, j)
  {
  }

  lemma AdvanceKeepsEndings(jobs: Jobs, cloud: Cloud, sent: set<Message>, j: JobId, job: Job, d: Doubts)
    requires Progresses(jobs, cloud, j, job) && SentEnded(jobs, cloud, sent, d)
    ensures SentEnded(jobs[j := job], cloud, sent, d)
  {
    forall i | PublishingJob(jobs, i) ensures PublishingJob(jobs[j := job], i) {}
  }

  lemma AdvanceKeepsLosses(jobs: Jobs, cloud: Cloud, j: JobId, job: Job, d: Doubts)
    requires Progresses(jobs, cloud, j, job) && LossesRecorded(jobs, d)
    ensures LossesRecorded(jobs[j := job], d)
  {
  }

  lemma AdvanceKeepsContents(jobs: Jobs, cloud: Cloud, sent: set<Message>, snapshots: map<Root, Snapshot>, deletions: D.Table, j: JobId, job: Job, d: Doubts)
    requires Progresses(jobs, cloud, j, job) && RootsInStep(jobs, snapshots, deletions, cloud, d.parted)
    requires j !in d.usurped && HandoffFinal(jobs, sent, d) && SubmittedWereSent(cloud, sent)
    ensures RootsInStep(jobs[j := job], snapshots, deletions, cloud, d.parted)
  {
    if PublishedIn(cloud, j) { PublishedIsHandedOff(jobs, cloud, sent, j, d); }
    assert Entries(job.files) == Entries(jobs[j].files);
    JobsStayInStep(jobs, jobs[j := job], snapshots, deletions, cloud, d.parted);
  }

  /** Upstream has one revision per job, so remembering it again changes nothing. */
  lemma RememberedRevision(jobs: Jobs, revisions: map<JobId, int>, cloud: Cloud, j: JobId, job: Job)
    requires RevisionsFixed(jobs, revisions, cloud) && j in jobs && IsPublished(cloud, j, job.cloudRevision)
    ensures RevisionsFixed(jobs[j := job], Remember(revisions, j, job.cloudRevision), cloud)
  {
  }

  lemma AdvanceKeepsAgreed(s: State, j: JobId, job: Job, revisions: map<JobId, int>)
    requires Agreed(s) && Progresses(s.jobs, s.cloud, j, job) && RevisionsFixed(s.jobs[j := job], revisions, s.cloud) && j !in s.doubts.usurped
    ensures Agreed(s.(jobs := s.jobs[j := job], revisions := revisions))
  {
    GivesJobsFit(s);
    AdvanceKeepsMessages(s.jobs, s.cloud, s.sent, j, job, s.doubts);
    AdvanceKeepsCloud(s.jobs, s.cloud, j, job, s.doubts);
    AdvanceKeepsLosses(s.jobs, s.cloud, j, job, s.doubts);
    if s.resets == [] {
      GivesContentFits(s);
      Gives(Submissions, s);
      AdvanceKeepsEndings(s.jobs, s.cloud, s.sent, j, job, s.doubts);
      AdvanceKeepsContents(s.jobs, s.cloud, s.sent, s.snapshots, s.deletions, j, job, s.doubts);
    }
    ReplaceKeepsAgreed(s, s.jobs[j := job], s.snapshots, revisions);
  }

  /** Progress that does not touch the revision. */
  lemma ProgressKeepsAgreed(s: State, j: JobId, job: Job)
    requires Agreed(s) && Progresses(s.jobs, s.cloud, j, job) && job.cloudRevision == s.jobs[j].cloudRevision && j !in s.doubts.usurped
    ensures Agreed(s.(jobs := s.jobs[j := job]))
  {
    Gives(Revisions, s);
    AdvanceKeepsAgreed(s, j, job, s.revisions);
  }

  // ---- a new job -----------------------------------------------------------------------------------------------------------

  ghost predicate Brandnew(job: Job) {
    && job.status == Running && job.phase == Created && !job.deletionsSent && job.cloudRevision == 0 && !job.lost
    && forall p | p in job.files :: !job.files[p].indexed
  }

  lemma InsertKeepsContents(jobs: Jobs, cloud: Cloud, snapshots: map<Root, Snapshot>, deletions: D.Table, id: JobId, job: Job, d: Doubts)
    requires id !in jobs && Brandnew(job) && RootsInStep(jobs, snapshots, deletions, cloud, d.parted)
    ensures RootsInStep(jobs[id := job], snapshots, deletions, cloud, d.parted)
  {
    JobsStayInStep(jobs, jobs[id := job], snapshots, deletions, cloud, d.parted);
  }

  lemma InsertKeepsLinks(jobs: Jobs, cloud: Cloud, sent: set<Message>, id: JobId, job: Job, d: Doubts)
    requires id !in jobs && id !in cloud.jobs && id !in d.stripped && Brandnew(job) && forall m | m in sent :: !Names(m, id)
    requires BeginsMatch(jobs, sent, d) && StagesFit(jobs, sent) && HandoffFinal(jobs, sent, d)
    requires CloudMatches(jobs, cloud, d) && StagingMirrors(jobs, cloud) && OutcomesTrue(jobs, cloud) && LossesRecorded(jobs, d)
    ensures BeginsMatch(jobs[id := job], sent, d) && StagesFit(jobs[id := job], sent) && HandoffFinal(jobs[id := job], sent, d)
    ensures CloudMatches(jobs[id := job], cloud, d) && StagingMirrors(jobs[id := job], cloud) && OutcomesTrue(jobs[id := job], cloud)
    ensures LossesRecorded(jobs[id := job], d)
  {
  }

  lemma InsertKeepsEndings(jobs: Jobs, cloud: Cloud, sent: set<Message>, id: JobId, job: Job, d: Doubts)
    requires id !in jobs && SentEnded(jobs, cloud, sent, d)
    ensures SentEnded(jobs[id := job], cloud, sent, d)
  {
  }

  predicate UnusedJob(s: State, id: JobId) {
    id !in s.jobs && id !in s.cloud.jobs && id !in s.doubts.usurped && id !in s.doubts.stripped && forall m | m in s.sent :: !Names(m, id)
  }

  lemma InsertKeepsAgreed(s: State, id: JobId, job: Job)
    requires Agreed(s) && UnusedJob(s, id) && Brandnew(job)
    ensures Agreed(s.(jobs := s.jobs[id := job]))
  {
    GivesJobsFit(s);
    InsertKeepsLinks(s.jobs, s.cloud, s.sent, id, job, s.doubts);
    if s.resets == [] {
      GivesContentFits(s);
      InsertKeepsContents(s.jobs, s.cloud, s.snapshots, s.deletions, id, job, s.doubts);
      InsertKeepsEndings(s.jobs, s.cloud, s.sent, id, job, s.doubts);
    }
    Gives(Revisions, s);
    ReplaceKeepsAgreed(s, s.jobs[id := job], s.snapshots, s.revisions);
  }

  lemma SendBegin(s: State, j: JobId, root: Root, full: bool)
    requires Agreed(s) && (j in s.jobs ==> s.jobs[j].root == root && s.jobs[j].full == full) && j !in s.doubts.usurped
    ensures Agreed(s.(sent := s.sent + {Begin(j, root, full)}))
  {
    var s' := s.(sent := s.sent + {Begin(j, root, full)});
    if s.resets == [] { Gives(Suspicions, s); SuspicionsStay(s.doubts, s.cloud, s.sent, s'.sent); }
    forall c: Link ensures Linked(c, s') { Gives(c, s); }
  }

  // ---- a job gets its outcome from upstream ---------------------------------------------------------------------------------------

  /** `job` is the handed-off job `j`, ended the way upstream ended it. */
  ghost predicate Concludes(jobs: Jobs, cloud: Cloud, j: JobId, job: Job) {
    && PublishingJob(jobs, j) && job.root == jobs[j].root && job.full == jobs[j].full
    && (job.status == Completed || job.status == Failed(PublicationFailed)) && OutcomeTrue(job, j, cloud)
  }

  lemma ConcludeKeepsLinks(jobs: Jobs, cloud: Cloud, sent: set<Message>, j: JobId, job: Job, d: Doubts)
    requires Concludes(jobs, cloud, j, job)
    requires BeginsMatch(jobs, sent, d) && StagesFit(jobs, sent) && HandoffFinal(jobs, sent, d)
    requires CloudMatches(jobs, cloud, d) && StagingMirrors(jobs, cloud) && OutcomesTrue(jobs, cloud) && LossesRecorded(jobs, d)
    ensures BeginsMatch(jobs[j := job], sent, d) && StagesFit(jobs[j := job], sent) && HandoffFinal(jobs[j := job], sent, d)
    ensures CloudMatches(jobs[j := job], cloud, d) && StagingMirrors(jobs[j := job], cloud) && OutcomesTrue(jobs[j := job], cloud)
    ensures LossesRecorded(jobs[j := job], d)
  {
  }

  lemma ConcludeKeepsEndings(jobs: Jobs, cloud: Cloud, sent: set<Message>, j: JobId, job: Job, d: Doubts)
    requires Concludes(jobs, cloud, j, job) && SentEnded(jobs, cloud, sent, d)
    ensures SentEnded(jobs[j := job], cloud, sent, d)
  {
  }

  /** Another root than that of the ended job. */
  lemma OtherRootStaysInStep(jobs: Jobs, j: JobId, job: Job, snapshots: map<Root, Snapshot>, snapshots': map<Root, Snapshot>,
                             deletions: D.Table, cloud: Cloud, root: Root)
    requires RootInStep(jobs, snapshots, deletions, cloud, root) && j in jobs && jobs[j].root == job.root != root
    requires Stored(snapshots', root) == Stored(snapshots, root)
    ensures RootInStep(jobs[j := job], snapshots', deletions, cloud, root)
  {
    StillInStep(jobs, jobs[j := job], snapshots, snapshots', deletions, deletions, cloud, cloud, root);
  }

  /** Completion stores the manifest, which is what upstream published. */
  lemma CompletionKeepsRoots(jobs: Jobs, cloud: Cloud, snapshots: map<Root, Snapshot>, deletions: D.Table, j: JobId, job: Job, d: Doubts)
    requires Concludes(jobs, cloud, j, job) && job.status == Completed && RootsInStep(jobs, snapshots, deletions, cloud, d.parted)
    ensures RootsInStep(jobs[j := job], snapshots[job.root := ManifestOf(jobs[j])], deletions, cloud, d.parted)
  {
    var after, stored := jobs[j := job], snapshots[job.root := ManifestOf(jobs[j])];
    forall root: Root | root !in d.parted ensures RootInStep(after, stored, deletions, cloud, root) {
      assert RootInStep(jobs, snapshots, deletions, cloud, root);
      if root != job.root {
        OtherRootStaysInStep(jobs, j, job, snapshots, stored, deletions, cloud, root);
      } else {
        assert AwaitsSnapshot(jobs, cloud, root, j);
        forall i | i in after && AwaitsSnapshot(after, cloud, root, i) ensures Content(cloud, root) == ManifestOf(after[i]) {
          assert AwaitsSnapshot(jobs, cloud, root, i);
        }
      }
    }
  }

  lemma FailureKeepsRoots(jobs: Jobs, cloud: Cloud, snapshots: map<Root, Snapshot>, deletions: D.Table, j: JobId, job: Job, d: Doubts)
    requires Concludes(jobs, cloud, j, job) && job.status == Failed(PublicationFailed) && RootsInStep(jobs, snapshots, deletions, cloud, d.parted)
    ensures RootsInStep(jobs[j := job], snapshots, deletions, cloud, d.parted)
  {
    JobsStayInStep(jobs, jobs[j := job], snapshots, deletions, cloud, d.parted);
  }

  lemma ConcludeKeepsOthers(s: State, j: JobId, job: Job, snapshots: map<Root, Snapshot>, revisions: map<JobId, int>)
    requires Agreed(s) && Concludes(s.jobs, s.cloud, j, job) && RevisionsFixed(s.jobs[j := job], revisions, s.cloud)
    requires s.resets == [] ==> RootsInStep(s.jobs[j := job], snapshots, s.deletions, s.cloud, s.doubts.parted)
    ensures Agreed(s.(jobs := s.jobs[j := job], snapshots := snapshots, revisions := revisions))
  {
    GivesJobsFit(s);
    ConcludeKeepsLinks(s.jobs, s.cloud, s.sent, j, job, s.doubts);
    if s.resets == [] {
      GivesContentFits(s);
      ConcludeKeepsEndings(s.jobs, s.cloud, s.sent, j, job, s.doubts);
    }
    ReplaceKeepsAgreed(s, s.jobs[j := job], snapshots, revisions);
  }

  lemma CompletionKeepsAgreed(s: State, j: JobId, job: Job)
    requires Agreed(s) && Concludes(s.jobs, s.cloud, j, job) && job.status == Completed
    ensures Agreed(s.(jobs := s.jobs[j := job], snapshots := s.snapshots[job.root := ManifestOf(s.jobs[j])],
                      revisions := Remember(s.revisions, j, job.cloudRevision)))
  {
    if s.resets == [] {
      Gives(Contents, s);
      CompletionKeepsRoots(s.jobs, s.cloud, s.snapshots, s.deletions, j, job, s.doubts);
    }
    Gives(Revisions, s);
    RememberedRevision(s.jobs, s.revisions, s.cloud, j, job);
    ConcludeKeepsOthers(s, j, job, s.snapshots[job.root := ManifestOf(s.jobs[j])], Remember(s.revisions, j, job.cloudRevision));
  }

  lemma FailureKeepsAgreed(s: State, j: JobId, job: Job)
    requires Agreed(s) && Concludes(s.jobs, s.cloud, j, job) && job.status == Failed(PublicationFailed)
    requires job.cloudRevision == s.jobs[j].cloudRevision
    ensures Agreed(s.(jobs := s.jobs[j := job]))
  {
    if s.resets == [] {
      Gives(Contents, s);
      FailureKeepsRoots(s.jobs, s.cloud, s.snapshots, s.deletions, j, job, s.doubts);
    }
    Gives(Revisions, s);
    ConcludeKeepsOthers(s, j, job, s.snapshots, s.revisions);
  }

  /** The job table changes together with what is remembered of it. */
  lemma DoubtfulJobsKeepAgreed(s: State, jobs: Jobs, d: Doubts)
    requires Agreed(s) && JobsFit(jobs, s.cloud, s.sent, s.revisions, d)
    requires s.resets == [] ==> ContentFits(jobs, s.snapshots, s.deletions, s.cloud, s.sent, d) && PartedAreSuspect(d, s.cloud, s.sent)
    ensures Agreed(s.(jobs := jobs, doubts := d))
  {
    var s' := s.(jobs := jobs, doubts := d);
    forall c: Link ensures Linked(c, s') { Gives(c, s); }
  }

  // ---- a begin failure ends a job that was handed off ---------------------------------------------------------------------------------

  /** `job` is the handed-off job `j`, ended without asking upstream. */
  ghost predicate Usurps(jobs: Jobs, j: JobId, job: Job) {
    && PublishingJob(jobs, j) && job.status == Failed(BeginFailed)
    && job.root == jobs[j].root && job.full == jobs[j].full && job.cloudRevision == jobs[j].cloudRevision
  }

  /** The job is remembered; the root is too unless it is in step without the job. */
  ghost predicate Remembers(s: State, j: JobId, root: Root, d: Doubts) {
    && d.usurped == s.doubts.usurped[j := root] && d.stripped == s.doubts.stripped
    && d.parted == s.doubts.parted + (if PublishedIn(s.cloud, j) && Content(s.cloud, root) != Stored(s.snapshots, root) then {root} else {})
  }

  lemma UsurpKeepsMessages(jobs: Jobs, sent: set<Message>, j: JobId, job: Job, d: Doubts, d': Doubts)
    requires Usurps(jobs, j, job) && BeginsMatch(jobs, sent, d) && StagesFit(jobs, sent) && HandoffFinal(jobs, sent, d)
    requires d'.usurped == d.usurped[j := job.root]
    ensures BeginsMatch(jobs[j := job], sent, d') && StagesFit(jobs[j := job], sent) && HandoffFinal(jobs[j := job], sent, d')
  {
  }

  lemma UsurpKeepsCloud(jobs: Jobs, cloud: Cloud, j: JobId, job: Job, d: Doubts, d': Doubts)
    requires Usurps(jobs, j, job) && CloudMatches(jobs, cloud, d) && StagingMirrors(jobs, cloud) && OutcomesTrue(jobs, cloud)
    requires LossesRecorded(jobs, d) && d'.usurped == d.usurped[j := job.root] && d'.stripped == d.stripped
    ensures CloudMatches(jobs[j := job], cloud, d') && StagingMirrors(jobs[j := job], cloud)
    ensures OutcomesTrue(jobs[j := job], cloud) && LossesRecorded(jobs[j := job], d')
  {
  }

  lemma UsurpKeepsRevisions(jobs: Jobs, revisions: map<JobId, int>, cloud: Cloud, j: JobId, job: Job)
    requires Usurps(jobs, j, job) && RevisionsFixed(jobs, revisions, cloud)
    ensures RevisionsFixed(jobs[j := job], revisions, cloud)
  {
  }

  lemma UsurpKeepsEndings(jobs: Jobs, cloud: Cloud, sent: set<Message>, j: JobId, job: Job, d: Doubts, d': Doubts)
    requires Usurps(jobs, j, job) && SentEnded(jobs, cloud, sent, d) && d'.usurped == d.usurped[j := job.root]
    ensures SentEnded(jobs[j := job], cloud, sent, d')
  {
  }

  /** The ended job's own root: nobody else runs on it, so nothing awaits its snapshot any more. */
  lemma UsurpedRootInStep(jobs: Jobs, cloud: Cloud, snapshots: map<Root, Snapshot>, deletions: D.Table, j: JobId, job: Job)
    requires Usurps(jobs, j, job) && OneRunning(jobs) && !DeletionOn(deletions, job.root)
    ensures RootInStep(jobs[j := job], snapshots, deletions, cloud, job.root) <==> Content(cloud, job.root) == Stored(snapshots, job.root)
  {
    var after := jobs[j := job];
    forall i ensures !AwaitsSnapshot(after, cloud, job.root, i) {
      if i != j && RunningJob(after, i) { assert RunningJob(jobs, i); }
    }
  }

  lemma UsurpKeepsRoots(s: State, j: JobId, job: Job, d: Doubts)
    requires Usurps(s.jobs, j, job) && RootsInStep(s.jobs, s.snapshots, s.deletions, s.cloud, s.doubts.parted)
    requires Remembers(s, j, job.root, d) && OneRunning(s.jobs) && !DeletionOn(s.deletions, job.root)
    ensures RootsInStep(s.jobs[j := job], s.snapshots, s.deletions, s.cloud, d.parted)
  {
    forall root: Root | root !in d.parted ensures RootInStep(s.jobs[j := job], s.snapshots, s.deletions, s.cloud, root) {
      assert RootInStep(s.jobs, s.snapshots, s.deletions, s.cloud, root);
      if root != job.root {
        OtherRootStaysInStep(s.jobs, j, job, s.snapshots, s.snapshots, s.deletions, s.cloud, root);
      } else {
        UsurpedRootInStep(s.jobs, s.cloud, s.snapshots, s.deletions, j, job);
        UnpublishedIsStored(s.jobs, s.cloud, s.snapshots, s.deletions, j);
      }
    }
  }

  /** Before a publication takes effect, upstream still has the stored snapshot of that root. */
  lemma UnpublishedIsStored(jobs: Jobs, cloud: Cloud, snapshots: map<Root, Snapshot>, deletions: D.Table, j: JobId)
    requires PublishingJob(jobs, j) && OneRunning(jobs) && !DeletionOn(deletions, jobs[j].root)
    requires RootInStep(jobs, snapshots, deletions, cloud, jobs[j].root)
    ensures !PublishedIn(cloud, j) ==> Content(cloud, jobs[j].root) == Stored(snapshots, jobs[j].root)
  {
    if PublishedOn(jobs, cloud, jobs[j].root) {
      var i :| i in jobs && AwaitsSnapshot(jobs, cloud, jobs[j].root, i);
      assert i == j;
    }
  }

  lemma UsurpKeepsSuspicions(s: State, j: JobId, root: Root, d: Doubts)
    requires PartedAreSuspect(s.doubts, s.cloud, s.sent) && Remembers(s, j, root, d) && (j in s.doubts.usurped ==> s.doubts.usurped[j] == root)
    ensures PartedAreSuspect(d, s.cloud, s.sent)
  {
    forall r | r in d.parted ensures Suspect(d, s.cloud, s.sent, r) {
      if r in s.doubts.parted {
        SuspectStays(s.doubts, d, s.cloud, s.cloud, s.sent, s.sent, r);
      } else {
        assert d.usurped[j] == r && PublishedIn(s.cloud, j);
      }
    }
  }

  lemma UsurpKeepsAgreed(s: State, j: JobId, job: Job, d: Doubts)
    requires Agreed(s) && Usurps(s.jobs, j, job) && (j in s.doubts.usurped ==> s.doubts.usurped[j] == job.root)
    requires Remembers(s, j, job.root, d) && OneRunning(s.jobs) && !DeletionOn(s.deletions, job.root)
    ensures Agreed(s.(jobs := s.jobs[j := job], doubts := d))
  {
    GivesJobsFit(s);
    UsurpKeepsMessages(s.jobs, s.sent, j, job, s.doubts, d);
    UsurpKeepsCloud(s.jobs, s.cloud, j, job, s.doubts, d);
    UsurpKeepsRevisions(s.jobs, s.revisions, s.cloud, j, job);
    if s.resets == [] {
      GivesContentFits(s);
      Gives(Suspicions, s);
      UsurpKeepsEndings(s.jobs, s.cloud, s.sent, j, job, s.doubts, d);
      UsurpKeepsRoots(s, j, job, d);
      UsurpKeepsSuspicions(s, j, job.root, d);
    }
    DoubtfulJobsKeepAgreed(s, s.jobs[j := job], d);
  }

  // ---- a running job loses its file rows ------------------------------------------------------------------------------------------------

  lemma StripKeepsMessages(jobs: Jobs, sent: set<Message>, j: JobId, d: Doubts)
    requires RunningJob(jobs, j) && BeginsMatch(jobs, sent, d) && StagesFit(jobs, sent) && HandoffFinal(jobs, sent, d)
    ensures var after := jobs[j := jobs[j].(lost := true)];
            BeginsMatch(after, sent, d) && StagesFit(after, sent) && HandoffFinal(after, sent, d)
  {
  }

  lemma StripKeepsCloud(jobs: Jobs, cloud: Cloud, j: JobId, d: Doubts, d': Doubts)
    requires RunningJob(jobs, j) && CloudMatches(jobs, cloud, d) && StagingMirrors(jobs, cloud) && OutcomesTrue(jobs, cloud)
    requires LossesRecorded(jobs, d) && d'.usurped == d.usurped && d'.stripped == d.stripped[j := jobs[j].root]
    ensures var after := jobs[j := jobs[j].(lost := true)];
            CloudMatches(after, cloud, d') && StagingMirrors(after, cloud) && OutcomesTrue(after, cloud) && LossesRecorded(after, d')
  {
  }

  lemma StripKeepsEndings(jobs: Jobs, cloud: Cloud, sent: set<Message>, revisions: map<JobId, int>, j: JobId, d: Doubts)
    requires RunningJob(jobs, j)
    ensures SentEnded(jobs, cloud, sent, d) ==> SentEnded(jobs[j := jobs[j].(lost := true)], cloud, sent, d)
    ensures RevisionsFixed(jobs, revisions, cloud) ==> RevisionsFixed(jobs[j := jobs[j].(lost := true)], revisions, cloud)
  {
  }

  /** A job that awaits its snapshot will store nothing now, so nothing must be there. */
  lemma StrippedRootInStep(jobs: Jobs, cloud: Cloud, snapshots: map<Root, Snapshot>, deletions: D.Table, j: JobId)
    requires RunningJob(jobs, j) && OneRunning(jobs) && RootInStep(jobs, snapshots, deletions, cloud, jobs[j].root)
    ensures RootInStep(jobs[j := jobs[j].(lost := true)], snapshots, deletions, cloud, jobs[j].root) <==>
              (AwaitsSnapshot(jobs, cloud, jobs[j].root, j) ==> Content(cloud, jobs[j].root) == map[])
  {
    var after, root := jobs[j := jobs[j].(lost := true)], jobs[j].root;
    forall i ensures AwaitsSnapshot(after, cloud, root, i) <==> AwaitsSnapshot(jobs, cloud, root, i) {}
    if !AwaitsSnapshot(jobs, cloud, root, j) {
      StillInStep(jobs, after, snapshots, snapshots, deletions, deletions, cloud, cloud, root);
    } else {
      assert j in after && AwaitsSnapshot(after, cloud, root, j);
    }
  }

  lemma StripKeepsRoots(s: State, j: JobId)
    requires RunningJob(s.jobs, j) && OneRunning(s.jobs) && RootsInStep(s.jobs, s.snapshots, s.deletions, s.cloud, s.doubts.parted)
    ensures RootsInStep(Stripped(s, j).jobs, s.snapshots, s.deletions, s.cloud, Stripped(s, j).doubts.parted)
  {
    var job, parted := s.jobs[j].(lost := true), Stripped(s, j).doubts.parted;
    forall root: Root | root !in parted ensures RootInStep(s.jobs[j := job], s.snapshots, s.deletions, s.cloud, root) {
      assert RootInStep(s.jobs, s.snapshots, s.deletions, s.cloud, root);
      if root != job.root {
        OtherRootStaysInStep(s.jobs, j, job, s.snapshots, s.snapshots, s.deletions, s.cloud, root);
      } else {
        StrippedRootInStep(s.jobs, s.cloud, s.snapshots, s.deletions, j);
      }
    }
  }

  lemma StripKeepsSuspicions(s: State, j: JobId)
    requires RunningJob(s.jobs, j) && PartedAreSuspect(s.doubts, s.cloud, s.sent) && LossesRecorded(s.jobs, s.doubts)
    ensures PartedAreSuspect(Stripped(s, j).doubts, s.cloud, s.sent)
  {
    var d := Stripped(s, j).doubts;
    forall r | r in d.parted ensures Suspect(d, s.cloud, s.sent, r) {
      if r in s.doubts.parted {
        SuspectStays(s.doubts, d, s.cloud, s.cloud, s.sent, s.sent, r);
      } else {
        assert d.stripped[j] == r && PublishedIn(s.cloud, j);
      }
    }
  }

  lemma StripKeepsAgreed(s: State, j: JobId)
    requires Agreed(s) && RunningJob(s.jobs, j) && OneRunning(s.jobs)
    ensures Agreed(Stripped(s, j))
  {
    GivesJobsFit(s);
    StripKeepsMessages(s.jobs, s.sent, j, s.doubts);
    StripKeepsCloud(s.jobs, s.cloud, j, s.doubts, Stripped(s, j).doubts);
    StripKeepsEndings(s.jobs, s.cloud, s.sent, s.revisions, j, s.doubts);
    if s.resets == [] {
      GivesContentFits(s);
      Gives(Suspicions, s);
      StripKeepsRoots(s, j);
      StripKeepsSuspicions(s, j);
    }
    DoubtfulJobsKeepAgreed(s, Stripped(s, j).jobs, Stripped(s, j).doubts);
  }
}
