/** What the relay assumes of the upstream engine: it may lose, delay, repeat and reorder calls
    and replies, but terminal job states are absorbing and a clear is idempotent by operation id. */
module Upstream {
  import opened RelayTypes

  datatype Message =
    | Begin(job: JobId, root: Root, full: bool)
    | Stage(job: JobId, files: Snapshot, removed: set<Path>)
    | Publish(job: JobId)
    | Abort(job: JobId)
    | Clear(operation: string, target: Root)
    | Wipe(call: Token, target: Root)

  datatype CloudState = Open | Submitted | Published(revision: nat) | Unpublished

  datatype CloudJob = CloudJob(root: Root, full: bool, state: CloudState, staged: Snapshot, removed: set<Path>)

  datatype Receipt = Receipt(target: Root, files: nat)

  /** `wipes` are the calls without an operation id that took effect. */
  datatype Cloud = Cloud(content: map<Root, Snapshot>, jobs: map<JobId, CloudJob>, receipts: map<string, Receipt>, wipes: set<Token>)

  predicate Names(m: Message, j: JobId) {
    !m.Clear? && !m.Wipe? && m.job == j
  }

  function Content(cloud: Cloud, root: Root): Snapshot {
    if root in cloud.content then cloud.content[root] else map[]
  }

  predicate Terminal(state: CloudState) {
    state.Published? || state.Unpublished?
  }

  predicate IsPublished(cloud: Cloud, job: JobId, revision: int) {
    job in cloud.jobs && cloud.jobs[job].state.Published? && cloud.jobs[job].state.revision == revision
  }

  predicate IsUnpublished(cloud: Cloud, job: JobId) {
    job in cloud.jobs && cloud.jobs[job].state.Unpublished?
  }

  predicate IsTerminal(cloud: Cloud, job: JobId) {
    job in cloud.jobs && Terminal(cloud.jobs[job].state)
  }

  /** Staging overlays files by path. */
  function Overlay(job: CloudJob, files: Snapshot, removed: set<Path>): CloudJob {
    job.(staged := job.staged + files, removed := job.removed + removed)
  }

  function PublishedContent(base: Snapshot, job: CloudJob): Snapshot {
    if job.full then job.staged else (base - job.removed) + job.staged
  }

  /** The effect of one arrival of a message; any sent message may arrive any number of times. */
  function Arrive(cloud: Cloud, m: Message): Cloud {
    match m
    case Begin(j, root, full) =>
      if j in cloud.jobs then cloud
      else cloud.(jobs := cloud.jobs[j := CloudJob(root, full, Open, map[], {})])
    case Stage(j, files, removed) =>
      if j in cloud.jobs && cloud.jobs[j].state == Open
      then cloud.(jobs := cloud.jobs[j := Overlay(cloud.jobs[j], files, removed)])
      else cloud
    case Publish(j) =>
      if j in cloud.jobs && cloud.jobs[j].state == Open
      then cloud.(jobs := cloud.jobs[j := cloud.jobs[j].(state := Submitted)])
      else cloud
    case Abort(j) =>
      if j in cloud.jobs && !Terminal(cloud.jobs[j].state)
      then cloud.(jobs := cloud.jobs[j := cloud.jobs[j].(state := Unpublished)])
      else cloud
    case Clear(op, target) =>
      if op in cloud.receipts then cloud
      else cloud.(content := cloud.content[target := map[]],
                  receipts := cloud.receipts[op := Receipt(target, |Content(cloud, target)|)])
    case Wipe(call, target) => cloud.(content := cloud.content[target := map[]], wipes := cloud.wipes + {call})
  }

  function PublicationSucceeded(cloud: Cloud, j: JobId, revision: nat): Cloud
    requires j in cloud.jobs
  {
    var job := cloud.jobs[j];
    cloud.(content := cloud.content[job.root := PublishedContent(Content(cloud, job.root), job)],
           jobs := cloud.jobs[j := job.(state := Published(revision))])
  }

  function Dropped(cloud: Cloud, j: JobId): Cloud
    requires j in cloud.jobs
  {
    cloud.(jobs := cloud.jobs[j := cloud.jobs[j].(state := Unpublished)])
  }

  /** State words of a decoded reply to publish, status or abort. */
  datatype Word =
    | SaysFailed | SaysCancelled | SaysAborted | SaysPublishing | SaysCompleted | SaysNotSubmitted | SaysOther

  datatype Reply = Reply(word: Word, revision: Option<int>)

  /** Replies do not lie about terminal states. Anything else they say is unconstrained. */
  predicate Truthful(cloud: Cloud, j: JobId, reply: Reply) {
    && (reply.word.SaysFailed? || reply.word.SaysCancelled? || reply.word.SaysAborted? ==> IsUnpublished(cloud, j))
    && (!ReportsFailure(reply) && !reply.word.SaysPublishing? && reply.revision.Some? ==> IsPublished(cloud, j, reply.revision.value))
  }

  predicate ReportsFailure(reply: Reply) {
    reply.word.SaysFailed? || reply.word.SaysCancelled?
  }

  function RevisionOf(reply: Reply): Option<int> {
    if reply.revision.Some? && reply.revision.value >= 0 then reply.revision else None
  }

  /** The reply to a stage call, given only after its files and deletions are in the staging area. */
  predicate StageAcknowledged(cloud: Cloud, j: JobId, files: Snapshot, removed: set<Path>) {
    && j in cloud.jobs
    && (forall p | p in files :: p in cloud.jobs[j].staged)
    && removed <= cloud.jobs[j].removed
  }
}
