/** Rows of index_jobs and index_job_files, and the statements that change one job. */
module IndexJobs {
  import opened RelayTypes
  import opened Manifest

  datatype Phase = Created | Uploading | Indexing | Publishing | Done

  /** Who ended a job as failed; the source tells them apart by the recorded error. */
  datatype Cause = BeginFailed | ClientReported | PublicationFailed

  datatype Status = Running | Completed | Failed(cause: Cause) | TimedOut

  datatype FileRow = FileRow(entry: Entry, needsIndex: bool, indexed: bool)

  type FileTable = map<Path, FileRow>

  /** `base` is the snapshot that start compared with and `announced` the deletion list it returned;
      they are history, not columns. `lost`: the file rows were removed under the running job; `files` is then
      what they were. */
  datatype Job = Job(
    root: Root,
    full: bool,
    phase: Phase,
    status: Status,
    files: FileTable,
    totalFiles: int,
    indexedFiles: int,
    deletedCount: int,
    deletionsSent: bool,
    cloudRevision: int,
    heartbeat: Time,
    publishingSince: Option<Time>,
    base: Snapshot,
    announced: set<Path>,
    lost: bool)

  /** A file of an upload batch: the hash the client claims and what its content really is. */
  datatype BatchFile = BatchFile(claimedHash: string, content: Entry)

  const INITIAL_UPLOAD_TIMEOUT: Time := 120_000
  const HEARTBEAT_TIMEOUT: Time := 600_000
  const PUBLICATION_MAX_AGE: Time := 3_600_000

  function Entries(files: FileTable): Snapshot {
    map p | p in files :: files[p].entry
  }

  /** What the file rows of a job say: this is stored when it completes. */
  function ManifestOf(job: Job): Snapshot {
    if job.lost then map[] else Entries(job.files)
  }

  function Needed(files: FileTable): set<Path> {
    set p | p in files && files[p].needsIndex
  }

  function Staged(files: FileTable): set<Path> {
    set p | p in files && files[p].needsIndex && files[p].indexed
  }

  predicate HeartbeatExpired(job: Job, now: Time) {
    && job.phase != Publishing
    && job.heartbeat < now - (if job.phase == Created then INITIAL_UPLOAD_TIMEOUT else HEARTBEAT_TIMEOUT)
  }

  /** The condition both completion checks test before a publication may go on. */
  predicate FullyStaged(job: Job) {
    && job.indexedFiles == job.totalFiles
    && (job.deletedCount > 0 ==> job.deletionsSent)
  }

  predicate BatchFileAccepted(files: FileTable, path: Path, file: BatchFile) {
    && path in files
    && files[path].needsIndex
    && !files[path].indexed
    && file.claimedHash == files[path].entry.hash
    && file.content == files[path].entry
  }

  function NewJob(root: Root, full: bool, previous: Snapshot, manifest: Snapshot, now: Time): Job {
    var pending := Pending(previous, manifest);
    var deleted := Deleted(previous, manifest);
    Job(root, full, Created, Running,
        map p | p in manifest :: FileRow(manifest[p], p in pending, false),
        |pending|, 0, |deleted|, false, 0, now, None, previous, deleted, false)
  }

  /** Any end of a job: phase done, file rows removed. */
  function Ended(job: Job, status: Status): Job {
    job.(status := status, phase := Done, files := map[])
  }

  function MarkIndexed(files: FileTable, paths: set<Path>): FileTable {
    map p | p in files :: if p in paths then files[p].(indexed := true) else files[p]
  }

  predicate Committable(job: Job, paths: set<Path>) {
    && job.status == Running
    && (paths != {} ==> !job.lost)
    && forall p | p in paths :: p in job.files && job.files[p].needsIndex && !job.files[p].indexed
  }

  function BatchCommitted(job: Job, paths: set<Path>, sentDeletions: bool, now: Time): Job {
    job.(phase := Indexing,
         files := MarkIndexed(job.files, paths),
         indexedFiles := job.indexedFiles + |paths|,
         deletionsSent := job.deletionsSent || sentDeletions,
         heartbeat := now)
  }

  function HandedOff(job: Job, now: Time): Job {
    job.(phase := Publishing, heartbeat := now,
         publishingSince := if job.publishingSince.None? then Some(now) else job.publishingSince)
  }
}
