/** Rows of platform_config_jobs and the statements that change them. */
module PlatformConfig {
  import opened RelayTypes
  import opened Dispatch

  datatype Status = Pending | Running | Succeeded | Rejected

  datatype ConfigJob = ConfigJob(section: string, embeddingChanged: bool, status: Status, ticket: Ticket)

  datatype Claim = Claim(id: string, embeddingChanged: bool, attempt: string, attempts: int)

  datatype Outcome = SaysCompleted | SaysRejected | SaysOther

  datatype Receipt = Receipt(operation: string, outcome: Outcome, embeddingChanged: bool)

  type Table = map<string, ConfigJob>

  predicate Active(job: ConfigJob) {
    job.status == Pending || job.status == Running
  }

  predicate AnyActive(table: Table) {
    exists id | id in table :: Active(table[id])
  }

  /** An embedding-changing job is active: the fence on leases and deletions. */
  predicate Resetting(table: Table) {
    exists id | id in table :: ResetBy(table, id)
  }

  predicate ResetBy(table: Table, id: string) {
    id in table && Active(table[id]) && table[id].embeddingChanged
  }

  /** The unique index over all rows: one active job at a time. */
  ghost predicate OneActive(table: Table) {
    forall a, b | a in table && b in table && Active(table[a]) && Active(table[b]) :: a == b
  }

  /** `indexBusy`: some lease is live or some deletion is active. */
  function Enqueued(table: Table, id: string, section: string, embeddingChanged: bool, indexBusy: bool, now: Time): Table {
    if id in table || AnyActive(table) || (embeddingChanged && indexBusy) then table
    else table[id := ConfigJob(section, embeddingChanged, Pending, Fresh(now))]
  }

  function Resumed(table: Table, id: string, now: Time): Table {
    if id in table && table[id].status == Running && table[id].ticket.recovery
    then table[id := table[id].(ticket := Dispatch.Recovered(table[id].ticket, now))]
    else table
  }

  predicate Claimable(job: ConfigJob, now: Time) {
    Active(job) && Dispatchable(job.ticket, job.status == Running, now)
  }

  /** One claim statement: every exhausted row is flagged, at most one claimable row is taken. */
  function Claimed(table: Table, pick: Option<string>, attempt: string, now: Time): Table {
    map id | id in table ::
      if pick == Some(id) then table[id].(status := Running, ticket := Taken(table[id].ticket, attempt, now))
      else if table[id].status == Running && Exhausted(table[id].ticket, now) then table[id].(ticket := Flagged(table[id].ticket))
      else table[id]
  }

  function WithClaim(claims: set<Claim>, table: Table, pick: Option<string>, attempt: string): set<Claim> {
    if pick.Some? && pick.value in table
    then claims + {Claim(pick.value, table[pick.value].embeddingChanged, attempt, table[pick.value].ticket.attempts)}
    else claims
  }

  predicate Current(table: Table, claim: Claim, now: Time) {
    claim.id in table && table[claim.id].status == Running && Held(table[claim.id].ticket, claim.attempt, now)
  }

  /** The receipt check and the row lock of finishPlatformConfigJob. */
  predicate Settles(table: Table, claim: Claim, receipt: Receipt, now: Time) {
    && receipt.operation == claim.id
    && receipt.embeddingChanged == claim.embeddingChanged
    && !receipt.outcome.SaysOther?
    && Current(table, claim, now)
  }

  predicate ClearsRelay(claim: Claim, receipt: Receipt) {
    !receipt.outcome.SaysRejected? && claim.embeddingChanged
  }

  function Settled(table: Table, claim: Claim, receipt: Receipt): Table
    requires claim.id in table
  {
    var row := table[claim.id];
    table[claim.id := row.(status := if receipt.outcome.SaysRejected? then Rejected else Succeeded,
                           ticket := row.ticket.(claimUntil := None, recovery := false))]
  }

  /** A deferral never refunds, and keeps the attempt count that the claim stored. */
  function Postponed(table: Table, claim: Claim, now: Time): Table {
    if Current(table, claim, now)
    then table[claim.id := table[claim.id].(ticket :=
           Deferred(table[claim.id].ticket, claim.attempts, false, now).(attempts := table[claim.id].ticket.attempts))]
    else table
  }

  /** Every active row was active before, with the same kind of change. */
  ghost predicate NoNewActive(table: Table, after: Table) {
    forall id | id in after && Active(after[id]) :: id in table && Active(table[id]) && after[id].embeddingChanged == table[id].embeddingChanged
  }

  lemma NoNewActiveKeepsReset(table: Table, after: Table)
    requires NoNewActive(table, after)
    ensures forall id | ResetBy(after, id) :: ResetBy(table, id)
  {
  }

  lemma NoNewActiveKeepsOneActive(table: Table, after: Table)
    requires NoNewActive(table, after) && OneActive(table)
    ensures OneActive(after)
  {
  }

  /** An embedding change is admitted only while the indexes are idle. */
  lemma EnqueuedReset(table: Table, id: string, section: string, embeddingChanged: bool, indexBusy: bool, now: Time)
    ensures forall k | ResetBy(Enqueued(table, id, section, embeddingChanged, indexBusy, now), k) :: ResetBy(table, k) || !indexBusy
  {
  }

  lemma EnqueuedKeepsOneActive(table: Table, id: string, section: string, embeddingChanged: bool, indexBusy: bool, now: Time)
    requires OneActive(table)
    ensures OneActive(Enqueued(table, id, section, embeddingChanged, indexBusy, now))
  {
  }

  lemma ClaimedNoNewActive(table: Table, pick: Option<string>, attempt: string, now: Time)
    requires pick.Some? ==> pick.value in table && Claimable(table[pick.value], now)
    ensures NoNewActive(table, Claimed(table, pick, attempt, now))
  {
  }

  // ---- the table, updated one statement per method ------------------------------------------------------

  datatype Enqueueing = Stored(id: string) | Mismatch | Busy

  class ConfigTable {
    var rows: Table

    constructor ()
      ensures rows == map[] && OneActive(rows)
    {
      rows := map[];
    }

    /** enqueuePlatformConfigJob: replays the same operation, refuses another while one is active. */
    method Enqueue(id: string, section: string, embeddingChanged: bool, indexBusy: bool, now: Time) returns (r: Enqueueing)
      requires OneActive(rows)
      modifies this
      ensures rows == Enqueued(old(rows), id, section, embeddingChanged, indexBusy, now) && OneActive(rows)
      ensures r.Stored? <==> id in rows && rows[id].section == section && rows[id].embeddingChanged == embeddingChanged
      ensures r.Mismatch? ==> id in old(rows)
      ensures r.Busy? ==> id !in old(rows) && (AnyActive(old(rows)) || (embeddingChanged && indexBusy))
    {
      EnqueuedKeepsOneActive(rows, id, section, embeddingChanged, indexBusy, now);
      if id in rows {
        return if rows[id].section == section && rows[id].embeddingChanged == embeddingChanged then Stored(id) else Mismatch;
      }
      var active := exists k | k in rows :: Active(rows[k]);
      if active || (embeddingChanged && indexBusy) {
        return Busy;
      }
      rows := rows[id := ConfigJob(section, embeddingChanged, Pending, Fresh(now))];
      return Stored(id);
    }

    /** claimPlatformConfigJob: flags every exhausted row and hands out a claimable row that no other statement has `locked`. */
    method ClaimNext(locked: set<string>, attempt: string, now: Time) returns (claim: Option<Claim>)
      requires OneActive(rows)
      modifies this
      ensures rows == Claimed(old(rows), if claim.Some? then Some(claim.value.id) else None, attempt, now) && OneActive(rows)
      ensures claim.None? <==> forall id | id in old(rows) && id !in locked :: !Claimable(old(rows)[id], now)
      ensures claim.Some? ==> claim.value.id in old(rows) && claim.value.id !in locked && Claimable(old(rows)[claim.value.id], now)
      ensures claim.Some? ==> Current(rows, claim.value, now) && claim.value.embeddingChanged == rows[claim.value.id].embeddingChanged
      ensures forall id | id in rows :: !(rows[id].status == Running && Exhausted(rows[id].ticket, now))
    {
      var pick: Option<string> := None;
      if id :| id in rows && id !in locked && Claimable(rows[id], now) {
        pick := Some(id);
      }
      ClaimedNoNewActive(rows, pick, attempt, now);
      NoNewActiveKeepsOneActive(rows, Claimed(rows, pick, attempt, now));
      rows := Claimed(rows, pick, attempt, now);
      claim := if pick.Some? then Some(Claim(pick.value, rows[pick.value].embeddingChanged, attempt, rows[pick.value].ticket.attempts)) else None;
    }

    /** finishPlatformConfigJob; `clears` tells whether the relay index tables are emptied in the same transaction. */
    method Finish(claim: Claim, receipt: Receipt, now: Time) returns (settled: bool, clears: bool)
      requires OneActive(rows)
      modifies this
      ensures settled <==> Settles(old(rows), claim, receipt, now)
      ensures rows == if settled then Settled(old(rows), claim, receipt) else old(rows)
      ensures clears <==> settled && receipt.outcome.SaysCompleted? && claim.embeddingChanged
      ensures settled ==> !Active(rows[claim.id]) && (clears ==> rows[claim.id].status == Succeeded)
      ensures OneActive(rows)
    {
      settled, clears := false, false;
      if receipt.operation != claim.id || receipt.embeddingChanged != claim.embeddingChanged || receipt.outcome.SaysOther? {
        return;
      }
      if !Current(rows, claim, now) {
        return;
      }
      NoNewActiveKeepsOneActive(rows, Settled(rows, claim, receipt));
      var row := rows[claim.id];
      clears := !receipt.outcome.SaysRejected? && claim.embeddingChanged;
      rows := rows[claim.id := row.(status := if receipt.outcome.SaysRejected? then Rejected else Succeeded,
                                    ticket := row.ticket.(claimUntil := None, recovery := false))];
      settled := true;
    }

    /** deferPlatformConfigJob: the claim is given back, the attempt is not. */
    method Postpone(claim: Claim, now: Time)
      modifies this
      ensures rows == Postponed(old(rows), claim, now)
      ensures !Current(rows, claim, now)
    {
      if Current(rows, claim, now) {
        var row := rows[claim.id];
        rows := rows[claim.id := row.(ticket := row.ticket.(claimUntil := Some(now), nextAttempt := now + RetryDelay(claim.attempts),
                                                            recovery := claim.attempts >= MAX_ATTEMPTS))];
      }
    }

    /** recoverPlatformConfigJob: repeated recovery is a no-op. */
    method Recover(id: string, now: Time)
      modifies this
      ensures rows == Resumed(old(rows), id, now)
      ensures Resumed(rows, id, now) == rows
    {
      if id in rows && rows[id].status == Running && rows[id].ticket.recovery {
        rows := rows[id := rows[id].(ticket := Dispatch.Recovered(rows[id].ticket, now))];
      }
    }
  }
}
