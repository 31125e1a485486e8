/** Rows of root_deletion_jobs and the statements that change them. */
module RootDeletion {
  import opened RelayTypes
  import opened Dispatch

  datatype Status = Queued | Running | Succeeded

  datatype Deletion = Deletion(root: Root, status: Status, ticket: Ticket, deletedFiles: int, updated: Time)

  /** The copy of a row that a worker received when it claimed it. */
  datatype Claim = Claim(id: string, root: Root, attempt: string, attempts: int)

  type Table = map<string, Deletion>

  const MAX_FLAGGED: nat := 100
  const HISTORY: Time := 604_800_000  // seven days

  predicate Active(d: Deletion) {
    d.status == Queued || d.status == Running
  }

  predicate ActiveIn(table: Table, tenant: Tenant, id: string) {
    id in table && table[id].root.tenant == tenant && Active(table[id])
  }

  predicate Fencing(table: Table, tenant: Tenant) {
    exists id | id in table :: ActiveIn(table, tenant, id)
  }

  predicate AnyActive(table: Table) {
    exists id | id in table :: Active(table[id])
  }

  /** The partial unique index: one active deletion per tenant. */
  ghost predicate OneActive(table: Table) {
    forall a, b | a in table && b in table && Active(table[a]) && Active(table[b]) && table[a].root.tenant == table[b].root.tenant ::
      a == b
  }

  /** What a submission does to the table; `busy` is its admission query, `limited` the rate limiter. */
  function Submitted(table: Table, root: Root, newId: string, retry: Option<string>, busy: bool, limited: bool, now: Time): Table {
    if Fencing(table, root.tenant) then
      map id | id in table ::
        if ActiveIn(table, root.tenant, id) && table[id].root == root && retry == Some(id) && table[id].ticket.recovery
        then table[id].(ticket := Dispatch.Recovered(table[id].ticket, now), updated := now)
        else table[id]
    else if retry.Some? || busy || limited then table
    else table[newId := Deletion(root, Queued, Fresh(now), 0, now)]
  }

  predicate Claimable(d: Deletion, now: Time) {
    Active(d) && Dispatchable(d.ticket, d.status == Running, now)
  }

  predicate Spent(d: Deletion, now: Time) {
    d.status == Running && Exhausted(d.ticket, now)
  }

  /** One claim statement: rows it flags for recovery, and the row it hands to a worker. */
  function Claimed(table: Table, flagged: set<string>, pick: Option<string>, attempt: string, now: Time): Table {
    map id | id in table ::
      if pick == Some(id) then table[id].(status := Running, ticket := Taken(table[id].ticket, attempt, now), updated := now)
      else if id in flagged then table[id].(ticket := Flagged(table[id].ticket), updated := now)
      else table[id]
  }

  /** The copies handed out so far, with the one that a claim statement returns. */
  function WithClaim(claims: set<Claim>, table: Table, pick: Option<string>, attempt: string): set<Claim> {
    if pick.Some? && pick.value in table
    then claims + {Claim(pick.value, table[pick.value].root, attempt, table[pick.value].ticket.attempts)}
    else claims
  }

  predicate Current(table: Table, claim: Claim, now: Time) {
    && claim.id in table
    && table[claim.id].root.tenant == claim.root.tenant
    && table[claim.id].status == Running
    && Held(table[claim.id].ticket, claim.attempt, now)
  }

  function AttemptsAfter(claim: Claim, deferOnly: bool): int {
    if deferOnly then Max(0, claim.attempts - 1) else claim.attempts
  }

  function Recorded(table: Table, claim: Claim, deferOnly: bool, now: Time): Table {
    if Current(table, claim, now)
    then table[claim.id := table[claim.id].(ticket := Deferred(table[claim.id].ticket, AttemptsAfter(claim, deferOnly), deferOnly, now), updated := now)]
    else table
  }

  function Finished(table: Table, claim: Claim, count: int, now: Time): Table
    requires Current(table, claim, now)
  {
    var row := table[claim.id];
    table[claim.id := row.(status := Succeeded, deletedFiles := count, updated := now,
                           ticket := row.ticket.(claimUntil := None))]
  }

  function Pruned(table: Table, ids: set<string>, now: Time): Table {
    map id | id in table && !(id in ids && table[id].status == Succeeded && table[id].updated < now - HISTORY) :: table[id]
  }

  /** Every active row was active before, for the same root. */
  ghost predicate NoNewActive(table: Table, after: Table) {
    forall id | id in after && Active(after[id]) :: id in table && Active(table[id]) && after[id].root == table[id].root
  }

  lemma NoNewActiveKeepsOneActive(table: Table, after: Table)
    requires NoNewActive(table, after) && OneActive(table)
    ensures OneActive(after)
  {
  }

  /** Only an admitted submission adds an active row, and only to a tenant that has none. */
  lemma SubmittedKeepsOneActive(table: Table, root: Root, newId: string, retry: Option<string>, busy: bool, limited: bool, now: Time)
    requires OneActive(table) && newId !in table
    ensures OneActive(Submitted(table, root, newId, retry, busy, limited, now))
  {
  }

  lemma SubmittedFence(table: Table, root: Root, newId: string, retry: Option<string>, busy: bool, limited: bool, now: Time, tenant: Tenant, id: string)
    requires newId !in table && ActiveIn(Submitted(table, root, newId, retry, busy, limited, now), tenant, id)
    ensures ActiveIn(table, tenant, id) || (tenant == root.tenant && !busy)
  {
  }

  lemma NoNewActiveKeepsIdle(table: Table, after: Table)
    requires NoNewActive(table, after)
    ensures AnyActive(after) ==> AnyActive(table)
  {
  }

  lemma SubmittedIdle(table: Table, root: Root, newId: string, retry: Option<string>, busy: bool, limited: bool, now: Time)
    requires newId !in table
    ensures AnyActive(Submitted(table, root, newId, retry, busy, limited, now)) ==> AnyActive(table) || !busy
  {
  }

  lemma ClaimedNoNewActive(table: Table, flagged: set<string>, pick: Option<string>, attempt: string, now: Time)
    requires pick.Some? ==> pick.value in table && Claimable(table[pick.value], now)
    ensures NoNewActive(table, Claimed(table, flagged, pick, attempt, now))
  {
  }

  // ---- the table, updated one statement per method ------------------------------------------------------

  datatype Submission = Accepted(id: string) | Busy | RateLimited | Unknown

  class DeletionTable {
    var rows: Table

    constructor ()
      ensures rows == map[] && OneActive(rows)
    {
      rows := map[];
    }

    /** submitRootDeletion: resumes the tenant's active job, replays an old one, or admits a new one. */
    method Submit(root: Root, newId: string, retry: Option<string>, busy: bool, limited: bool, now: Time) returns (r: Submission)
      requires OneActive(rows) && newId !in rows
      modifies this
      ensures rows == Submitted(old(rows), root, newId, retry, busy, limited, now) && OneActive(rows)
      ensures r.Accepted? ==> r.id in rows && rows[r.id].root == root
      ensures r.Accepted? && retry.Some? ==> r.id == retry.value && r.id in old(rows)
      ensures Fencing(old(rows), root.tenant) ==> (r.Accepted? <==> exists id | id in old(rows) ::
                ActiveIn(old(rows), root.tenant, id) && old(rows)[id].root == root && (retry.Some? ==> retry.value == id))
      ensures newId in rows <==> !Fencing(old(rows), root.tenant) && retry.None? && !busy && !limited
    {
      SubmittedKeepsOneActive(rows, root, newId, retry, busy, limited, now);
      if id :| id in rows && ActiveIn(rows, root.tenant, id) {
        forall k | k in rows && ActiveIn(rows, root.tenant, k) ensures k == id {}
        if rows[id].root != root || (retry.Some? && retry.value != id) {
          return Busy;
        }
        if retry.Some? && rows[id].ticket.recovery {
          rows := rows[id := rows[id].(ticket := Dispatch.Recovered(rows[id].ticket, now), updated := now)];
        }
        return Accepted(id);
      }
      if retry.Some? {
        return if retry.value in rows && rows[retry.value].root == root then Accepted(retry.value) else Unknown;
      }
      if busy {
        return Busy;
      }
      if limited {
        return RateLimited;
      }
      rows := rows[newId := Deletion(root, Queued, Fresh(now), 0, now)];
      return Accepted(newId);
    }

    /** claimRootDeletion: flags up to 100 spent rows and hands out one claimable row if there is one, skipping the rows
        that other statements have `locked`. */
    method ClaimNext(locked: set<string>, attempt: string, now: Time) returns (claim: Option<Claim>, flagged: set<string>)
      modifies this
      ensures rows == Claimed(old(rows), flagged, if claim.Some? then Some(claim.value.id) else None, attempt, now)
      ensures |flagged| <= MAX_FLAGGED && forall id | id in flagged :: id in old(rows) && id !in locked && Spent(old(rows)[id], now)
      ensures |flagged| < MAX_FLAGGED ==> forall id | id in rows && id !in locked :: !Spent(rows[id], now)
      ensures claim.None? <==> forall id | id in old(rows) && id !in locked :: !Claimable(old(rows)[id], now)
      ensures claim.Some? ==> claim.value.id in old(rows) && claim.value.id !in locked && Claimable(old(rows)[claim.value.id], now)
      ensures claim.Some? ==> Current(rows, claim.value, now) && claim.value.attempts == rows[claim.value.id].ticket.attempts
    {
      flagged := {};
      var rest := rows.Keys - locked;
      while rest != {} && |flagged| < MAX_FLAGGED
        invariant rest <= rows.Keys - locked && |flagged| <= MAX_FLAGGED
        invariant flagged == set id | id in rows && id !in locked && id !in rest && Spent(rows[id], now)
      {
        var id :| id in rest;
        rest := rest - {id};
        if Spent(rows[id], now) {
          flagged := flagged + {id};
        }
      }
      if id :| id in rows && id !in locked && Claimable(rows[id], now) {
        rows := Claimed(rows, flagged, Some(id), attempt, now);
        claim := Some(Claim(id, rows[id].root, attempt, rows[id].ticket.attempts));
      } else {
        rows := Claimed(rows, flagged, None, attempt, now);
        claim := None;
      }
    }

    /** recordRootDeletionError: gives the claim back, with or without the attempt. */
    method RecordError(claim: Claim, deferOnly: bool, now: Time)
      modifies this
      ensures rows == Recorded(old(rows), claim, deferOnly, now)
      ensures !Current(rows, claim, now)
    {
      if Current(rows, claim, now) {
        var attempts := claim.attempts;
        if deferOnly {
          attempts := Max(0, attempts - 1);
        }
        var row := rows[claim.id];
        rows := rows[claim.id := row.(ticket := Deferred(row.ticket, attempts, deferOnly, now), updated := now)];
      }
    }

    /** The success marker of finishRootDeletion; false means that the attempt is stale and nothing changed. */
    method Finish(claim: Claim, count: int, now: Time) returns (ok: bool)
      modifies this
      ensures ok <==> Current(old(rows), claim, now)
      ensures rows == if ok then Finished(old(rows), claim, count, now) else old(rows)
      ensures ok ==> rows[claim.id].status == Succeeded && forall c: Claim :: c.id == claim.id ==> !Current(rows, c, now)
    {
      ok := Current(rows, claim, now);
      if ok {
        var row := rows[claim.id];
        rows := rows[claim.id := row.(status := Succeeded, deletedFiles := count, updated := now, ticket := row.ticket.(claimUntil := None))];
      }
    }
  }
}
