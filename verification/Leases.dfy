/** The index_operation_leases table: grant predicate, purge, renewal, release. */
module Leases {
  import opened RelayTypes
  import opened Sums

  datatype Mode = Shared | Exclusive

  /** The kinds the relay uses; the grant predicate treats only the first two specially. */
  datatype Kind =
    | UploadBatch
    | DeleteRootJob
    | CreateJob
    | CompleteJob
    | ReconcilePublication
    | FailJob
    | DismissRootFailure
    | OtherKind

  datatype Resource = Everything | JobResource(job: JobId)

  datatype Lease = Lease(tenant: Tenant, resource: Resource, mode: Mode, kind: Kind, expires: Time)

  type Table = map<Token, Lease>

  const LEASE_DURATION: Time := 120_000
  const MAX_UPLOADS_PER_JOB: nat := 4

  predicate Live(row: Lease, now: Time) {
    row.expires > now
  }

  /** The SQL conflict predicate between a stored row and a requested lease. */
  predicate Conflicts(held: Lease, wanted: Lease) {
    && held.tenant == wanted.tenant
    && (|| held.mode == Exclusive
        || wanted.mode == Exclusive
        || (held.resource == wanted.resource && !(held.kind == UploadBatch && wanted.kind == UploadBatch)))
  }

  predicate SameUploadSlot(row: Lease, other: Lease) {
    && row.kind == UploadBatch
    && row.tenant == other.tenant
    && row.resource == other.resource
  }

  function UploadSlots(table: Table, like: Lease): set<Token> {
    set t | t in table && SameUploadSlot(table[t], like)
  }

  function LiveUploadSlots(table: Table, like: Lease, now: Time): set<Token> {
    set t | t in table && Live(table[t], now) && SameUploadSlot(table[t], like)
  }

  function Purge(table: Table, tenant: Tenant, now: Time): Table {
    map t | t in table && (table[t].tenant == tenant ==> Live(table[t], now)) :: table[t]
  }

  /** WHERE clause of the conditional insert; `fenced` stands for its two durable-fence subqueries. */
  predicate Grantable(table: Table, wanted: Lease, now: Time, fenced: bool) {
    && (forall t | t in table && Live(table[t], now) :: !Conflicts(table[t], wanted))
    && (wanted.kind == UploadBatch ==> |LiveUploadSlots(table, wanted, now)| < MAX_UPLOADS_PER_JOB)
    && !fenced
  }

  /** One committed acquisition attempt: the purge happens whether or not the lease is granted. */
  function AfterAttempt(table: Table, token: Token, wanted: Lease, now: Time, fenced: bool): Table {
    var kept := Purge(table, wanted.tenant, now);
    if Grantable(table, wanted, now, fenced) then kept[token := wanted.(expires := now + LEASE_DURATION)] else kept
  }

  /** Renewal matches the token only: it does not ask whether the row is still live. */
  function AfterRenewal(table: Table, tenant: Tenant, token: Token, now: Time): Table {
    if token in table && table[token].tenant == tenant then table[token := table[token].(expires := now + LEASE_DURATION)] else table
  }

  function AfterRelease(table: Table, tenant: Tenant, token: Token): Table {
    map t | t in table && !(t == token && table[t].tenant == tenant) :: table[t]
  }

  /** Every two rows, expired or not, may coexist, and no job has more than four uploads. */
  ghost predicate Compatible(table: Table) {
    && (forall t, u | t in table && u in table && t != u :: !Conflicts(table[t], table[u]))
    && (forall t | t in table :: table[t].kind == UploadBatch ==> |UploadSlots(table, table[t])| <= MAX_UPLOADS_PER_JOB)
  }

  lemma SubTableCompatible(table: Table, part: Table)
    requires Compatible(table)
    requires forall t | t in part :: t in table && part[t] == table[t]
    ensures Compatible(part)
  {
    forall t | t in part && part[t].kind == UploadBatch
      ensures |UploadSlots(part, part[t])| <= MAX_UPLOADS_PER_JOB
    {
      SubsetSize(UploadSlots(part, part[t]), UploadSlots(table, table[t]));
    }
  }

  /** Rows that survive the purge and belong to the requesting tenant are live, hence were checked. */
  lemma GrantConflictsWithNothing(table: Table, wanted: Lease, now: Time, t: Token)
    requires Grantable(table, wanted, now, false) && t in Purge(table, wanted.tenant, now)
    ensures !Conflicts(table[t], wanted) && !Conflicts(wanted, table[t])
  {
  }

  lemma GrantKeepsUploadCap(table: Table, token: Token, wanted: Lease, now: Time, row: Lease)
    requires Compatible(table) && token !in table && Grantable(table, wanted, now, false)
    requires row.kind == UploadBatch
    requires row in AfterAttempt(table, token, wanted, now, false).Values
    ensures |UploadSlots(AfterAttempt(table, token, wanted, now, false), row)| <= MAX_UPLOADS_PER_JOB
  {
    var after := AfterAttempt(table, token, wanted, now, false);
    var slots := UploadSlots(after, row);
    if token in slots {
      assert slots - {token} <= LiveUploadSlots(table, wanted, now);
      SubsetSize(slots - {token}, LiveUploadSlots(table, wanted, now));
    } else {
      var t :| t in after && after[t] == row;
      assert t in slots;
      assert slots <= UploadSlots(table, table[t]);
      SubsetSize(slots, UploadSlots(table, table[t]));
    }
  }

  /** A grant never clashes with a row that survives the purge, so an expired row can be revived safely. */
  lemma AttemptKeepsCompatible(table: Table, token: Token, wanted: Lease, now: Time, fenced: bool)
    requires Compatible(table) && token !in table
    ensures Compatible(AfterAttempt(table, token, wanted, now, fenced))
  {
    SubTableCompatible(table, Purge(table, wanted.tenant, now));
    if Grantable(table, wanted, now, fenced) {
      var after := AfterAttempt(table, token, wanted, now, fenced);
      forall t, u | t in after && u in after && t != u
        ensures !Conflicts(after[t], after[u])
      {
        if t == token {
          GrantConflictsWithNothing(table, wanted, now, u);
        } else if u == token {
          GrantConflictsWithNothing(table, wanted, now, t);
        }
      }
      forall t | t in after && after[t].kind == UploadBatch
        ensures |UploadSlots(after, after[t])| <= MAX_UPLOADS_PER_JOB
      {
        GrantKeepsUploadCap(table, token, wanted, now, after[t]);
      }
    }
  }

  /** What an attempt leaves behind: survivors unchanged, and the new row exactly when it was grantable. */
  lemma AttemptShape(table: Table, token: Token, wanted: Lease, now: Time, fenced: bool)
    requires token !in table
    ensures var after := AfterAttempt(table, token, wanted, now, fenced);
            && (forall u | u in after && u != token :: u in table && after[u] == table[u])
            && (token in after <==> Grantable(table, wanted, now, fenced))
            && (token in after ==> !fenced && after[token] == wanted.(expires := now + LEASE_DURATION))
  {
  }

  lemma RenewalShape(table: Table, tenant: Tenant, token: Token, now: Time)
    ensures AfterRenewal(table, tenant, token, now).Keys == table.Keys
    ensures forall t | t in table :: AfterRenewal(table, tenant, token, now)[t].(expires := 0) == table[t].(expires := 0)
  {
  }

  /** Compatibility does not look at expiry times. */
  lemma ExpiryIrrelevant(table: Table, after: Table)
    requires Compatible(table) && after.Keys == table.Keys
    requires forall t | t in table :: after[t].(expires := 0) == table[t].(expires := 0)
    ensures Compatible(after)
  {
    forall t, u | t in after && u in after && t != u
      ensures !Conflicts(after[t], after[u])
    {
      assert after[t].(expires := 0) == table[t].(expires := 0) && after[u].(expires := 0) == table[u].(expires := 0);
      assert !Conflicts(table[t], table[u]);
    }
    forall t | t in after && after[t].kind == UploadBatch
      ensures |UploadSlots(after, after[t])| <= MAX_UPLOADS_PER_JOB
    {
      assert after[t].(expires := 0) == table[t].(expires := 0);
      assert UploadSlots(after, after[t]) == UploadSlots(table, table[t]) by {
        forall u | u in table ensures SameUploadSlot(after[u], after[t]) <==> SameUploadSlot(table[u], table[t]) {
          assert after[u].(expires := 0) == table[u].(expires := 0);
        }
      }
    }
  }

  lemma RenewalKeepsCompatible(table: Table, tenant: Tenant, token: Token, now: Time)
    requires Compatible(table)
    ensures Compatible(AfterRenewal(table, tenant, token, now))
  {
    RenewalShape(table, tenant, token, now);
    ExpiryIrrelevant(table, AfterRenewal(table, tenant, token, now));
  }

  lemma ReleaseKeepsCompatible(table: Table, tenant: Tenant, token: Token)
    requires Compatible(table)
    ensures Compatible(AfterRelease(table, tenant, token))
    ensures AfterRelease(table, tenant, token) == if token in table && table[token].tenant == tenant then table - {token} else table
  {
    SubTableCompatible(table, AfterRelease(table, tenant, token));
  }

  /** The table as the relay updates it, one SQL statement per method. */
  class LeaseTable {
    var rows: Table

    constructor ()
      ensures rows == map[]
    {
      rows := map[];
    }

    /** tryAcquireIndexOperation, with the two fence subqueries as inputs. */
    method TryAcquire(token: Token, wanted: Lease, now: Time, deletionActive: bool, resetActive: bool)
      returns (acquired: bool)
      requires token !in rows && Compatible(rows)
      modifies this
      ensures Compatible(rows)
      ensures rows == AfterAttempt(old(rows), token, wanted, now,
                                   (deletionActive && wanted.kind != DeleteRootJob) || resetActive)
      ensures acquired <==> token in rows
      ensures acquired <==>
                && !resetActive && (deletionActive ==> wanted.kind == DeleteRootJob)
                && (forall t | t in old(rows) && old(rows)[t].tenant == wanted.tenant && Live(old(rows)[t], now) ::
                      && old(rows)[t].mode == Shared && wanted.mode == Shared
                      && (old(rows)[t].resource == wanted.resource ==> old(rows)[t].kind == UploadBatch && wanted.kind == UploadBatch))
                && (wanted.kind == UploadBatch ==> |LiveUploadSlots(old(rows), wanted, now)| < 4)
      ensures acquired ==> Live(rows[token], now) && forall t | t in rows && t != token :: !Conflicts(rows[t], wanted)
      ensures !acquired ==> forall t | t in rows :: rows[t].tenant == wanted.tenant ==> Live(rows[t], now)
    {
      ghost var fenced := (deletionActive && wanted.kind != DeleteRootJob) || resetActive;
      AttemptKeepsCompatible(rows, token, wanted, now, fenced);
      var blocked := exists t | t in rows :: Live(rows[t], now) && Conflicts(rows[t], wanted);
      var full := wanted.kind == UploadBatch && |LiveUploadSlots(rows, wanted, now)| >= MAX_UPLOADS_PER_JOB;
      rows := Purge(rows, wanted.tenant, now);
      acquired := !blocked && !full && !(deletionActive && wanted.kind != DeleteRootJob) && !resetActive;
      if acquired {
        rows := rows[token := wanted.(expires := now + LEASE_DURATION)];
      }
    }

    method Renew(tenant: Tenant, token: Token, now: Time) returns (updated: bool)
      requires Compatible(rows)
      modifies this
      ensures rows == AfterRenewal(old(rows), tenant, token, now) && Compatible(rows)
      ensures updated <==> token in old(rows) && old(rows)[token].tenant == tenant
    {
      RenewalKeepsCompatible(rows, tenant, token, now);
      updated := token in rows && rows[token].tenant == tenant;
      if updated {
        rows := rows[token := rows[token].(expires := now + LEASE_DURATION)];
      }
    }

    method Release(tenant: Tenant, token: Token)
      requires Compatible(rows)
      modifies this
      ensures rows == AfterRelease(old(rows), tenant, token) && Compatible(rows)
    {
      ReleaseKeepsCompatible(rows, tenant, token);
      rows := map t | t in rows && !(t == token && rows[t].tenant == tenant) :: rows[t];
    }
  }
}
