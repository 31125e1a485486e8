/** Attempt budgets of durable jobs, and the once-only effects that commit with their success. */
module Durable {
  import opened RelayTypes
  import opened Dispatch
  import D = RootDeletion
  import C = PlatformConfig

  ghost predicate NoDuplicates<T>(s: seq<T>) {
    forall i, j | 0 <= i < j < |s| :: s[i] != s[j]
  }

  /** The attempt count is within the budget and counts the attempts dispatched since the last recovery
      that were not refunded; a flagged ticket has given up its claim. */
  ghost predicate WithinBudget(t: Ticket, running: bool, now: Time) {
    && 0 <= t.attempts <= MAX_ATTEMPTS
    && t.attempts == t.dispatched - t.refunded
    && (running ==> t.claimUntil.Some?)
    && (!running ==> t.attempts == 0 && !t.recovery)
    && (t.recovery ==> t.claimUntil.Some? && t.claimUntil.value <= now)
  }

  ghost predicate DeletionsWithinBudget(deletions: D.Table, now: Time) {
    forall id | id in deletions && D.Active(deletions[id]) :: WithinBudget(deletions[id].ticket, deletions[id].status == D.Running, now)
  }

  /** While a worker holds its claim, the row still has the attempt count the worker was given. */
  ghost predicate HeldCounts(claims: set<D.Claim>, deletions: D.Table, now: Time) {
    forall c | c in claims && D.Current(deletions, c, now) :: 1 <= c.attempts && deletions[c.id].ticket.attempts == c.attempts
  }

  /** A deletion row is succeeded exactly if its cleanup was committed, and no cleanup was committed twice. */
  ghost predicate CleanedOnce(cleaned: seq<string>, deletions: D.Table) {
    && NoDuplicates(cleaned)
    && forall id | id in deletions :: deletions[id].status == D.Succeeded <==> id in cleaned
  }

  ghost predicate ConfigsWithinBudget(configs: C.Table, now: Time) {
    forall id | id in configs && C.Active(configs[id]) :: WithinBudget(configs[id].ticket, configs[id].status == C.Running, now)
  }

  ghost predicate ClaimsMatch(claims: set<C.Claim>, configs: C.Table) {
    forall c | c in claims :: c.id in configs && configs[c.id].embeddingChanged == c.embeddingChanged
  }

  /** The relay was emptied once for every succeeded embedding change, and for nothing else. */
  ghost predicate ResetOnce(resets: seq<string>, configs: C.Table) {
    && NoDuplicates(resets)
    && forall id :: id in resets <==> id in configs && configs[id].status == C.Succeeded && configs[id].embeddingChanged
  }

  /** The tables of durable jobs, the claims handed out, and the once-only effects so far. */
  datatype Book = Book(now: Time, deletions: D.Table, claims: set<D.Claim>, cleaned: seq<string>,
                       configs: C.Table, configClaims: set<C.Claim>, resets: seq<string>)

  datatype Duty = DeletionBudget | DeletionClaims | Cleanup | ConfigBudget | ConfigClaims | Reset | OneConfig

  ghost predicate Kept(c: Duty, b: Book) {
    match c
    case DeletionBudget => DeletionsWithinBudget(b.deletions, b.now)
    case DeletionClaims => HeldCounts(b.claims, b.deletions, b.now)
    case Cleanup => CleanedOnce(b.cleaned, b.deletions)
    case ConfigBudget => ConfigsWithinBudget(b.configs, b.now)
    case ConfigClaims => ClaimsMatch(b.configClaims, b.configs)
    case Reset => ResetOnce(b.resets, b.configs)
    case OneConfig => C.OneActive(b.configs)
  }

  ghost predicate Dutiful(b: Book) {
    forall c: Duty :: Kept(c, b)
  }

  lemma Keeps(c: Duty, b: Book)
    requires Dutiful(b)
    ensures Kept(c, b)
  {
  }

  lemma Appended<T>(s: seq<T>, x: T)
    requires NoDuplicates(s) && x !in s
    ensures NoDuplicates(s + [x])
  {
  }

  // ---- tickets ---------------------------------------------------------------------------------------

  lemma DeferredWithinBudget(t: Ticket, refund: bool, now: Time)
    requires WithinBudget(t, true, now) && t.attempts >= 1
    ensures WithinBudget(Deferred(t, if refund then t.attempts - 1 else t.attempts, refund, now), true, now)
  {
  }

  /** A running ticket that nobody holds any more is flagged, due for flagging, or becomes dispatchable again. */
  lemma NeverLost(t: Ticket, running: bool, now: Time, later: Time)
    requires WithinBudget(t, running, now) && now <= later
    requires t.nextAttempt <= later && (t.claimUntil.Some? ==> t.claimUntil.value < later)
    ensures t.recovery || (running && Exhausted(t, later)) || Dispatchable(t, running, later)
  {
  }

  // ---- deletions ---------------------------------------------------------------------------------------

  lemma SubmittedKeeps(b: Book, root: Root, newId: string, retry: Option<string>, busy: bool, limited: bool)
    requires Dutiful(b) && newId !in b.deletions && newId !in b.cleaned && forall c | c in b.claims :: c.id != newId
    ensures Dutiful(b.(deletions := D.Submitted(b.deletions, root, newId, retry, busy, limited, b.now)))
  {
    var b' := b.(deletions := D.Submitted(b.deletions, root, newId, retry, busy, limited, b.now));
    forall c: Duty ensures Kept(c, b') {
      Keeps(c, b);
      Keeps(DeletionBudget, b);
    }
  }

  lemma ClaimedKeepsBudget(deletions: D.Table, flagged: set<string>, pick: Option<string>, attempt: string, now: Time)
    requires DeletionsWithinBudget(deletions, now)
    requires forall id | id in flagged :: id in deletions && D.Spent(deletions[id], now)
    requires pick.Some? ==> pick.value in deletions && D.Claimable(deletions[pick.value], now)
    ensures DeletionsWithinBudget(D.Claimed(deletions, flagged, pick, attempt, now), now)
  {
  }

  lemma ClaimedKeepsHeld(claims: set<D.Claim>, deletions: D.Table, flagged: set<string>, pick: Option<string>, attempt: string, now: Time)
    requires HeldCounts(claims, deletions, now) && DeletionsWithinBudget(deletions, now)
    requires pick.Some? ==> pick.value in deletions && D.Claimable(deletions[pick.value], now)
    requires forall c | c in claims :: c.attempt != attempt
    ensures HeldCounts(claims, D.Claimed(deletions, flagged, pick, attempt, now), now)
    ensures pick.Some? ==> D.Claimed(deletions, flagged, pick, attempt, now)[pick.value].ticket.attempts >= 1
  {
  }

  lemma ClaimDeletionKeeps(b: Book, flagged: set<string>, pick: Option<string>, attempt: string)
    requires Dutiful(b)
    requires forall id | id in flagged :: id in b.deletions && D.Spent(b.deletions[id], b.now)
    requires pick.Some? ==> pick.value in b.deletions && D.Claimable(b.deletions[pick.value], b.now)
    requires forall c | c in b.claims :: c.attempt != attempt
    ensures var table := D.Claimed(b.deletions, flagged, pick, attempt, b.now);
            Dutiful(b.(deletions := table, claims := D.WithClaim(b.claims, table, pick, attempt)))
  {
    Keeps(DeletionBudget, b);
    Keeps(DeletionClaims, b);
    ClaimedKeepsBudget(b.deletions, flagged, pick, attempt, b.now);
    ClaimedKeepsHeld(b.claims, b.deletions, flagged, pick, attempt, b.now);
    var table := D.Claimed(b.deletions, flagged, pick, attempt, b.now);
    var b' := b.(deletions := table, claims := D.WithClaim(b.claims, table, pick, attempt));
    forall c: Duty ensures Kept(c, b') { Keeps(c, b); }
  }

  lemma RecordErrorKeeps(b: Book, claim: D.Claim, deferOnly: bool)
    requires Dutiful(b) && claim in b.claims
    ensures Dutiful(b.(deletions := D.Recorded(b.deletions, claim, deferOnly, b.now)))
  {
    Keeps(DeletionBudget, b);
    Keeps(DeletionClaims, b);
    var b' := b.(deletions := D.Recorded(b.deletions, claim, deferOnly, b.now));
    if D.Current(b.deletions, claim, b.now) {
      DeferredWithinBudget(b.deletions[claim.id].ticket, deferOnly, b.now);
    }
    forall c: Duty ensures Kept(c, b') { Keeps(c, b); }
  }

  lemma FinishedKeeps(b: Book, claim: D.Claim, count: int)
    requires Dutiful(b) && D.Current(b.deletions, claim, b.now)
    ensures Dutiful(b.(deletions := D.Finished(b.deletions, claim, count, b.now), cleaned := b.cleaned + [claim.id]))
  {
    Keeps(Cleanup, b);
    Appended(b.cleaned, claim.id);
    var b' := b.(deletions := D.Finished(b.deletions, claim, count, b.now), cleaned := b.cleaned + [claim.id]);
    forall c: Duty ensures Kept(c, b') { Keeps(c, b); }
  }

  lemma PrunedKeeps(b: Book, ids: set<string>)
    requires Dutiful(b)
    ensures Dutiful(b.(deletions := D.Pruned(b.deletions, ids, b.now)))
  {
    var b' := b.(deletions := D.Pruned(b.deletions, ids, b.now));
    forall c: Duty ensures Kept(c, b') { Keeps(c, b); }
  }

  // ---- configuration jobs ----------------------------------------------------------------------------------

  lemma EnqueuedKeeps(b: Book, id: string, section: string, embeddingChanged: bool, indexBusy: bool)
    requires Dutiful(b)
    ensures Dutiful(b.(configs := C.Enqueued(b.configs, id, section, embeddingChanged, indexBusy, b.now)))
  {
    Keeps(OneConfig, b);
    C.EnqueuedKeepsOneActive(b.configs, id, section, embeddingChanged, indexBusy, b.now);
    var b' := b.(configs := C.Enqueued(b.configs, id, section, embeddingChanged, indexBusy, b.now));
    forall c: Duty ensures Kept(c, b') { Keeps(c, b); }
  }

  lemma ConfigTableKeeps(b: Book, configs: C.Table, claims: set<C.Claim>, resets: seq<string>)
    requires Dutiful(b) && C.NoNewActive(b.configs, configs)
    requires ConfigsWithinBudget(configs, b.now) && ClaimsMatch(claims, configs) && ResetOnce(resets, configs)
    ensures Dutiful(b.(configs := configs, configClaims := claims, resets := resets))
  {
    Keeps(OneConfig, b);
    C.NoNewActiveKeepsOneActive(b.configs, configs);
    var b' := b.(configs := configs, configClaims := claims, resets := resets);
    forall c: Duty ensures Kept(c, b') { Keeps(c, b); }
  }

  /** Rows neither appear nor disappear, keep their kind of change, and none becomes or stops being succeeded. */
  lemma SameEndings(configs: C.Table, after: C.Table, claims: set<C.Claim>, resets: seq<string>)
    requires ClaimsMatch(claims, configs) && ResetOnce(resets, configs) && after.Keys == configs.Keys
    requires forall id | id in configs :: after[id].embeddingChanged == configs[id].embeddingChanged
    requires forall id | id in configs :: after[id].status == C.Succeeded <==> configs[id].status == C.Succeeded
    ensures ClaimsMatch(claims, after) && ResetOnce(resets, after)
  {
  }

  lemma ClaimedConfigBudget(configs: C.Table, pick: Option<string>, attempt: string, now: Time)
    requires ConfigsWithinBudget(configs, now) && (pick.Some? ==> pick.value in configs && C.Claimable(configs[pick.value], now))
    ensures ConfigsWithinBudget(C.Claimed(configs, pick, attempt, now), now)
  {
  }

  lemma ClaimConfigKeeps(b: Book, pick: Option<string>, attempt: string)
    requires Dutiful(b) && (pick.Some? ==> pick.value in b.configs && C.Claimable(b.configs[pick.value], b.now))
    ensures var table := C.Claimed(b.configs, pick, attempt, b.now);
            Dutiful(b.(configs := table, configClaims := C.WithClaim(b.configClaims, table, pick, attempt), resets := b.resets))
  {
    var configs := C.Claimed(b.configs, pick, attempt, b.now);
    Keeps(ConfigBudget, b);
    ClaimedConfigBudget(b.configs, pick, attempt, b.now);
    Keeps(ConfigClaims, b);
    Keeps(Reset, b);
    SameEndings(b.configs, configs, b.configClaims, b.resets);
    C.ClaimedNoNewActive(b.configs, pick, attempt, b.now);
    ConfigTableKeeps(b, configs, C.WithClaim(b.configClaims, configs, pick, attempt), b.resets);
  }

  /** A settled job is succeeded or rejected; the relay is emptied only for a completed embedding change. */
  lemma SettledResets(configs: C.Table, claims: set<C.Claim>, resets: seq<string>, claim: C.Claim, receipt: C.Receipt, now: Time)
    requires ClaimsMatch(claims, configs) && ResetOnce(resets, configs) && claim in claims && C.Settles(configs, claim, receipt, now)
    ensures ClaimsMatch(claims, C.Settled(configs, claim, receipt))
    ensures ResetOnce(if C.ClearsRelay(claim, receipt) then resets + [claim.id] else resets, C.Settled(configs, claim, receipt))
  {
  }

  lemma SettledBudget(configs: C.Table, claim: C.Claim, receipt: C.Receipt, now: Time)
    requires ConfigsWithinBudget(configs, now) && C.Settles(configs, claim, receipt, now)
    ensures ConfigsWithinBudget(C.Settled(configs, claim, receipt), now) && C.NoNewActive(configs, C.Settled(configs, claim, receipt))
  {
  }

  lemma SettledKeeps(b: Book, claim: C.Claim, receipt: C.Receipt)
    requires Dutiful(b) && claim in b.configClaims && C.Settles(b.configs, claim, receipt, b.now)
    ensures Dutiful(b.(configs := C.Settled(b.configs, claim, receipt), configClaims := b.configClaims,
                       resets := if C.ClearsRelay(claim, receipt) then b.resets + [claim.id] else b.resets))
  {
    Keeps(ConfigBudget, b);
    Keeps(ConfigClaims, b);
    Keeps(Reset, b);
    SettledBudget(b.configs, claim, receipt, b.now);
    SettledResets(b.configs, b.configClaims, b.resets, claim, receipt, b.now);
    ConfigTableKeeps(b, C.Settled(b.configs, claim, receipt), b.configClaims,
                     if C.ClearsRelay(claim, receipt) then b.resets + [claim.id] else b.resets);
  }

  lemma PostponedBudget(configs: C.Table, claim: C.Claim, now: Time)
    requires ConfigsWithinBudget(configs, now)
    ensures ConfigsWithinBudget(C.Postponed(configs, claim, now), now) && C.NoNewActive(configs, C.Postponed(configs, claim, now))
  {
  }

  lemma PostponedKeeps(b: Book, claim: C.Claim)
    requires Dutiful(b)
    ensures Dutiful(b.(configs := C.Postponed(b.configs, claim, b.now)))
  {
    var configs := C.Postponed(b.configs, claim, b.now);
    Keeps(ConfigBudget, b);
    PostponedBudget(b.configs, claim, b.now);
    Keeps(ConfigClaims, b);
    Keeps(Reset, b);
    SameEndings(b.configs, configs, b.configClaims, b.resets);
    ConfigTableKeeps(b, configs, b.configClaims, b.resets);
  }

  lemma RecoveredBudget(configs: C.Table, id: string, now: Time)
    requires ConfigsWithinBudget(configs, now)
    ensures ConfigsWithinBudget(C.Resumed(configs, id, now), now) && C.NoNewActive(configs, C.Resumed(configs, id, now))
  {
  }

  lemma RecoveredKeeps(b: Book, id: string)
    requires Dutiful(b)
    ensures Dutiful(b.(configs := C.Resumed(b.configs, id, b.now)))
  {
    var configs := C.Resumed(b.configs, id, b.now);
    Keeps(ConfigBudget, b);
    RecoveredBudget(b.configs, id, b.now);
    Keeps(ConfigClaims, b);
    Keeps(Reset, b);
    SameEndings(b.configs, configs, b.configClaims, b.resets);
    ConfigTableKeeps(b, configs, b.configClaims, b.resets);
  }

  lemma TickKeeps(b: Book, elapsed: nat)
    requires Dutiful(b)
    ensures Dutiful(b.(now := b.now + elapsed))
  {
    var b' := b.(now := b.now + elapsed);
    forall c: Duty ensures Kept(c, b') { Keeps(c, b); }
  }

}
