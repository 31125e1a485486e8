/** Claim, attempt budget and recovery: the columns and statements that durable deletion jobs
    and platform configuration jobs have in common. */
module Dispatch {
  import opened RelayTypes

  /** `dispatched` and `refunded` count since the last recovery; they are history, not columns. */
  datatype Ticket = Ticket(
    attempt: Option<string>,
    claimUntil: Option<Time>,
    attempts: int,
    recovery: bool,
    nextAttempt: Time,
    dispatched: nat,
    refunded: nat)

  const MAX_ATTEMPTS: int := 5
  const CLAIM_DURATION: Time := 900_000
  const MAX_DELAY: Time := 600_000

  function Fresh(now: Time): Ticket {
    Ticket(None, None, 0, false, now, 0, 0)
  }

  function Min(a: int, b: int): int { if a < b then a else b }
  function Max(a: int, b: int): int { if a < b then b else a }

  function Pow2(n: nat): nat {
    if n == 0 then 1 else 2 * Pow2(n - 1)
  }

  function RetryDelay(attempts: int): Time {
    Min(MAX_DELAY, 5_000 * Pow2(Min(Max(attempts - 1, 0), 7)))
  }

  predicate Elapsed(t: Ticket, now: Time) {
    t.claimUntil.Some? && t.claimUntil.value < now
  }

  predicate Held(t: Ticket, attempt: string, now: Time) {
    t.attempt == Some(attempt) && t.claimUntil.Some? && t.claimUntil.value > now
  }

  predicate Dispatchable(t: Ticket, running: bool, now: Time) {
    && (running ==> Elapsed(t, now))
    && t.nextAttempt <= now
    && !t.recovery
    && t.attempts < MAX_ATTEMPTS
  }

  predicate Exhausted(t: Ticket, now: Time) {
    Elapsed(t, now) && t.attempts >= MAX_ATTEMPTS && !t.recovery
  }

  function Flagged(t: Ticket): Ticket {
    t.(recovery := true)
  }

  function Taken(t: Ticket, attempt: string, now: Time): Ticket {
    t.(attempt := Some(attempt), claimUntil := Some(now + CLAIM_DURATION), attempts := t.attempts + 1,
       dispatched := t.dispatched + 1)
  }

  /** The attempt that holds the claim gives up; `attempts` is the count it carries, refunded or not. */
  function Deferred(t: Ticket, attempts: int, refund: bool, now: Time): Ticket {
    t.(attempts := attempts, recovery := attempts >= MAX_ATTEMPTS, claimUntil := Some(now),
       nextAttempt := now + RetryDelay(attempts),
       refunded := t.refunded + (if refund then 1 else 0))
  }

  function Recovered(t: Ticket, now: Time): Ticket {
    t.(recovery := false, attempts := 0, nextAttempt := now, dispatched := 0, refunded := 0)
  }

  lemma RetryDelayDoublesUpToCap(attempts: int)
    ensures 5_000 <= RetryDelay(attempts) <= MAX_DELAY
    ensures attempts <= 1 ==> RetryDelay(attempts) == 5_000
    ensures 1 <= attempts <= 6 ==> RetryDelay(attempts + 1) == 2 * RetryDelay(attempts)
    ensures attempts >= 8 ==> RetryDelay(attempts) == MAX_DELAY
  {
  }
}
