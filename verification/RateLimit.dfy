/** The bounded per-key limiters of index starts and root deletions. */
module RateLimit {
  import opened RelayTypes

  type Key = string

  const SECOND: Time := 1_000_000_000  // the limiters measure in nanoseconds
  const START_INTERVAL: Time := 30 * SECOND
  const DELETE_INTERVAL: Time := 60 * SECOND
  const MAX_ENTRIES: nat := 4096

  /** Whole seconds to wait before a call at `now` would be admitted, given the last admitted call. */
  function Wait(last: Option<Time>, now: Time, interval: Time): int {
    if last.Some? && interval - (now - last.value) > 0 then (interval - (now - last.value) + SECOND - 1) / SECOND else 0
  }

  /** The answer is the least whole number of seconds that suffices. */
  lemma WaitIsLeast(last: Time, now: Time, interval: Time)
    ensures var w := Wait(Some(last), now, interval);
            && 0 <= w && now + w * SECOND - last >= interval
            && forall v: nat | now + v * SECOND - last >= interval :: w <= v
    ensures Wait(Some(last), now, interval) == 0 <==> now - last >= interval
  {
  }

  lemma Ceiling(gap: int)
    requires gap > 0
    ensures var w := (gap + SECOND - 1) / SECOND;
            w >= 1 && (w - 1) * SECOND < gap <= w * SECOND
  {
  }

  // ---- the limiter that never forgets -----------------------------------------------------------------

  datatype Call = Call(key: Key, now: Time)

  /** The last admitted call of `key` in `calls`, each answered as the limiter with unbounded memory answers it. */
  function LastAdmitted(calls: seq<Call>, key: Key, interval: Time): Option<Time>
    decreases |calls|, 0
  {
    if calls == [] then None
    else var earlier, call := calls[..|calls| - 1], calls[|calls| - 1];
         if call.key == key && Answer(earlier, call, interval) == 0 then Some(call.now) else LastAdmitted(earlier, key, interval)
  }

  function Answer(calls: seq<Call>, call: Call, interval: Time): int
    decreases |calls|, 1
  {
    Wait(LastAdmitted(calls, call.key, interval), call.now, interval)
  }

  ghost predicate Chronological(calls: seq<Call>) {
    forall i, j | 0 <= i < j < |calls| :: calls[i].now <= calls[j].now
  }

  ghost predicate IsAdmitted(calls: seq<Call>, i: int, interval: Time) {
    0 <= i < |calls| && Answer(calls[..i], calls[i], interval) == 0
  }

  /** The last admitted call is one of the calls, and no later call of that key was admitted. */
  lemma {:induction false} LastAdmittedIsLast(calls: seq<Call>, key: Key, interval: Time, i: nat)
    requires Chronological(calls) && i < |calls| && calls[i].key == key && IsAdmitted(calls, i, interval)
    ensures LastAdmitted(calls, key, interval).Some? && LastAdmitted(calls, key, interval).value >= calls[i].now
  {
    var n := |calls| - 1;
    if i < n {
      assert calls[..n][..i] == calls[..i];
      LastAdmittedIsLast(calls[..n], key, interval, i);
    }
  }

  /** Admitted calls of one key are at least one interval apart. */
  lemma AdmittedAreSpaced(calls: seq<Call>, interval: Time, i: nat, j: nat)
    requires Chronological(calls) && i < j < |calls| && calls[i].key == calls[j].key
    requires IsAdmitted(calls, i, interval) && IsAdmitted(calls, j, interval)
    ensures calls[j].now - calls[i].now >= interval
  {
    assert calls[..j][..i] == calls[..i];
    LastAdmittedIsLast(calls[..j], calls[i].key, interval, i);
  }

  // ---- the limiter with the pruned map ----------------------------------------------------------------------

  /** The map holds the last admitted call of each key, except where that call no longer matters. */
  ghost predicate Remembers(seen: map<Key, Time>, calls: seq<Call>, interval: Time, now: Time) {
    forall key: Key ::
      var last := LastAdmitted(calls, key, interval);
      if key in seen then last == Some(seen[key]) else last.None? || now - last.value >= interval
  }

  /** What the map says decides like what really happened. */
  lemma MapAnswers(seen: map<Key, Time>, calls: seq<Call>, interval: Time, before: Time, call: Call)
    requires Remembers(seen, calls, interval, before) && before <= call.now
    ensures Answer(calls, call, interval) == Wait(if call.key in seen then Some(seen[call.key]) else None, call.now, interval)
  {
  }

  lemma CallRemembered(seen: map<Key, Time>, calls: seq<Call>, interval: Time, before: Time, call: Call)
    requires Remembers(seen, calls, interval, before) && before <= call.now
    ensures var after := if Answer(calls, call, interval) == 0 then seen[call.key := call.now] else seen;
            Remembers(after, calls + [call], interval, call.now)
  {
  }

  function Pruned(seen: map<Key, Time>, now: Time, interval: Time): map<Key, Time> {
    map k | k in seen && now - seen[k] < interval :: seen[k]
  }

  lemma PrunedRemembers(seen: map<Key, Time>, calls: seq<Call>, interval: Time, before: Time, now: Time)
    requires Remembers(seen, calls, interval, before) && before <= now
    ensures Remembers(Pruned(seen, now, interval), calls, interval, now)
  {
  }

  class Limiter {
    const interval: Time
    var seen: map<Key, Time>
    ghost var calls: seq<Call>

    ghost function Clock(): Time
      reads this
    {
      if calls == [] then 0 else calls[|calls| - 1].now
    }

    ghost predicate Valid()
      reads this
    {
      Chronological(calls) && Remembers(seen, calls, interval, Clock())
    }

    constructor ForStarts()
      ensures Valid() && interval == START_INTERVAL && calls == []
    {
      interval, seen, calls := START_INTERVAL, map[], [];
    }

    constructor ForDeletions()
      ensures Valid() && interval == DELETE_INTERVAL && calls == []
    {
      interval, seen, calls := DELETE_INTERVAL, map[], [];
    }

    /** Answers like the limiter with unbounded memory, whenever the map was pruned. */
    method Check(key: Key, now: Time) returns (wait: int)
      requires Valid() && (calls != [] ==> Clock() <= now)
      modifies this
      ensures Valid() && calls == old(calls) + [Call(key, now)]
      ensures wait == Answer(old(calls), Call(key, now), interval)
    {
      ghost var call := Call(key, now);
      ghost var before := if calls == [] then now else Clock();
      MapAnswers(seen, calls, interval, before, call);
      CallRemembered(seen, calls, interval, before, call);
      if key in seen {
        var gap := interval - (now - seen[key]);
        if gap > 0 {
          wait := (gap + SECOND - 1) / SECOND;
          Ceiling(gap);
          calls := calls + [call];
          return;
        }
      }
      if |seen| >= MAX_ENTRIES {
        PrunedRemembers(seen, calls, interval, before, now);
        Prune(now);
      }
      MapAnswers(seen, calls, interval, if seen == old(seen) then before else now, call);
      CallRemembered(seen, calls, interval, if seen == old(seen) then before else now, call);
      seen := seen[key := now];
      wait := 0;
      calls := calls + [call];
    }

    method Prune(now: Time)
      modifies this`seen
      ensures seen == Pruned(old(seen), now, interval)
    {
      var rest := seen.Keys;
      while rest != {}
        invariant rest <= seen.Keys
        invariant seen == map k | k in old(seen) && (k in rest || now - old(seen)[k] < interval) :: old(seen)[k]
      {
        var k :| k in rest;
        rest := rest - {k};
        if now - seen[k] >= interval {
          seen := seen - {k};
        }
      }
    }
  }
}
