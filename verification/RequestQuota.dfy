/** Two-level daily request quota: a member's own limit inside a shared pool. */
module RequestQuota {
  import opened Sums

  /** Counter keys carry the day. A personal call passes its pool key as member key, with member limit 0. */
  datatype Key = MemberKey(org: string, user: string, day: string) | PoolKey(pool: string, day: string)

  datatype Scope = NoScope | Personal | Member | Organization

  datatype Decision = Decision(allowed: bool, used: int, limit: int, scope: Scope, unavailable: bool)

  /** How the store reacts: it answers, or the call fails before or after the script took effect. */
  datatype Store = Answers | Fails(executed: bool)

  datatype Call = Call(member: Key, pool: Key, store: Store)

  /** The limits as configured; at most 0 means unlimited. */
  datatype Limits = Limits(member: Key -> int, pool: Key -> int)

  /** Only member keys carry a member limit. */
  ghost predicate Sensible(limits: Limits) {
    forall k: Key :: k.PoolKey? ==> limits.member(k) <= 0
  }

  function Charged(used: map<Key, int>, k: Key, limit: int): map<Key, int> {
    if limit > 0 then used[k := Lookup(used, k) + 1] else used
  }

  predicate Exhausted(used: map<Key, int>, k: Key, limit: int) {
    limit > 0 && Lookup(used, k) >= limit
  }

  predicate Admits(used: map<Key, int>, call: Call, limits: Limits) {
    !Exhausted(used, call.member, limits.member(call.member)) && !Exhausted(used, call.pool, limits.pool(call.pool))
  }

  predicate Executed(store: Store) {
    store.Answers? || store.executed
  }

  /** Both levels are charged, or neither. */
  function AfterCall(used: map<Key, int>, call: Call, limits: Limits): map<Key, int> {
    if Executed(call.store) && Admits(used, call, limits)
    then Charged(Charged(used, call.member, limits.member(call.member)), call.pool, limits.pool(call.pool))
    else used
  }

  /** A call that no level limits does not ask the store; any other is allowed only by an answer. */
  predicate Allows(used: map<Key, int>, call: Call, limits: Limits) {
    Admits(used, call, limits) && (call.store.Answers? || (limits.member(call.member) <= 0 && limits.pool(call.pool) <= 0))
  }

  function After(calls: seq<Call>, limits: Limits): map<Key, int> {
    if calls == [] then map[] else AfterCall(After(calls[..|calls| - 1], limits), calls[|calls| - 1], limits)
  }

  /** The calls of a run that the script admitted, answered or not, oldest first. */
  function Admitted(calls: seq<Call>, limits: Limits): seq<Call> {
    if calls == [] then []
    else var earlier, call := calls[..|calls| - 1], calls[|calls| - 1];
         Admitted(earlier, limits) + if Executed(call.store) && Admits(After(earlier, limits), call, limits) then [call] else []
  }

  /** The calls of a run that went ahead. */
  function Allowed(calls: seq<Call>, limits: Limits): seq<Call> {
    if calls == [] then []
    else var earlier, call := calls[..|calls| - 1], calls[|calls| - 1];
         Allowed(earlier, limits) + if Allows(After(earlier, limits), call, limits) then [call] else []
  }

  function Unanswered(calls: seq<Call>): seq<Call> {
    if calls == [] then []
    else Unanswered(calls[..|calls| - 1]) + if calls[|calls| - 1].store.Answers? then [] else [calls[|calls| - 1]]
  }

  function CountPool(calls: seq<Call>, k: Key): nat {
    if calls == [] then 0 else CountPool(calls[..|calls| - 1], k) + if calls[|calls| - 1].pool == k then 1 else 0
  }

  function CountMembers(calls: seq<Call>, members: set<Key>): nat {
    if calls == [] then 0 else CountMembers(calls[..|calls| - 1], members) + if calls[|calls| - 1].member in members then 1 else 0
  }

  ghost predicate ProperKeys(calls: seq<Call>) {
    forall c | c in calls :: c.pool.PoolKey?
  }

  lemma AppendCounts(calls: seq<Call>, c: Call, k: Key, members: set<Key>)
    ensures CountPool(calls + [c], k) == CountPool(calls, k) + if c.pool == k then 1 else 0
    ensures CountMembers(calls + [c], members) == CountMembers(calls, members) + if c.member in members then 1 else 0
  {
  }

  /** An admitted call raises the counters of its limited levels by one. */
  lemma CounterStep(used: map<Key, int>, call: Call, limits: Limits, k: Key)
    requires Sensible(limits) && call.pool.PoolKey? && Executed(call.store) && Admits(used, call, limits)
    ensures k.MemberKey? && limits.member(k) > 0 ==> Lookup(AfterCall(used, call, limits), k) == Lookup(used, k) + if call.member == k then 1 else 0
    ensures k.PoolKey? && limits.pool(k) > 0 ==> Lookup(AfterCall(used, call, limits), k) == Lookup(used, k) + if call.pool == k then 1 else 0
  {
  }

  /** A limited counter counts exactly the calls that the script admitted there, and never exceeds its limit. */
  lemma {:induction false} CountersCountAdmitted(calls: seq<Call>, limits: Limits, k: Key)
    requires Sensible(limits) && ProperKeys(calls)
    ensures k.MemberKey? && limits.member(k) > 0 ==>
              Lookup(After(calls, limits), k) == CountMembers(Admitted(calls, limits), {k}) <= limits.member(k)
    ensures k.PoolKey? && limits.pool(k) > 0 ==>
              Lookup(After(calls, limits), k) == CountPool(Admitted(calls, limits), k) <= limits.pool(k)
  {
    if calls != [] {
      var earlier, call := calls[..|calls| - 1], calls[|calls| - 1];
      CountersCountAdmitted(earlier, limits, k);
      AppendCounts(Admitted(earlier, limits), call, k, {k});
      assert Admitted(earlier, limits) + [] == Admitted(earlier, limits);
      if Executed(call.store) && Admits(After(earlier, limits), call, limits) {
        CounterStep(After(earlier, limits), call, limits, k);
      }
    }
  }

  /** A call is rejected exactly when the admitted calls at one of its limited levels have used the limit up. */
  lemma RejectedExactlyWhenSpent(calls: seq<Call>, call: Call, limits: Limits)
    requires Sensible(limits) && ProperKeys(calls) && call.pool.PoolKey?
    ensures var admitted := Admitted(calls, limits);
            !Admits(After(calls, limits), call, limits) <==>
              || (limits.member(call.member) > 0 && CountMembers(admitted, {call.member}) == limits.member(call.member))
              || (limits.pool(call.pool) > 0 && CountPool(admitted, call.pool) == limits.pool(call.pool))
  {
    CountersCountAdmitted(calls, limits, call.member);
    CountersCountAdmitted(calls, limits, call.pool);
  }

  /** The calls that went ahead at a limited level are those the script admitted there, less the unanswered ones. */
  lemma {:induction false} AllowedWereAnswered(calls: seq<Call>, limits: Limits, k: Key)
    ensures var allowed, admitted := Allowed(calls, limits), Admitted(calls, limits);
            && (limits.member(k) > 0 ==> CountMembers(admitted, {k}) == CountMembers(allowed, {k}) + CountMembers(Unanswered(admitted), {k}))
            && (limits.pool(k) > 0 ==> CountPool(admitted, k) == CountPool(allowed, k) + CountPool(Unanswered(admitted), k))
  {
    if calls != [] {
      var earlier, call := calls[..|calls| - 1], calls[|calls| - 1];
      AllowedWereAnswered(earlier, limits, k);
      var allowed, admitted := Allowed(earlier, limits), Admitted(earlier, limits);
      assert allowed + [] == allowed && admitted + [] == admitted;
      AppendCounts(allowed, call, k, {k});
      AppendCounts(admitted, call, k, {k});
      AppendUnanswered(admitted, call, k);
    }
  }

  lemma AppendUnanswered(calls: seq<Call>, c: Call, k: Key)
    ensures CountPool(Unanswered(calls + [c]), k) == CountPool(Unanswered(calls), k) + if c.pool == k && c.store.Fails? then 1 else 0
    ensures CountMembers(Unanswered(calls + [c]), {k}) == CountMembers(Unanswered(calls), {k}) + if c.member == k && c.store.Fails? then 1 else 0
  {
    var lost := Unanswered(calls);
    assert (calls + [c])[..|calls|] == calls && lost + [] == lost;
    AppendCounts(lost, c, k, {k});
  }

  /** A limited counter covers the calls that went ahead there, within its limit: it exceeds their number by those whose
      answer was lost. */
  lemma CountersCoverAllowed(calls: seq<Call>, limits: Limits, k: Key)
    requires Sensible(limits) && ProperKeys(calls)
    ensures var used, lost := Lookup(After(calls, limits), k), Unanswered(Admitted(calls, limits));
            && (k.MemberKey? && limits.member(k) > 0 ==> CountMembers(Allowed(calls, limits), {k}) + CountMembers(lost, {k}) == used <= limits.member(k))
            && (k.PoolKey? && limits.pool(k) > 0 ==> CountPool(Allowed(calls, limits), k) + CountPool(lost, k) == used <= limits.pool(k))
  {
    CountersCountAdmitted(calls, limits, k);
    AllowedWereAnswered(calls, limits, k);
  }

  /** Calls that are rejected or never reach the script leave no trace: the run without them ends in the same counters. */
  lemma {:induction false} RejectedLeaveNoTrace(calls: seq<Call>, limits: Limits)
    ensures After(Admitted(calls, limits), limits) == After(calls, limits)
    ensures Admitted(Admitted(calls, limits), limits) == Admitted(calls, limits)
  {
    if calls != [] {
      var earlier, call := calls[..|calls| - 1], calls[|calls| - 1];
      RejectedLeaveNoTrace(earlier, limits);
      var admitted := Admitted(earlier, limits);
      assert admitted + [] == admitted && (admitted + [call])[..|admitted|] == admitted;
    }
  }

  function Counts(calls: seq<Call>, members: set<Key>): map<Key, int> {
    map m | m in members :: CountMembers(calls, {m})
  }

  lemma {:induction false} MembersSum(calls: seq<Call>, members: set<Key>)
    ensures Sum(Counts(calls, members)) == CountMembers(calls, members)
    decreases |members|
  {
    var counts := Counts(calls, members);
    if members == {} {
      NobodyCalls(calls);
    } else {
      var m :| m in members;
      MembersSum(calls, members - {m});
      SumWithout(counts, m);
      assert counts - {m} == Counts(calls, members - {m});
      OneMoreMember(calls, members - {m}, m);
      assert members - {m} + {m} == members;
    }
  }

  lemma {:induction false} NobodyCalls(calls: seq<Call>)
    ensures CountMembers(calls, {}) == 0
  {
    if calls != [] { NobodyCalls(calls[..|calls| - 1]); }
  }

  lemma {:induction false} OneMoreMember(calls: seq<Call>, members: set<Key>, m: Key)
    requires m !in members
    ensures CountMembers(calls, members + {m}) == CountMembers(calls, members) + CountMembers(calls, {m})
  {
    if calls != [] { OneMoreMember(calls[..|calls| - 1], members, m); }
  }

  lemma {:induction false} MembersWithinPool(calls: seq<Call>, members: set<Key>, pool: Key)
    requires forall c | c in calls && c.member in members :: c.pool == pool
    ensures CountMembers(calls, members) <= CountPool(calls, pool)
  {
    if calls != [] { MembersWithinPool(calls[..|calls| - 1], members, pool); }
  }

  lemma {:induction false} AdmittedWereCalled(calls: seq<Call>, limits: Limits)
    ensures forall c | c in Admitted(calls, limits) :: c in calls
  {
    if calls != [] { AdmittedWereCalled(calls[..|calls| - 1], limits); }
  }

  /** A limited pool's counter is at least the sum of the counters of the limited members that are charged through it. */
  lemma PoolCoversMembers(calls: seq<Call>, limits: Limits, members: set<Key>, pool: Key)
    requires Sensible(limits) && ProperKeys(calls) && pool.PoolKey? && limits.pool(pool) > 0
    requires forall m | m in members :: m.MemberKey? && limits.member(m) > 0
    requires forall c | c in calls && c.member in members :: c.pool == pool
    ensures Sum(map m | m in members :: Lookup(After(calls, limits), m)) <= Lookup(After(calls, limits), pool)
  {
    var admitted := Admitted(calls, limits);
    forall m | m in members ensures Lookup(After(calls, limits), m) == CountMembers(admitted, {m}) { CountersCountAdmitted(calls, limits, m); }
    assert (map m | m in members :: Lookup(After(calls, limits), m)) == Counts(admitted, members);
    MembersSum(admitted, members);
    AdmittedWereCalled(calls, limits);
    MembersWithinPool(admitted, members, pool);
    CountersCountAdmitted(calls, limits, pool);
  }

  /** The counters as the script updates them. */
  class RequestCounters {
    var used: map<Key, int>

    constructor ()
      ensures used == map[]
    {
      used := map[];
    }

    /** reserveRequestQuotaScript. */
    method Script(member: Key, memberLimit: int, pool: Key, poolLimit: int) returns (allowed: bool, count: int, limit: int, level: int)
      requires memberLimit > 0 ==> member != pool
      modifies this
      ensures allowed <==> !Exhausted(old(used), member, memberLimit) && !Exhausted(old(used), pool, poolLimit)
      ensures used == if allowed then Charged(Charged(old(used), member, memberLimit), pool, poolLimit) else old(used)
      ensures level == if !allowed then (if Exhausted(old(used), member, memberLimit) then 1 else 2)
                       else if poolLimit > 0 then 2 else if memberLimit > 0 then 1 else 0
      ensures level == 1 ==> count == Lookup(used, member) && limit == memberLimit
      ensures level == 2 ==> count == Lookup(used, pool) && limit == poolLimit
      ensures level == 0 ==> count == 0 && limit == 0
    {
      if memberLimit > 0 && Lookup(used, member) >= memberLimit {
        return false, Lookup(used, member), memberLimit, 1;
      }
      if poolLimit > 0 && Lookup(used, pool) >= poolLimit {
        return false, Lookup(used, pool), poolLimit, 2;
      }
      if memberLimit > 0 {
        used := used[member := Lookup(used, member) + 1];
      }
      if poolLimit > 0 {
        used := used[pool := Lookup(used, pool) + 1];
        return true, Lookup(used, pool), poolLimit, 2;
      }
      if memberLimit > 0 {
        return true, Lookup(used, member), memberLimit, 1;
      }
      return true, 0, 0, 0;
    }

    /** reserveRequestQuota: an unlimited call does not ask the store; a failing store admits nothing, even if the script
        took effect; otherwise the decision names the level that decided. */
    method Reserve(call: Call, limits: Limits) returns (d: Decision)
      requires limits.member(call.member) > 0 ==> call.member != call.pool
      modifies this
      ensures used == AfterCall(old(used), call, limits) && (d.allowed <==> Allows(old(used), call, limits))
      ensures d.unavailable <==> (limits.member(call.member) > 0 || limits.pool(call.pool) > 0) && call.store.Fails?
      ensures d.allowed && (limits.member(call.member) > 0 || limits.pool(call.pool) > 0) ==> d.used <= d.limit
      ensures !d.allowed && !d.unavailable ==> d.used >= d.limit > 0
      ensures d.scope == if d.unavailable || (limits.member(call.member) <= 0 && limits.pool(call.pool) <= 0) then NoScope
                         else if call.pool == call.member then Personal
                         else if Exhausted(old(used), call.member, limits.member(call.member)) || limits.pool(call.pool) <= 0 then Member
                         else Organization
      ensures d.scope.Member? ==> d.used == Lookup(used, call.member) && d.limit == limits.member(call.member)
      ensures d.scope.Organization? || d.scope.Personal? ==> d.used == Lookup(used, call.pool) && d.limit == limits.pool(call.pool)
    {
      var memberLimit, poolLimit := limits.member(call.member), limits.pool(call.pool);
      if memberLimit <= 0 && poolLimit <= 0 {
        return Decision(true, 0, 0, NoScope, false);
      }
      if call.store.Fails? {
        if call.store.executed {
          var _, _, _, _ := Script(call.member, memberLimit, call.pool, poolLimit);
        }
        return Decision(false, 0, 0, NoScope, true);
      }
      var allowed, count, limit, level := Script(call.member, memberLimit, call.pool, poolLimit);
      var scope := if level == 1 && call.pool != call.member then Member
                   else if level == 2 && call.pool != call.member then Organization else Personal;
      return Decision(allowed, count, limit, scope, false);
    }
  }
}
