/** The MCP session table: expiry, per-user and global caps, eviction of the oldest. */
module Sessions {
  import opened RelayTypes
  import opened Ordering
  import opened Sums

  type SessionId = string

  datatype Session = Session(user: string, lastActivity: Time)

  type Table = map<SessionId, Session>

  predicate Expired(s: Session, now: Time, ttl: Time) {
    now - s.lastActivity > ttl
  }

  /** Eviction order: least recent activity first, then the smaller id. */
  predicate Older(table: Table, a: SessionId, b: SessionId)
    requires a in table && b in table
  {
    || table[a].lastActivity < table[b].lastActivity
    || (table[a].lastActivity == table[b].lastActivity && Before(a, b))
  }

  lemma OlderTransitive(table: Table, a: SessionId, b: SessionId, c: SessionId)
    requires a in table && b in table && c in table && Older(table, a, b) && Older(table, b, c)
    ensures Older(table, a, c)
  {
    if table[a].lastActivity == table[c].lastActivity {
      Transitive(a, b, c);
    }
  }

  lemma OlderTotal(table: Table, a: SessionId, b: SessionId)
    requires a in table && b in table && a != b
    ensures Older(table, a, b) || Older(table, b, a)
  {
    Total(a, b);
  }

  /** The sessions that count against a user's cap. */
  function Owned(table: Table, user: string): set<SessionId> {
    set id | id in table && table[id].user == user
  }

  /** The sessions an eviction may choose from; the empty user means everybody's. */
  function Eligible(table: Table, user: string): set<SessionId> {
    set id | id in table && (user == "" || table[id].user == user)
  }

  /** `gone` are the oldest of the eligible sessions: each is older than every eligible session that stays. */
  ghost predicate Oldest(table: Table, user: string, gone: set<SessionId>) {
    && gone <= Eligible(table, user)
    && forall a, b | a in gone && b in Eligible(table, user) - gone :: Older(table, a, b)
  }

  ghost predicate IsOldest(table: Table, user: string, id: SessionId) {
    id in Eligible(table, user) && forall b | b in Eligible(table, user) && b != id :: Older(table, id, b)
  }

  /** The oldest session of what an earlier eviction left extends that eviction. */
  lemma OldestExtends(table: Table, user: string, gone: set<SessionId>, next: SessionId)
    requires Oldest(table, user, gone) && IsOldest(table - gone, user, next)
    ensures Oldest(table, user, gone + {next})
    ensures |gone + {next}| == |gone| + 1 && table - gone - {next} == table - (gone + {next})
  {
    forall b | b in Eligible(table, user) - (gone + {next}) ensures Older(table, next, b) {
      assert Older(table - gone, next, b);
    }
  }

  lemma OlderAsymmetric(table: Table, a: SessionId, b: SessionId)
    requires a in table && b in table && Older(table, a, b)
    ensures !Older(table, b, a)
  {
    if Before(a, b) && Before(b, a) {
      Transitive(a, b, a);
      Irreflexive(a);
    }
  }

  /** Size determines the eviction: there is only one oldest set of each size. */
  lemma OldestIsUnique(table: Table, user: string, a: set<SessionId>, b: set<SessionId>)
    requires Oldest(table, user, a) && Oldest(table, user, b) && |a| == |b|
    ensures a == b
  {
    assert |a - b| == |b - a| by {
      assert a == (a - b) + (a * b) && b == (b - a) + (a * b);
    }
    if x :| x in a - b {
      assert b - a != {};
      var y :| y in b - a;
      assert Older(table, x, y) && Older(table, y, x);
      OlderAsymmetric(table, x, y);
    }
  }

  /** No smaller choice of oldest sessions leaves room for one more of the user's. */
  ghost predicate Fewest(table: Table, user: string, gone: set<SessionId>, limit: int) {
    forall fewer: set<SessionId> | Oldest(table, user, fewer) && |fewer| < |gone| :: |Owned(table - fewer, user)| >= limit
  }

  function Max(a: int, b: int): int { if a < b then b else a }

  /** How many of `count` sessions must go so that one more fits under `limit`; no limit means none. */
  function Surplus(count: int, limit: int): int {
    if limit > 0 then Max(0, count - limit + 1) else 0
  }

  lemma EligibleShrinks(table: Table, user: string, gone: set<SessionId>)
    requires gone <= Eligible(table, user)
    ensures Eligible(table - gone, user) == Eligible(table, user) - gone
    ensures |Eligible(table - gone, user)| == |Eligible(table, user)| - |gone|
  {
  }

  lemma EverybodyEligible(table: Table)
    ensures Eligible(table, "") == table.Keys && |Eligible(table, "")| == |table|
  {
  }

  lemma OwnedAreEligible(table: Table, user: string)
    ensures Owned(table, user) <= Eligible(table, user) && (user != "" ==> Owned(table, user) == Eligible(table, user))
  {
  }

  lemma FewestExtends(table: Table, user: string, gone: set<SessionId>, next: SessionId, limit: int)
    requires Oldest(table, user, gone) && Fewest(table, user, gone, limit) && |Owned(table - gone, user)| >= limit && next !in gone
    ensures Fewest(table, user, gone + {next}, limit)
  {
    forall fewer: set<SessionId> | Oldest(table, user, fewer) && |fewer| < |gone + {next}| ensures |Owned(table - fewer, user)| >= limit {
      if |fewer| == |gone| { OldestIsUnique(table, user, fewer, gone); }
    }
  }

  /** What the eviction for one user's sake has done so far. */
  ghost predicate MakingRoom(table: Table, user: string, gone: set<SessionId>, limit: int) {
    && Oldest(table, user, gone) && Fewest(table, user, gone, limit)
    && (user != "" ==> |gone| <= Surplus(|Owned(table, user)|, limit))
  }

  lemma MakingMoreRoom(table: Table, user: string, gone: set<SessionId>, next: SessionId, limit: int)
    requires MakingRoom(table, user, gone, limit) && |Owned(table - gone, user)| >= limit > 0 && IsOldest(table - gone, user, next)
    ensures MakingRoom(table, user, gone + {next}, limit) && table - gone - {next} == table - (gone + {next})
  {
    OldestExtends(table, user, gone, next);
    FewestExtends(table, user, gone, next, limit);
    OwnedAreEligible(table, user);
    OwnedAreEligible(table - gone, user);
    EligibleShrinks(table, user, gone);
  }

  lemma RoomMade(table: Table, user: string, gone: set<SessionId>, limit: int)
    requires MakingRoom(table, user, gone, limit) && |Owned(table - gone, user)| < limit && user != ""
    ensures |gone| == Surplus(|Owned(table, user)|, limit)
  {
    OwnedAreEligible(table, user);
    OwnedAreEligible(table - gone, user);
    EligibleShrinks(table, user, gone);
  }

  function Live(table: Table, now: Time, ttl: Time): Table {
    map id | id in table && !Expired(table[id], now, ttl) :: table[id]
  }

  /** Every user within the per-user cap and the table within the global cap. */
  ghost predicate WithinCaps(table: Table, perUser: int, total: int) {
    && (perUser > 0 ==> forall user :: |Owned(table, user)| <= perUser)
    && (total > 0 ==> |table| <= total)
  }

  lemma FewerWithinCaps(table: Table, fewer: Table, perUser: int, total: int)
    requires WithinCaps(table, perUser, total)
    requires forall id | id in fewer :: id in table && fewer[id].user == table[id].user
    ensures WithinCaps(fewer, perUser, total)
  {
    forall user ensures |Owned(fewer, user)| <= |Owned(table, user)| {
      SubsetSize(Owned(fewer, user), Owned(table, user));
    }
    assert fewer.Keys <= table.Keys;
    SubsetSize(fewer.Keys, table.Keys);
  }

  lemma OneMore(table: Table, id: SessionId, session: Session, user: string)
    requires id !in table
    ensures |Owned(table[id := session], user)| == |Owned(table, user)| + if user == session.user then 1 else 0
  {
    var after := Owned(table[id := session], user);
    if user == session.user {
      assert after == Owned(table, user) + {id};
    } else {
      assert after == Owned(table, user);
    }
  }

  /** A new session after room was made for it. */
  lemma InsertWithinCaps(table: Table, id: SessionId, session: Session, perUser: int, total: int)
    requires WithinCaps(table, perUser, total) && id !in table
    requires perUser > 0 ==> |Owned(table, session.user)| < perUser
    requires total > 0 ==> |table| < total
    ensures WithinCaps(table[id := session], perUser, total)
  {
    var after := table[id := session];
    forall user ensures perUser > 0 ==> |Owned(after, user)| <= perUser {
      OneMore(table, id, session, user);
    }
  }

  lemma OldestSoFar(table: Table, seen: set<SessionId>, best: SessionId, id: SessionId)
    requires seen <= table.Keys && best in table && id in table && id != best && Older(table, id, best)
    requires forall b | b in seen && b != best :: Older(table, best, b)
    ensures forall b | b in seen && b != id :: Older(table, id, b)
  {
    forall b | b in seen && b != id ensures Older(table, id, b) {
      if b != best { OlderTransitive(table, id, best, b); }
    }
  }

  /** The table behind its mutex. The caps are configuration; values of at most 0 switch a cap off. */
  class SessionTable {
    const ttl: Time
    const perUser: int
    const total: int
    var sessions: Table

    ghost predicate Valid()
      reads this
    {
      WithinCaps(sessions, perUser, total)
    }

    constructor (ttl: Time, perUser: int, total: int)
      ensures this.ttl == ttl && this.perUser == perUser && this.total == total && sessions == map[] && Valid()
    {
      this.ttl, this.perUser, this.total, sessions := ttl, perUser, total, map[];
      new;
      forall user ensures Owned(sessions, user) == {} {}
    }

    method PruneExpired(now: Time) returns (expired: set<SessionId>)
      requires Valid()
      modifies this
      ensures Valid() && sessions == Live(old(sessions), now, ttl)
      ensures expired == old(sessions).Keys - sessions.Keys
    {
      expired := {};
      var rest := sessions.Keys;
      while rest != {}
        invariant rest <= old(sessions).Keys
        invariant expired == set id | id in old(sessions) && id !in rest && Expired(old(sessions)[id], now, ttl)
        invariant sessions == map id | id in old(sessions) && id !in expired :: old(sessions)[id]
      {
        var id :| id in rest;
        if Expired(sessions[id], now, ttl) {
          sessions := sessions - {id};
          expired := expired + {id};
        }
        rest := rest - {id};
      }
      FewerWithinCaps(old(sessions), sessions, perUser, total);
    }

    /** Evicts the oldest eligible session, or reports that there is none. */
    method EvictOldest(user: string) returns (evicted: Option<SessionId>)
      modifies this
      ensures evicted.None? <==> Eligible(old(sessions), user) == {}
      ensures evicted.None? ==> sessions == old(sessions)
      ensures evicted.Some? ==> IsOldest(old(sessions), user, evicted.value) && sessions == old(sessions) - {evicted.value}
    {
      evicted := None;
      var rest := sessions.Keys;
      ghost var seen: set<SessionId> := {};
      while rest != {}
        invariant rest <= sessions.Keys && sessions == old(sessions)
        invariant seen == Eligible(sessions, user) - rest
        invariant evicted.None? ==> seen == {}
        invariant evicted.Some? ==> evicted.value in seen && forall b | b in seen && b != evicted.value :: Older(sessions, evicted.value, b)
      {
        var id :| id in rest;
        rest := rest - {id};
        if user == "" || sessions[id].user == user {
          seen := seen + {id};
          if evicted.None? {
            evicted := Some(id);
          } else if Older(sessions, id, evicted.value) {
            OldestSoFar(sessions, seen - {id}, evicted.value, id);
            evicted := Some(id);
          } else {
            OlderTotal(sessions, id, evicted.value);
          }
        }
      }
      if evicted.Some? {
        sessions := sessions - {evicted.value};
      }
    }

    method CountForUser(user: string) returns (count: int)
      ensures count == |Owned(sessions, user)|
    {
      count := 0;
      var rest := sessions.Keys;
      ghost var counted: set<SessionId> := {};
      while rest != {}
        invariant rest <= sessions.Keys
        invariant counted == Owned(sessions, user) - rest && count == |counted|
      {
        var id :| id in rest;
        rest := rest - {id};
        if sessions[id].user == user {
          count := count + 1;
          counted := counted + {id};
        }
      }
    }

    /** Evicts the oldest eligible sessions until one more of the user's fits under the per-user cap. */
    method MakeRoomForUser(user: string) returns (ghost gone: set<SessionId>)
      modifies this
      ensures Oldest(old(sessions), user, gone) && sessions == old(sessions) - gone && Fewest(old(sessions), user, gone, perUser)
      ensures if perUser > 0 then |Owned(sessions, user)| < perUser else gone == {}
      ensures user != "" ==> |gone| == Surplus(|Owned(old(sessions), user)|, perUser)
    {
      gone := {};
      if perUser <= 0 { return; }
      ghost var before := sessions;
      var count := CountForUser(user);
      while count >= perUser
        invariant MakingRoom(before, user, gone, perUser) && sessions == before - gone && count == |Owned(sessions, user)|
        decreases |sessions|
      {
        OwnedAreEligible(sessions, user);
        var evicted := EvictOldest(user);
        MakingMoreRoom(before, user, gone, evicted.value, perUser);
        gone := gone + {evicted.value};
        count := CountForUser(user);
      }
      if user != "" { RoomMade(before, user, gone, perUser); }
    }

    /** Evicts the oldest sessions of all users until one more fits under the global cap. */
    method MakeRoom() returns (ghost gone: set<SessionId>)
      modifies this
      ensures Oldest(old(sessions), "", gone) && sessions == old(sessions) - gone
      ensures |gone| == Surplus(|old(sessions)|, total)
    {
      gone := {};
      if total <= 0 { return; }
      ghost var before := sessions;
      while |sessions| >= total
        invariant Oldest(before, "", gone) && sessions == before - gone
        invariant |sessions| == |before| - |gone|
        invariant gone != {} ==> |sessions| >= total - 1
        decreases |sessions|
      {
        EverybodyEligible(sessions);
        var evicted := EvictOldest("");
        OldestExtends(before, "", gone, evicted.value);
        gone := gone + {evicted.value};
      }
    }

    /** prepareMCPSessionSlot: drops expired sessions, then the fewest and oldest that must make room. */
    method PrepareSlot(user: string, now: Time) returns (expired: set<SessionId>, ghost mine: set<SessionId>, ghost others: set<SessionId>)
      requires Valid()
      modifies this
      ensures Valid() && expired == old(sessions).Keys - Live(old(sessions), now, ttl).Keys
      ensures var live := Live(old(sessions), now, ttl);
              && Oldest(live, user, mine) && Fewest(live, user, mine, perUser)
              && (user != "" ==> |mine| == Surplus(|Owned(live, user)|, perUser))
              && Oldest(live - mine, "", others) && |others| == Surplus(|live - mine|, total)
              && sessions == live - mine - others
      ensures perUser > 0 ==> |Owned(sessions, user)| < perUser
      ensures total > 0 ==> |sessions| < total
    {
      expired := PruneExpired(now);
      ghost var live := sessions;
      mine := MakeRoomForUser(user);
      ghost var between := sessions;
      others := MakeRoom();
      if total > 0 { RoomLeft(between, others, total); }
      FewerWithinCaps(live, sessions, perUser, total);
      SubsetSize(Owned(sessions, user), Owned(between, user));
    }

    /** The insert of an initialize request. */
    method Initialize(user: string, id: SessionId, now: Time)
      requires Valid() && id !in sessions
      modifies this
      ensures Valid() && id in sessions && sessions[id] == Session(user, now)
      ensures forall k | k in sessions && k != id :: k in old(sessions) && sessions[k] == old(sessions)[k] && !Expired(sessions[k], now, ttl)
    {
      var expired, mine, others := PrepareSlot(user, now);
      InsertWithinCaps(sessions, id, Session(user, now), perUser, total);
      sessions := sessions[id := Session(user, now)];
    }

    method Touch(id: SessionId, user: string, now: Time) returns (ok: bool)
      requires Valid()
      modifies this
      ensures Valid() && (ok <==> id in old(sessions) && old(sessions)[id].user == user)
      ensures sessions == if ok then old(sessions)[id := Session(user, now)] else old(sessions)
    {
      ok := id in sessions && sessions[id].user == user;
      if ok {
        sessions := sessions[id := sessions[id].(lastActivity := now)];
        FewerWithinCaps(old(sessions), sessions, perUser, total);
      }
    }
  }

  lemma RoomLeft(table: Table, gone: set<SessionId>, limit: int)
    requires gone <= Eligible(table, "") && |gone| == Surplus(|table|, limit) && limit > 0
    ensures |table - gone| < limit
  {
  }
}
