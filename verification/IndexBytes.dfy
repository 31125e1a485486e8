/** The shared byte pools: deduplicated reservation of file contents and of Swift upload parts. */
module IndexBytes {
  import opened RelayTypes
  import opened Sums

  /** What identifies a charged file content: normalised path, trimmed lower-case hash and size. */
  datatype Content = Content(path: string, hash: string, bytes: int)

  datatype FileKey = FileKey(tenant: Tenant, root: string, day: string, content: Content)

  datatype PartKey = PartKey(tenant: Tenant, root: string, job: JobId, part: int)

  datatype PartToken = PartToken(digest: string, length: int)

  datatype PoolDay = PoolDay(pool: string, day: string)

  datatype Ledger = Ledger(counters: map<PoolDay, int>, files: map<FileKey, int>, parts: map<PartKey, PartToken>)

  datatype Decision = Decision(allowed: bool, used: int, charged: int)

  const MAX_PARTS: int := 512
  const MAX_PART_BYTES: int := 262_144

  // ---- files ----------------------------------------------------------------------------------------

  /** A call to charge the files of a batch against a pool. */
  datatype FilesCall = FilesCall(pool: string, limit: int, tenant: Tenant, root: string, day: string, files: seq<Content>)

  function KeyOf(call: FilesCall, content: Content): FileKey {
    FileKey(call.tenant, call.root, call.day, content)
  }

  function Requested(files: seq<Content>): int {
    if files == [] then 0
    else Requested(files[..|files| - 1]) + if files[|files| - 1].bytes > 0 then files[|files| - 1].bytes else 0
  }

  predicate Charges(files: map<FileKey, int>, call: FilesCall, content: Content) {
    content.bytes > 0 && KeyOf(call, content) !in files
  }

  /** The ledger after the first `n` files of a call: each content that carries bytes is recorded once. */
  function Recorded(files: map<FileKey, int>, call: FilesCall, n: nat): map<FileKey, int>
    requires n <= |call.files|
  {
    if n == 0 then files
    else var before, content := Recorded(files, call, n - 1), call.files[n - 1];
         if Charges(before, call, content) then before[KeyOf(call, content) := content.bytes] else before
  }

  /** The bytes of the contents that the first `n` files of a call add to the ledger. */
  function NewBytes(files: map<FileKey, int>, call: FilesCall, n: nat): int
    requires n <= |call.files|
  {
    if n == 0 then 0
    else NewBytes(files, call, n - 1) + if Charges(Recorded(files, call, n - 1), call, call.files[n - 1]) then call.files[n - 1].bytes else 0
  }

  /** Nothing to charge, or an unlimited pool: the ledger is not consulted. */
  predicate Untracked(call: FilesCall) {
    Requested(call.files) <= 0 || call.limit <= 0
  }

  predicate FilesAccepted(ledger: Ledger, call: FilesCall) {
    Lookup(ledger.counters, PoolDay(call.pool, call.day)) + NewBytes(ledger.files, call, |call.files|) <= call.limit
  }

  function AfterFiles(ledger: Ledger, call: FilesCall): Ledger {
    var key, charged := PoolDay(call.pool, call.day), NewBytes(ledger.files, call, |call.files|);
    if Untracked(call) || !FilesAccepted(ledger, call) || charged <= 0 then ledger
    else ledger.(counters := ledger.counters[key := Lookup(ledger.counters, key) + charged],
                 files := Recorded(ledger.files, call, |call.files|))
  }

  lemma {:induction false} RecordedSums(files: map<FileKey, int>, call: FilesCall, n: nat)
    requires n <= |call.files|
    ensures Sum(Recorded(files, call, n)) == Sum(files) + NewBytes(files, call, n)
    ensures 0 <= NewBytes(files, call, n) && (NewBytes(files, call, n) == 0 ==> Recorded(files, call, n) == files)
  {
    if n > 0 {
      RecordedSums(files, call, n - 1);
      var before, content := Recorded(files, call, n - 1), call.files[n - 1];
      if Charges(before, call, content) {
        SumInsert(before, KeyOf(call, content), content.bytes);
      }
    }
  }

  lemma {:induction false} RecordedSizes(files: map<FileKey, int>, call: FilesCall, n: nat)
    requires n <= |call.files| && forall k | k in files :: files[k] == k.content.bytes > 0
    ensures forall k | k in Recorded(files, call, n) :: Recorded(files, call, n)[k] == k.content.bytes > 0
  {
    if n > 0 {
      RecordedSizes(files, call, n - 1);
    }
  }

  /** After `n` files the ledger has what it had and the contents with bytes among them, and nothing else. */
  lemma {:induction false} RecordedKeys(files: map<FileKey, int>, call: FilesCall, n: nat, k: FileKey)
    requires n <= |call.files|
    ensures k in Recorded(files, call, n) <==>
              k in files || exists i :: 0 <= i < n && call.files[i].bytes > 0 && KeyOf(call, call.files[i]) == k
  {
    if n > 0 {
      RecordedKeys(files, call, n - 1, k);
    }
  }

  // ---- Swift parts --------------------------------------------------------------------------------------

  datatype PartCall = PartCall(pool: string, limit: int, day: string, key: PartKey, token: PartToken)

  predicate PartValid(call: PartCall) {
    0 <= call.key.part < MAX_PARTS && 1 <= call.token.length <= MAX_PART_BYTES
  }

  predicate PartConflicts(ledger: Ledger, call: PartCall) {
    call.key in ledger.parts && ledger.parts[call.key] != call.token
  }

  predicate PartFits(ledger: Ledger, call: PartCall) {
    call.limit <= 0 || Lookup(ledger.counters, PoolDay(call.pool, call.day)) + call.token.length <= call.limit
  }

  function AfterPart(ledger: Ledger, call: PartCall): Ledger {
    var key := PoolDay(call.pool, call.day);
    if !PartValid(call) || call.key in ledger.parts || !PartFits(ledger, call) then ledger
    else ledger.(counters := ledger.counters[key := Lookup(ledger.counters, key) + call.token.length],
                 parts := ledger.parts[call.key := call.token])
  }

  // ---- conservation ----------------------------------------------------------------------------------------

  function Lengths(parts: map<PartKey, PartToken>): map<PartKey, int> {
    map k | k in parts :: parts[k].length
  }

  /** Over all pools and days, the counters hold exactly the bytes of the recorded contents and parts;
      each recorded content is recorded with its own size. */
  ghost predicate Conserved(ledger: Ledger) {
    && Sum(ledger.counters) == Sum(ledger.files) + Sum(Lengths(ledger.parts))
    && (forall k | k in ledger.files :: ledger.files[k] == k.content.bytes > 0)
    && (forall k | k in ledger.parts :: 0 <= k.part < MAX_PARTS && 1 <= ledger.parts[k].length <= MAX_PART_BYTES)
  }

  lemma FilesConserve(ledger: Ledger, call: FilesCall)
    requires Conserved(ledger)
    ensures Conserved(AfterFiles(ledger, call))
  {
    var n := |call.files|;
    RecordedSums(ledger.files, call, n);
    RecordedSizes(ledger.files, call, n);
    SumAdd(ledger.counters, PoolDay(call.pool, call.day), NewBytes(ledger.files, call, n));
  }

  lemma PartConserves(ledger: Ledger, call: PartCall)
    requires Conserved(ledger)
    ensures Conserved(AfterPart(ledger, call))
  {
    if PartValid(call) && call.key !in ledger.parts && PartFits(ledger, call) {
      SumAdd(ledger.counters, PoolDay(call.pool, call.day), call.token.length);
      SumInsert(Lengths(ledger.parts), call.key, call.token.length);
      assert Lengths(ledger.parts[call.key := call.token]) == Lengths(ledger.parts)[call.key := call.token.length];
    }
  }

  datatype Call = Files(files: FilesCall) | Part(part: PartCall)

  function After(ledger: Ledger, calls: seq<Call>): Ledger {
    if calls == [] then ledger
    else var before := After(ledger, calls[..|calls| - 1]);
         match calls[|calls| - 1]
         case Files(call) => AfterFiles(before, call)
         case Part(call) => AfterPart(before, call)
  }

  const EMPTY: Ledger := Ledger(map[], map[], map[])

  /** Conservation after any sequence of calls, however batches were split, repeated, rejected or carried over midnight. */
  lemma {:induction false} BytesAreConserved(calls: seq<Call>)
    ensures Conserved(After(EMPTY, calls))
  {
    if calls == [] {
      assert Lengths(EMPTY.parts) == map[];
    } else {
      BytesAreConserved(calls[..|calls| - 1]);
      var before := After(EMPTY, calls[..|calls| - 1]);
      match calls[|calls| - 1]
      case Files(call) => FilesConserve(before, call);
      case Part(call) => PartConserves(before, call);
    }
  }

  /** Contents that are recorded already are charged nothing, in whatever order and however they are split. */
  lemma {:induction false} ReplayChargesNothing(files: map<FileKey, int>, call: FilesCall, n: nat)
    requires n <= |call.files| && forall c | c in call.files && c.bytes > 0 :: KeyOf(call, c) in files
    ensures NewBytes(files, call, n) == 0 && Recorded(files, call, n) == files
  {
    if n > 0 {
      ReplayChargesNothing(files, call, n - 1);
    }
  }

  /** An accepted limited call leaves every content it carries recorded, and one that charges new bytes ends within its limit. */
  lemma AcceptedCall(ledger: Ledger, call: FilesCall, c: Content)
    requires !Untracked(call) && FilesAccepted(ledger, call) && c in call.files && c.bytes > 0
    ensures KeyOf(call, c) in AfterFiles(ledger, call).files
    ensures AfterFiles(ledger, call) != ledger ==> Lookup(AfterFiles(ledger, call).counters, PoolDay(call.pool, call.day)) <= call.limit
  {
    var n := |call.files|;
    RecordedSums(ledger.files, call, n);
    RecordedKeys(ledger.files, call, n, KeyOf(call, c));
    var i :| 0 <= i < n && call.files[i] == c;
  }

  /** An accepted part is recorded with its token, and one that is charged to a limited pool ends within its limit. */
  lemma AcceptedPart(ledger: Ledger, call: PartCall)
    requires PartValid(call) && !PartConflicts(ledger, call) && (call.key in ledger.parts || PartFits(ledger, call))
    ensures call.key in AfterPart(ledger, call).parts && AfterPart(ledger, call).parts[call.key] == call.token
    ensures call.limit > 0 && AfterPart(ledger, call) != ledger ==>
              Lookup(AfterPart(ledger, call).counters, PoolDay(call.pool, call.day)) <= call.limit
  {
  }

  /** A call that names this pool and day is made under this limit. */
  predicate UnderLimit(call: Call, key: PoolDay, limit: int) {
    match call
    case Files(f) => PoolDay(f.pool, f.day) == key ==> f.limit == limit
    case Part(p) => PoolDay(p.pool, p.day) == key ==> p.limit == limit
  }

  /** A pool whose limit stays the same is never overdrawn, whatever mixture of files and parts is charged to it. */
  lemma {:induction false} PoolIsNeverOverdrawn(calls: seq<Call>, key: PoolDay, limit: int)
    requires limit > 0 && forall i | 0 <= i < |calls| :: UnderLimit(calls[i], key, limit)
    ensures Lookup(After(EMPTY, calls).counters, key) <= limit
  {
    if calls != [] {
      PoolIsNeverOverdrawn(calls[..|calls| - 1], key, limit);
      assert UnderLimit(calls[|calls| - 1], key, limit);
    }
  }

  /** `whole` carries the files of `first` and then those of `second`, for the same root and day. */
  predicate Joins(whole: FilesCall, first: FilesCall, second: FilesCall) {
    && whole.files == first.files + second.files
    && whole.tenant == first.tenant == second.tenant && whole.root == first.root == second.root && whole.day == first.day == second.day
  }

  lemma {:induction false} FirstHalf(files: map<FileKey, int>, whole: FilesCall, first: FilesCall, second: FilesCall, n: nat)
    requires Joins(whole, first, second) && n <= |first.files|
    ensures Recorded(files, whole, n) == Recorded(files, first, n) && NewBytes(files, whole, n) == NewBytes(files, first, n)
  {
    if n > 0 {
      FirstHalf(files, whole, first, second, n - 1);
    }
  }

  /** However a batch is split, the same contents are recorded and the same bytes are charged. */
  lemma {:induction false} SplitChargesTheSame(files: map<FileKey, int>, whole: FilesCall, first: FilesCall, second: FilesCall, n: nat)
    requires Joins(whole, first, second) && n <= |second.files|
    ensures var between := Recorded(files, first, |first.files|);
            && Recorded(files, whole, |first.files| + n) == Recorded(between, second, n)
            && NewBytes(files, whole, |first.files| + n) == NewBytes(files, first, |first.files|) + NewBytes(between, second, n)
  {
    if n > 0 {
      SplitChargesTheSame(files, whole, first, second, n - 1);
    } else {
      FirstHalf(files, whole, first, second, |first.files|);
    }
  }

  /** One field per part: no upload job ever has more than 512 recorded parts. */
  lemma JobLedgerIsBounded(ledger: Ledger, tenant: Tenant, root: string, job: JobId)
    requires Conserved(ledger)
    ensures |set k | k in ledger.parts && k.tenant == tenant && k.root == root && k.job == job| <= 512
  {
    var keys := set k | k in ledger.parts && k.tenant == tenant && k.root == root && k.job == job;
    PartsBound(keys, tenant, root, job, MAX_PARTS);
  }

  lemma {:induction false} PartsBound(keys: set<PartKey>, tenant: Tenant, root: string, job: JobId, n: nat)
    requires forall k | k in keys :: k == PartKey(tenant, root, job, k.part) && 0 <= k.part < n
    ensures |keys| <= n
  {
    if n > 0 {
      var last := PartKey(tenant, root, job, n - 1);
      PartsBound(keys - {last}, tenant, root, job, n - 1);
    } else {
      assert keys == {};
    }
  }

  // ---- the Redis keys, updated in place -----------------------------------------------------------------------

  class ByteLedger {
    var counters: map<PoolDay, int>
    var files: map<FileKey, int>
    var parts: map<PartKey, PartToken>

    constructor ()
      ensures Value() == EMPTY
    {
      counters, files, parts := map[], map[], map[];
    }

    function Value(): Ledger
      reads this
    {
      Ledger(counters, files, parts)
    }

    /** chargeIndexFiles and its reservation script. */
    method ChargeFiles(call: FilesCall) returns (d: Decision)
      modifies this
      ensures Value() == AfterFiles(old(Value()), call)
      ensures d.allowed <==> Untracked(call) || FilesAccepted(old(Value()), call)
      ensures !Untracked(call) ==>
                && d.used == Lookup(counters, PoolDay(call.pool, call.day))
                && d.charged == d.used - old(Lookup(counters, PoolDay(call.pool, call.day)))
      ensures Untracked(call) ==> d.charged == if Requested(call.files) <= 0 then 0 else Requested(call.files)
    {
      var requested := 0;
      for i := 0 to |call.files|
        invariant requested == Requested(call.files[..i])
      {
        assert call.files[..i + 1][..i] == call.files[..i];
        if call.files[i].bytes > 0 {
          requested := requested + call.files[i].bytes;
        }
      }
      assert call.files[..|call.files|] == call.files;
      if requested <= 0 {
        return Decision(true, 0, 0);
      }
      if call.limit <= 0 {
        return Decision(true, 0, requested);
      }
      var key := PoolDay(call.pool, call.day);
      var current := Lookup(counters, key);
      var unseen, charged := Collect(call);
      RecordedSums(files, call, |call.files|);
      if current + charged > call.limit {
        return Decision(false, current, 0);
      }
      if charged > 0 {
        files := files + unseen;
        counters := counters[key := current + charged];
        current := current + charged;
      }
      return Decision(true, current, charged);
    }

    /** The loop of the script over the files of a call. */
    method Collect(call: FilesCall) returns (unseen: map<FileKey, int>, charged: int)
      ensures files + unseen == Recorded(files, call, |call.files|) && charged == NewBytes(files, call, |call.files|)
    {
      unseen, charged := map[], 0;
      for i := 0 to |call.files|
        invariant files + unseen == Recorded(files, call, i) && charged == NewBytes(files, call, i)
      {
        var content := call.files[i];
        var key := KeyOf(call, content);
        if content.bytes > 0 && key !in unseen && key !in files {
          unseen := unseen[key := content.bytes];
          charged := charged + content.bytes;
        }
      }
    }

    /** reserveSwiftUpload's bounds and chargeSwiftPart's script. */
    method ChargePart(call: PartCall) returns (d: Decision, conflict: bool)
      modifies this
      ensures Value() == AfterPart(old(Value()), call)
      ensures conflict <==> PartValid(call) && PartConflicts(old(Value()), call)
      ensures d.allowed <==> PartValid(call) && !conflict && (call.key in old(parts) || PartFits(old(Value()), call))
      ensures d.charged == Lookup(counters, PoolDay(call.pool, call.day)) - old(Lookup(counters, PoolDay(call.pool, call.day)))
    {
      var key := PoolDay(call.pool, call.day);
      var current := Lookup(counters, key);
      if !PartValid(call) {
        return Decision(false, current, 0), false;
      }
      if call.key in parts {
        if parts[call.key] != call.token {
          return Decision(false, current, 0), true;
        }
        return Decision(true, current, 0), false;
      }
      if call.limit > 0 && current + call.token.length > call.limit {
        return Decision(false, current, 0), false;
      }
      counters := counters[key := current + call.token.length];
      parts := parts[call.key := call.token];
      return Decision(true, current + call.token.length, call.token.length), false;
    }
  }
}
