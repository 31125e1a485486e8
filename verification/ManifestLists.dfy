/** Manifest normalisation, grafting and comparison on the lists that the relay works with. */
module ManifestLists {
  import opened RelayTypes
  import opened Ordering
  import opened Manifest

  datatype File = File(path: Path, entry: Entry, chunks: int)

  /** A manifest entry as the client sent it. */
  datatype RawFile = RawFile(path: string, hash: string, size: int, chunks: int)

  datatype Outcome<T> = Success(value: T) | TooMany | MissingField | DuplicatePath(path: Path)

  const MAX_FILES: nat := 100_000

  function Paths(files: seq<File>): seq<Path> {
    seq(|files|, i requires 0 <= i < |files| => files[i].path)
  }

  ghost predicate UniquePaths(files: seq<File>) {
    forall i, j | 0 <= i < j < |files| :: files[i].path != files[j].path
  }

  /** The entry of each path. */
  function Snap(files: seq<File>): Snapshot {
    if files == [] then map[]
    else Snap(files[..|files| - 1])[files[|files| - 1].path := files[|files| - 1].entry]
  }

  lemma SnapAppend(files: seq<File>, f: File)
    ensures Snap(files + [f]) == Snap(files)[f.path := f.entry]
  {
  }

  lemma {:induction false} SnapPaths(files: seq<File>, p: Path)
    ensures p in Snap(files) <==> p in Paths(files)
  {
    if files != [] {
      var most := files[..|files| - 1];
      SnapPaths(most, p);
      assert Paths(files) == Paths(most) + [files[|files| - 1].path];
    }
  }

  lemma {:induction false} SnapAt(files: seq<File>, i: nat)
    requires UniquePaths(files) && i < |files|
    ensures files[i].path in Snap(files) && Snap(files)[files[i].path] == files[i].entry
  {
    if i < |files| - 1 {
      SnapAt(files[..|files| - 1], i);
    }
  }

  lemma {:induction false} SnapSize(files: seq<File>)
    requires UniquePaths(files)
    ensures |Snap(files)| == |files|
  {
    if files != [] {
      var n := |files| - 1;
      SnapSize(files[..n]);
      SnapPaths(files[..n], files[n].path);
    }
  }

  lemma SameFilesSameSnap(a: seq<File>, b: seq<File>)
    requires UniquePaths(a) && UniquePaths(b) && multiset(a) == multiset(b)
    ensures Snap(a) == Snap(b)
  {
    forall p | p in Snap(a) ensures p in Snap(b) && Snap(a)[p] == Snap(b)[p] { SharedEntry(a, b, p); }
    forall p | p in Snap(b) ensures p in Snap(a) { SharedEntry(b, a, p); }
  }

  lemma SharedEntry(a: seq<File>, b: seq<File>, p: Path)
    requires UniquePaths(a) && UniquePaths(b) && multiset(a) == multiset(b) && p in Snap(a)
    ensures p in Snap(b) && Snap(a)[p] == Snap(b)[p]
  {
    SnapPaths(a, p);
    var i :| 0 <= i < |a| && Paths(a)[i] == p;
    assert a[i] in multiset(b);
    var j :| 0 <= j < |b| && b[j] == a[i];
    SnapAt(a, i);
    SnapAt(b, j);
  }

  lemma AscendingIsUnique(files: seq<File>)
    requires Ascending(Paths(files))
    ensures UniquePaths(files)
  {
    forall i, j | 0 <= i < j < |files| ensures files[i].path != files[j].path {
      assert Before(Paths(files)[i], Paths(files)[j]);
      Irreflexive(files[i].path);
    }
  }

  // ---- sorting ------------------------------------------------------------------------------------------

  function Placed(sorted: seq<File>, f: File): seq<File> {
    var k := Rank(Paths(sorted), f.path);
    sorted[..k] + [f] + sorted[k..]
  }

  lemma PlacedSorts(sorted: seq<File>, f: File)
    requires Ascending(Paths(sorted)) && f.path !in Paths(sorted)
    ensures Ascending(Paths(Placed(sorted, f))) && multiset(Placed(sorted, f)) == multiset(sorted) + multiset{f}
  {
    var k := Rank(Paths(sorted), f.path);
    InsertedAscends(Paths(sorted), f.path);
    assert Paths(Placed(sorted, f)) == Inserted(Paths(sorted), f.path);
    assert sorted == sorted[..k] + sorted[k..];
  }

  lemma NotYetSorted(files: seq<File>, i: nat, sorted: seq<File>)
    requires UniquePaths(files) && i < |files| && multiset(sorted) == multiset(files[..i])
    ensures files[i].path !in Paths(sorted)
  {
    forall k | 0 <= k < |sorted| ensures sorted[k].path != files[i].path {
      assert sorted[k] in multiset(files[..i]);
    }
  }

  method SortByPath(files: seq<File>) returns (sorted: seq<File>)
    requires UniquePaths(files)
    ensures Ascending(Paths(sorted)) && multiset(sorted) == multiset(files)
  {
    sorted := [];
    for i := 0 to |files|
      invariant Ascending(Paths(sorted)) && multiset(sorted) == multiset(files[..i])
    {
      NotYetSorted(files, i, sorted);
      PlacedSorts(sorted, files[i]);
      sorted := Placed(sorted, files[i]);
      assert files[..i + 1] == files[..i] + [files[i]];
    }
    assert files[..|files|] == files;
  }

  // ---- normalizeManifest -------------------------------------------------------------------------------------

  function Cleaned(raw: RawFile, normalise: string -> string, trim: string -> string): File {
    File(normalise(raw.path), Entry(trim(raw.hash), if raw.size < 0 then 0 else raw.size), if raw.chunks < 1 then 1 else raw.chunks)
  }

  function CleanedAll(raw: seq<RawFile>, normalise: string -> string, trim: string -> string): seq<File> {
    seq(|raw|, i requires 0 <= i < |raw| => Cleaned(raw[i], normalise, trim))
  }

  predicate Complete(f: File) {
    f.path != "" && f.entry.hash != ""
  }

  /** Accepts exactly the manifests that are small enough, complete and free of duplicate paths,
      and returns their cleaned files in path order. */
  method NormalizeManifest(raw: seq<RawFile>, normalise: string -> string, trim: string -> string) returns (r: Outcome<seq<File>>)
    ensures r.TooMany? <==> |raw| > MAX_FILES
    ensures var all := CleanedAll(raw, normalise, trim);
            r.Success? <==> |raw| <= MAX_FILES && (forall f | f in all :: Complete(f)) && UniquePaths(all)
    ensures r.Success? ==> Ascending(Paths(r.value)) && multiset(r.value) == multiset(CleanedAll(raw, normalise, trim))
    ensures r.DuplicatePath? ==> exists i, j | 0 <= i < j < |raw| :: normalise(raw[i].path) == normalise(raw[j].path) == r.path
    ensures r.MissingField? ==> exists f | f in CleanedAll(raw, normalise, trim) :: !Complete(f)
  {
    if |raw| > MAX_FILES {
      return TooMany;
    }
    ghost var all := CleanedAll(raw, normalise, trim);
    var seen: set<Path> := {};
    var out: seq<File> := [];
    for i := 0 to |raw|
      invariant out == all[..i] && UniquePaths(out)
      invariant forall k | 0 <= k < i :: Complete(out[k])
      invariant forall p :: p in seen <==> exists k :: 0 <= k < i && out[k].path == p
    {
      var file := Cleaned(raw[i], normalise, trim);
      assert file == all[i];
      if !Complete(file) {
        return MissingField;
      }
      if file.path in seen {
        ghost var k :| 0 <= k < i && out[k].path == file.path;
        assert all[k].path == all[i].path;
        return DuplicatePath(file.path);
      }
      seen := seen + {file.path};
      out := out + [file];
    }
    assert all[..|raw|] == all;
    var sorted := SortByPath(out);
    return Success(sorted);
  }

  // ---- graftUnreadablePaths -----------------------------------------------------------------------------------

  /** The indexed snapshot as loaded: rows keyed by their path. */
  ghost predicate Keyed(previous: map<Path, File>) {
    forall p | p in previous :: previous[p].path == p
  }

  function Indexed(previous: map<Path, File>): Snapshot {
    map p | p in previous :: previous[p].entry
  }

  function Unreadable(raw: seq<string>, normalise: string -> string): set<Path> {
    (set u | u in raw :: normalise(u)) - {""}
  }

  lemma UnreadableStep(raw: seq<string>, i: nat, normalise: string -> string)
    requires i < |raw|
    ensures Unreadable(raw[..i + 1], normalise) ==
              Unreadable(raw[..i], normalise) + if normalise(raw[i]) == "" then {} else {normalise(raw[i])}
  {
  }

  /** `out` is the manifest `files` with the old entries of the unreadable paths `seen`. */
  ghost predicate GraftedSoFar(previous: map<Path, File>, files: seq<File>, seen: set<Path>, out: seq<File>) {
    UniquePaths(out) && Snap(out) == Graft(Indexed(previous), Snap(files), seen)
  }

  lemma GraftAdds(previous: Snapshot, files: Snapshot, seen: set<Path>, p: Path)
    requires p in previous && p !in files && p !in seen
    ensures Graft(previous, files, seen + {p}) == Graft(previous, files, seen)[p := previous[p]]
    ensures p !in Graft(previous, files, seen)
  {
  }

  lemma GraftOne(previous: map<Path, File>, files: seq<File>, seen: set<Path>, out: seq<File>, p: Path)
    requires GraftedSoFar(previous, files, seen, out) && Keyed(previous) && p in previous && p !in Snap(files) && p !in seen
    ensures GraftedSoFar(previous, files, seen + {p}, out + [previous[p]])
  {
    SnapAppend(out, previous[p]);
    SnapPaths(out, p);
    GraftAdds(Indexed(previous), Snap(files), seen, p);
    forall i | 0 <= i < |out| ensures out[i].path != p { assert Paths(out)[i] == out[i].path; }
  }

  lemma SkipStep(previous: map<Path, File>, files: seq<File>, raw: seq<string>, i: nat, normalise: string -> string, out: seq<File>)
    requires i < |raw| && GraftedSoFar(previous, files, Unreadable(raw[..i], normalise), out)
    requires var p := normalise(raw[i]);
             p == "" || p !in previous || p in Snap(files) || p in Unreadable(raw[..i], normalise)
    ensures GraftedSoFar(previous, files, Unreadable(raw[..i + 1], normalise), out)
  {
  }

  lemma GraftStep(previous: map<Path, File>, files: seq<File>, raw: seq<string>, i: nat, normalise: string -> string, out: seq<File>)
    requires i < |raw| && Keyed(previous) && GraftedSoFar(previous, files, Unreadable(raw[..i], normalise), out)
    requires var p := normalise(raw[i]);
             p != "" && p in previous && p !in Snap(files) && p !in Unreadable(raw[..i], normalise)
    ensures GraftedSoFar(previous, files, Unreadable(raw[..i + 1], normalise), out + [previous[normalise(raw[i])]])
  {
    UnreadableStep(raw, i, normalise);
    GraftOne(previous, files, Unreadable(raw[..i], normalise), out, normalise(raw[i]));
  }

  /** Adds the old entry of every unreadable path that was indexed and is not in the manifest, and nothing else. */
  method GraftUnreadablePaths(previous: map<Path, File>, files: seq<File>, raw: seq<string>, normalise: string -> string)
    returns (r: Outcome<seq<File>>)
    requires Keyed(previous) && Ascending(Paths(files))
    ensures raw == [] ==> r == Success(files)
    ensures r.TooMany? <==> raw != [] && (|raw| > MAX_FILES || |Graft(Indexed(previous), Snap(files), Unreadable(raw, normalise))| > MAX_FILES)
    ensures r.TooMany? || r.Success?
    ensures r.Success? ==> Ascending(Paths(r.value)) && Snap(r.value) == Graft(Indexed(previous), Snap(files), Unreadable(raw, normalise))
  {
    assert Graft(Indexed(previous), Snap(files), {}) == Snap(files);
    if raw == [] {
      return Success(files);
    }
    if |raw| > MAX_FILES {
      return TooMany;
    }
    AscendingIsUnique(files);
    var out, grafted := AppendUnreadable(previous, files, raw, normalise);
    SnapSize(out);
    if |out| > MAX_FILES {
      return TooMany;
    }
    if grafted {
      var sorted := SortByPath(out);
      AscendingIsUnique(sorted);
      SameFilesSameSnap(sorted, out);
      return Success(sorted);
    }
    return Success(out);
  }

  method AppendUnreadable(previous: map<Path, File>, files: seq<File>, raw: seq<string>, normalise: string -> string)
    returns (out: seq<File>, grafted: bool)
    requires Keyed(previous) && UniquePaths(files)
    ensures GraftedSoFar(previous, files, Unreadable(raw, normalise), out)
    ensures !grafted ==> out == files
  {
    var current := Snap(files).Keys;
    out, grafted := files, false;
    assert Graft(Indexed(previous), Snap(files), {}) == Snap(files);
    for i := 0 to |raw|
      invariant current == Snap(files).Keys + Unreadable(raw[..i], normalise)
      invariant GraftedSoFar(previous, files, Unreadable(raw[..i], normalise), out)
      invariant !grafted ==> out == files
    {
      var p := normalise(raw[i]);
      UnreadableStep(raw, i, normalise);
      if p == "" || p in current {
        SkipStep(previous, files, raw, i, normalise, out);
        continue;
      }
      current := current + {p};
      if p in previous {
        GraftStep(previous, files, raw, i, normalise, out);
        out, grafted := out + [previous[p]], true;
      } else {
        SkipStep(previous, files, raw, i, normalise, out);
      }
    }
    assert raw[..|raw|] == raw;
  }

  // ---- diffManifest ----------------------------------------------------------------------------------------------

  predicate Changed(previous: map<Path, File>, f: File) {
    f.path !in previous || previous[f.path].entry != f.entry
  }

  function ChangedFiles(previous: map<Path, File>, files: seq<File>): seq<File> {
    if files == [] then []
    else var rest := ChangedFiles(previous, files[..|files| - 1]);
         if Changed(previous, files[|files| - 1]) then rest + [files[|files| - 1]] else rest
  }

  function Chunks(files: seq<File>): int {
    if files == [] then 0 else Chunks(files[..|files| - 1]) + files[|files| - 1].chunks
  }

  lemma AppendFile(files: seq<File>, f: File)
    ensures Paths(files + [f]) == Paths(files) + [f.path] && Chunks(files + [f]) == Chunks(files) + f.chunks
  {
  }

  /** One iteration of the comparison. */
  lemma ChangedStep(previous: map<Path, File>, files: seq<File>, i: nat)
    requires i < |files|
    ensures var before, after := ChangedFiles(previous, files[..i]), ChangedFiles(previous, files[..i + 1]);
            && Paths(after) == Paths(before) + (if Changed(previous, files[i]) then [files[i].path] else [])
            && Chunks(after) == Chunks(before) + (if Changed(previous, files[i]) then files[i].chunks else 0)
  {
    assert files[..i + 1][..i] == files[..i];
    AppendFile(ChangedFiles(previous, files[..i]), files[i]);
  }

  lemma SnapStep(files: seq<File>, i: nat)
    requires i < |files|
    ensures Snap(files[..i + 1]) == Snap(files[..i])[files[i].path := files[i].entry]
  {
    assert files[..i + 1][..i] == files[..i];
  }

  lemma {:induction false} ChangedIsPending(previous: map<Path, File>, files: seq<File>, p: Path)
    requires UniquePaths(files)
    ensures p in Paths(ChangedFiles(previous, files)) <==> p in Pending(Indexed(previous), Snap(files))
  {
    if files != [] {
      var n := |files| - 1;
      var f, changed := files[n], ChangedFiles(previous, files[..n]);
      ChangedIsPending(previous, files[..n], p);
      SnapPaths(files[..n], f.path);
      AppendFile(changed, f);
    }
  }

  lemma {:induction false} ChangedAscends(previous: map<Path, File>, files: seq<File>)
    requires Ascending(Paths(files))
    ensures Ascending(Paths(ChangedFiles(previous, files)))
    ensures forall f | f in ChangedFiles(previous, files) :: f in files
  {
    if files != [] {
      var n := |files| - 1;
      var f, changed := files[n], ChangedFiles(previous, files[..n]);
      assert Paths(files[..n]) == Paths(files)[..n];
      ChangedAscends(previous, files[..n]);
      AppendFile(changed, f);
      forall i | 0 <= i < |changed| ensures Before(Paths(changed)[i], f.path) {
        assert changed[i] in files[..n];
        var k :| 0 <= k < n && files[k] == changed[i];
        assert Before(Paths(files)[k], Paths(files)[n]);
      }
    }
  }

  /** Pending paths in manifest order with their chunk estimate, and deleted paths in order. */
  method DiffManifest(previous: map<Path, File>, current: seq<File>) returns (pending: seq<Path>, deleted: seq<Path>, chunks: int)
    requires Ascending(Paths(current))
    ensures Ascending(pending) && forall p :: p in pending <==> p in Pending(Indexed(previous), Snap(current))
    ensures Ascending(deleted) && forall p :: p in deleted <==> p in Deleted(Indexed(previous), Snap(current))
    ensures chunks == Chunks(ChangedFiles(previous, current))
  {
    var gone;
    pending, gone, chunks := CompareFiles(previous, current);
    AscendingIsUnique(current);
    forall p ensures p in pending <==> p in Pending(Indexed(previous), Snap(current)) { ChangedIsPending(previous, current, p); }
    ChangedAscends(previous, current);
    deleted := SortedPaths(gone);
  }

  method CompareFiles(previous: map<Path, File>, current: seq<File>) returns (pending: seq<Path>, gone: set<Path>, chunks: int)
    ensures pending == Paths(ChangedFiles(previous, current)) && chunks == Chunks(ChangedFiles(previous, current))
    ensures gone == previous.Keys - Snap(current).Keys
  {
    gone, pending, chunks := previous.Keys, [], 0;
    for i := 0 to |current|
      invariant gone == previous.Keys - Snap(current[..i]).Keys
      invariant pending == Paths(ChangedFiles(previous, current[..i])) && chunks == Chunks(ChangedFiles(previous, current[..i]))
    {
      var file := current[i];
      SnapStep(current, i);
      ChangedStep(previous, current, i);
      gone := gone - {file.path};
      var known := if file.path in previous then Some(previous[file.path].entry) else None;
      if known.None? || known.value.hash != file.entry.hash || known.value.size != file.entry.size {
        pending, chunks := pending + [file.path], chunks + file.chunks;
      }
    }
    assert current[..|current|] == current;
  }

  method SortedPaths(paths: set<Path>) returns (sorted: seq<Path>)
    ensures Ascending(sorted) && forall p :: p in sorted <==> p in paths
  {
    sorted := [];
    var rest := paths;
    while rest != {}
      invariant Ascending(sorted) && rest <= paths
      invariant forall p :: p in sorted <==> p in paths && p !in rest
    {
      var p :| p in rest;
      InsertedAscends(sorted, p);
      sorted := Inserted(sorted, p);
      rest := rest - {p};
    }
  }
}
