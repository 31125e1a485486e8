/** What the manifest comparison means, on path-to-entry maps. */
module Manifest {
  import opened RelayTypes

  /** Unreadable paths that were indexed before keep their old entry. */
  function Graft(previous: Snapshot, files: Snapshot, unreadable: set<Path>): Snapshot {
    files + map p | p in previous && p in unreadable && p !in files :: previous[p]
  }

  function Pending(previous: Snapshot, files: Snapshot): set<Path> {
    set p | p in files && (p !in previous || previous[p] != files[p])
  }

  function Deleted(previous: Snapshot, files: Snapshot): set<Path> {
    previous.Keys - files.Keys
  }

  /** Remove, then overlay. */
  function Patched(previous: Snapshot, removed: set<Path>, overlay: Snapshot): Snapshot {
    (previous - removed) + overlay
  }

  function Restricted(files: Snapshot, paths: set<Path>): Snapshot {
    map p | p in files && p in paths :: files[p]
  }

  /** Removing `deleted` and overlaying `pending` turns the old snapshot into the manifest. */
  lemma PatchReproducesManifest(previous: Snapshot, files: Snapshot)
    ensures Patched(previous, Deleted(previous, files), Restricted(files, Pending(previous, files))) == files
  {
  }

  /** Every patch that does so, overlaying manifest entries, removes and overlays at least as much. */
  lemma PatchIsMinimal(previous: Snapshot, files: Snapshot, removed: set<Path>, overlaid: set<Path>)
    requires Patched(previous, removed, Restricted(files, overlaid)) == files
    ensures Pending(previous, files) <= overlaid && Deleted(previous, files) <= removed
  {
  }

  /** An unreadable path that was indexed and is not in the manifest is neither uploaded nor deleted;
      any other path is pending or deleted exactly as without grafting. */
  lemma UnreadableIsKept(previous: Snapshot, files: Snapshot, unreadable: set<Path>, p: Path)
    ensures var grafted := Graft(previous, files, unreadable);
            if p in previous && p in unreadable && p !in files
            then p in grafted && grafted[p] == previous[p] && p !in Pending(previous, grafted) && p !in Deleted(previous, grafted)
            else (p in Pending(previous, grafted) <==> p in Pending(previous, files)) && (p in Deleted(previous, grafted) <==> p in Deleted(previous, files))
  {
  }
}
