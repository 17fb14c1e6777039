/** Cleaning up the target's directory after the move and repairing the
    instance symlinks that still point into the source's directory
    (main.go:446-494). */
module Cleanup {
  import opened Common
  import opened Text
  import opened Trace
  import opened Host

  /** Possible symlinks left by the source; removing them may fail and is
      not checked (main.go:449-452). */
  const StaleLinks: seq<string> := ["backups", "images"]

  /** Directories the target recreates itself (main.go:454-459). */
  const Obsolete: seq<string> := ["devices", "devlxd", "security", "shmounts"]

  /** Directories whose entries may be symlinks into the source's directory
      (main.go:461). */
  const Relinked: seq<string> :=
    ["containers", "containers-snapshots", "snapshots", "virtual-machines", "virtual-machines-snapshots"]

  function Done(): Progress {
    Progress([], None)
  }

  /** The new target of a repaired symlink: the first occurrence of the
      source's daemon directory replaced by the target's (main.go:483). */
  function Retarget(oldTarget: string, sourceDaemon: string, targetDaemon: string): string {
    ReplaceFirst(oldTarget, sourceDaemon, targetDaemon)
  }

  /** A link that does not mention the source's directory is kept; otherwise
      its first mention, and only that one, becomes the target's directory. */
  lemma RetargetFirst(oldTarget: string, sourceDaemon: string, targetDaemon: string)
    ensures var r := Retarget(oldTarget, sourceDaemon, targetDaemon);
      && (!Contains(oldTarget, sourceDaemon) ==> r == oldTarget)
      && (forall i: nat :: FirstOccurrence(oldTarget, sourceDaemon, i) ==>
            r == oldTarget[..i] + targetDaemon + oldTarget[i + |sourceDaemon|..])
  {
    ReplaceFirstSpec(oldTarget, sourceDaemon, targetDaemon);
  }

  /** An old target under the source's directory is moved under the
      target's, the rest of the path kept. */
  lemma RetargetUnderSource(oldTarget: string, sourceDaemon: string, targetDaemon: string)
    requires HasPrefix(oldTarget, sourceDaemon)
    ensures Retarget(oldTarget, sourceDaemon, targetDaemon) == targetDaemon + oldTarget[|sourceDaemon|..]
  {
    ReplaceFirstAtPrefix(oldTarget, sourceDaemon, targetDaemon);
  }

  /** Repairing a repaired link again changes nothing, as long as the
      target's directory does not itself contain the source's. */
  lemma RetargetSettles(oldTarget: string, sourceDaemon: string, targetDaemon: string)
    requires HasPrefix(oldTarget, sourceDaemon)
    requires !Contains(targetDaemon + oldTarget[|sourceDaemon|..], sourceDaemon)
    ensures var once := Retarget(oldTarget, sourceDaemon, targetDaemon);
      Retarget(once, sourceDaemon, targetDaemon) == once
  {
    RetargetUnderSource(oldTarget, sourceDaemon, targetDaemon);
    RetargetFirst(targetDaemon + oldTarget[|sourceDaemon|..], sourceDaemon, targetDaemon);
  }

  /** When the target's directory lies under the source's, every further
      repair nests the path once more. */
  lemma RetargetNestsUnderSource()
    ensures var once := Retarget("/x/c", "/x", "/x/y");
      Retarget(once, "/x", "/x/y") != once
  {
    RetargetUnderSource("/x/c", "/x", "/x/y");
    var once := "/x/y" + "/c";
    assert HasPrefix(once, "/x") by { assert once[..2] == "/x"; }
    RetargetUnderSource(once, "/x", "/x/y");
    assert |Retarget(once, "/x", "/x/y")| == 8;
  }

  /** The stale symlinks the cleanup tries to remove, in order. */
  function StaleRemovals(daemon: string, dirs: seq<string>): (r: seq<Step>)
    ensures |r| == |dirs|
    ensures forall k :: 0 <= k < |dirs| ==> r[k] == RemoveLink(JoinPath(daemon, dirs[k]))
  {
    if dirs == [] then []
    else StaleRemovals(daemon, dirs[..|dirs| - 1]) + [RemoveLink(JoinPath(daemon, dirs[|dirs| - 1]))]
  }

  function RemoveObsoleteDir(daemon: string, dir: string, host: Host): Progress {
    var path := JoinPath(daemon, dir);
    if RemoveFails(host.removeAll(path)) then Progress([RemoveTree(path)], Some(Delete(dir)))
    else Progress([RemoveTree(path)], None)
  }

  /** main.go:454-459: each directory is removed in turn; a directory that
      was already missing is fine, any other error ends the run. */
  function RemoveObsolete(daemon: string, dirs: seq<string>, host: Host): Progress {
    if dirs == [] then Done()
    else Then(RemoveObsoleteDir(daemon, dirs[0], host), RemoveObsolete(daemon, dirs[1..], host))
  }

  /** The directories are removed in the order listed, and each step names
      its directory. */
  lemma {:induction false} ObsoleteRemovedInOrder(daemon: string, dirs: seq<string>, host: Host)
    ensures var r := RemoveObsolete(daemon, dirs, host);
      |r.steps| <= |dirs|
      && forall k :: 0 <= k < |r.steps| ==> r.steps[k] == RemoveTree(JoinPath(daemon, dirs[k]))
    decreases |dirs|
  {
    if dirs != [] {
      ObsoleteRemovedInOrder(daemon, dirs[1..], host);
      var r := RemoveObsolete(daemon, dirs, host);
      var rest := RemoveObsolete(daemon, dirs[1..], host);
      forall k | 0 <= k < |r.steps| ensures r.steps[k] == RemoveTree(JoinPath(daemon, dirs[k])) {
        if k > 0 {
          assert r.steps[k] == rest.steps[k - 1];
          assert dirs[k] == dirs[1..][k - 1];
        }
      }
    }
  }

  /** Removing the directories succeeds exactly when none of them fails with
      anything but "does not exist"; every directory is then attempted. */
  lemma {:induction false} ObsoleteRemovalSucceeds(daemon: string, dirs: seq<string>, host: Host)
    ensures var r := RemoveObsolete(daemon, dirs, host);
      (r.failure.None? <==> forall d :: d in dirs ==> !RemoveFails(host.removeAll(JoinPath(daemon, d))))
      && (r.failure.None? ==> |r.steps| == |dirs|)
    decreases |dirs|
  {
    if dirs != [] {
      ObsoleteRemovalSucceeds(daemon, dirs[1..], host);
      assert forall d :: d in dirs <==> d == dirs[0] || d in dirs[1..];
    }
  }

  /** A failed removal ends the phase: the error names the last directory
      attempted, and every one before it was removed. */
  lemma {:induction false} ObsoleteRemovalStops(daemon: string, dirs: seq<string>, host: Host)
    ensures var r := RemoveObsolete(daemon, dirs, host);
      r.failure.Some? ==> (0 < |r.steps| <= |dirs|
        && r.failure.value == Delete(dirs[|r.steps| - 1])
        && RemoveFails(host.removeAll(JoinPath(daemon, dirs[|r.steps| - 1])))
        && forall k :: 0 <= k < |r.steps| - 1 ==> !RemoveFails(host.removeAll(JoinPath(daemon, dirs[k]))))
    decreases |dirs|
  {
    if dirs != [] {
      ObsoleteRemovalStops(daemon, dirs[1..], host);
      var r := RemoveObsolete(daemon, dirs, host);
      var rest := RemoveObsolete(daemon, dirs[1..], host);
      if r.failure.Some? && !RemoveFails(host.removeAll(JoinPath(daemon, dirs[0]))) {
        assert |r.steps| == 1 + |rest.steps|;
        assert dirs[|r.steps| - 1] == dirs[1..][|rest.steps| - 1];
        forall k | 0 <= k < |r.steps| - 1 ensures !RemoveFails(host.removeAll(JoinPath(daemon, dirs[k]))) {
          if k > 0 { assert dirs[k] == dirs[1..][k - 1]; }
        }
      }
    }
  }

  /** The target a symlink is recreated with, once it could be read. */
  predicate Repairable(path: string, sourceDaemon: string, targetDaemon: string, host: Host) {
    host.readlink(path).Some?
    && host.remove(path)
    && host.symlink(Retarget(host.readlink(path).value, sourceDaemon, targetDaemon), path)
  }

  /** main.go:478-492: read the link, remove it, create it again pointing at
      the rewritten target. */
  function RepairLink(path: string, sourceDaemon: string, targetDaemon: string, host: Host): Progress {
    match host.readlink(path)
    case None => Progress([], Some(LinkResolve(path)))
    case Some(oldTarget) =>
      var newTarget := Retarget(oldTarget, sourceDaemon, targetDaemon);
      if !host.remove(path) then Progress([RemoveLink(path)], Some(LinkDelete(path)))
      else if !host.symlink(newTarget, path) then
        Progress([RemoveLink(path), CreateLink(newTarget, path)], Some(LinkCreate(path)))
      else Progress([RemoveLink(path), CreateLink(newTarget, path)], None)
  }

  /** main.go:472-476: an entry that is not a symlink is left alone. */
  function RepairEntry(dir: string, entry: Entry, sourceDaemon: string, targetDaemon: string, host: Host): Progress {
    if entry.symlink then RepairLink(JoinPath(dir, entry.name), sourceDaemon, targetDaemon, host) else Done()
  }

  function RepairEntries(dir: string, entries: seq<Entry>, sourceDaemon: string, targetDaemon: string, host: Host): Progress {
    if entries == [] then Done()
    else Then(RepairEntry(dir, entries[0], sourceDaemon, targetDaemon, host),
              RepairEntries(dir, entries[1..], sourceDaemon, targetDaemon, host))
  }

  /** main.go:462-469: a missing directory is skipped, one that cannot be
      read ends the run. */
  function RepairDir(daemon: string, name: string, sourceDaemon: string, targetDaemon: string, host: Host): Progress {
    var path := JoinPath(daemon, name);
    match host.readDir(path)
    case Missing => Done()
    case Unreadable => Progress([], Some(ReadEntries(path)))
    case Entries(entries) => RepairEntries(path, entries, sourceDaemon, targetDaemon, host)
  }

  function RepairDirs(daemon: string, dirs: seq<string>, sourceDaemon: string, targetDaemon: string, host: Host): Progress {
    if dirs == [] then Done()
    else Then(RepairDir(daemon, dirs[0], sourceDaemon, targetDaemon, host),
              RepairDirs(daemon, dirs[1..], sourceDaemon, targetDaemon, host))
  }

  /** The whole cleanup phase (main.go:446-494). */
  function CleanupTarget(sourceDaemon: string, targetDaemon: string, host: Host): Progress {
    Then(Progress(StaleRemovals(targetDaemon, StaleLinks), None),
         Then(RemoveObsolete(targetDaemon, Obsolete, host),
              RepairDirs(targetDaemon, Relinked, sourceDaemon, targetDaemon, host)))
  }

  /** A step of a symlink repair: removing the symlink entry `entry` of
      `dir`, or recreating it with its rewritten target. */
  ghost predicate LinkStep(s: Step, dir: string, entry: Entry, sourceDaemon: string, targetDaemon: string, host: Host) {
    var path := JoinPath(dir, entry.name);
    entry.symlink && host.readlink(path).Some?
    && (s == RemoveLink(path)
        || s == CreateLink(Retarget(host.readlink(path).value, sourceDaemon, targetDaemon), path))
  }

  /** Only symlink entries are touched, and each is recreated pointing at
      the rewritten form of the target it had. */
  lemma {:induction false} RepairTouchesOnlySymlinks(dir: string, entries: seq<Entry>, sourceDaemon: string, targetDaemon: string, host: Host)
    ensures forall s :: s in RepairEntries(dir, entries, sourceDaemon, targetDaemon, host).steps ==>
      exists e :: e in entries && LinkStep(s, dir, e, sourceDaemon, targetDaemon, host)
    decreases |entries|
  {
    if entries != [] {
      RepairTouchesOnlySymlinks(dir, entries[1..], sourceDaemon, targetDaemon, host);
      var head := RepairEntry(dir, entries[0], sourceDaemon, targetDaemon, host);
      var rest := RepairEntries(dir, entries[1..], sourceDaemon, targetDaemon, host);
      forall s | s in RepairEntries(dir, entries, sourceDaemon, targetDaemon, host).steps
        ensures exists e :: e in entries && LinkStep(s, dir, e, sourceDaemon, targetDaemon, host)
      {
        if s in head.steps {
          assert LinkStep(s, dir, entries[0], sourceDaemon, targetDaemon, host);
        } else {
          var e :| e in entries[1..] && LinkStep(s, dir, e, sourceDaemon, targetDaemon, host);
          assert e in entries;
        }
      }
    }
  }

  /** The repair of a directory succeeds exactly when every symlink in it can
      be read, removed and recreated; it then recreates every one of them. */
  lemma {:induction false} RepairSucceeds(dir: string, entries: seq<Entry>, sourceDaemon: string, targetDaemon: string, host: Host)
    ensures var r := RepairEntries(dir, entries, sourceDaemon, targetDaemon, host);
      r.failure.None? <==>
        forall e :: e in entries && e.symlink ==> Repairable(JoinPath(dir, e.name), sourceDaemon, targetDaemon, host)
    ensures var r := RepairEntries(dir, entries, sourceDaemon, targetDaemon, host);
      r.failure.None? ==>
        forall e :: e in entries && e.symlink ==>
          var path := JoinPath(dir, e.name);
          CreateLink(Retarget(host.readlink(path).value, sourceDaemon, targetDaemon), path) in r.steps
    decreases |entries|
  {
    if entries != [] {
      RepairSucceeds(dir, entries[1..], sourceDaemon, targetDaemon, host);
      assert forall e :: e in entries <==> e == entries[0] || e in entries[1..];
    }
  }

  /** Directories that do not exist are skipped without a step. */
  lemma {:induction false} MissingDirsSkipped(daemon: string, dirs: seq<string>, sourceDaemon: string, targetDaemon: string, host: Host)
    requires forall k :: 0 <= k < |dirs| ==> host.readDir(JoinPath(daemon, dirs[k])).Missing?
    ensures RepairDirs(daemon, dirs, sourceDaemon, targetDaemon, host) == Done()
    decreases |dirs|
  {
    if dirs != [] {
      MissingDirsSkipped(daemon, dirs[1..], sourceDaemon, targetDaemon, host);
    }
  }

  /** The errors the cleanup can end the run with. */
  predicate CleanupFailure(f: Failure) {
    f.Delete? || f.ReadEntries? || f.LinkResolve? || f.LinkDelete? || f.LinkCreate?
  }

  lemma {:induction false} RepairEntriesPhase(dir: string, entries: seq<Entry>, sourceDaemon: string, targetDaemon: string, host: Host)
    ensures var r := RepairEntries(dir, entries, sourceDaemon, targetDaemon, host);
      Within(r.steps, 16, 16) && (r.failure.Some? ==> CleanupFailure(r.failure.value))
    decreases |entries|
  {
    if entries != [] {
      RepairEntriesPhase(dir, entries[1..], sourceDaemon, targetDaemon, host);
      ThenWithin(RepairEntry(dir, entries[0], sourceDaemon, targetDaemon, host),
                 RepairEntries(dir, entries[1..], sourceDaemon, targetDaemon, host), 16, 16);
    }
  }

  lemma {:induction false} RepairDirsPhase(daemon: string, dirs: seq<string>, sourceDaemon: string, targetDaemon: string, host: Host)
    ensures var r := RepairDirs(daemon, dirs, sourceDaemon, targetDaemon, host);
      Within(r.steps, 16, 16) && (r.failure.Some? ==> CleanupFailure(r.failure.value))
    decreases |dirs|
  {
    if dirs != [] {
      var path := JoinPath(daemon, dirs[0]);
      if host.readDir(path).Entries? {
        RepairEntriesPhase(path, host.readDir(path).entries, sourceDaemon, targetDaemon, host);
      }
      RepairDirsPhase(daemon, dirs[1..], sourceDaemon, targetDaemon, host);
      ThenWithin(RepairDir(daemon, dirs[0], sourceDaemon, targetDaemon, host),
                 RepairDirs(daemon, dirs[1..], sourceDaemon, targetDaemon, host), 16, 16);
    }
  }

  lemma {:induction false} ObsoletePhase(daemon: string, dirs: seq<string>, host: Host)
    ensures var r := RemoveObsolete(daemon, dirs, host);
      Within(r.steps, 16, 16) && (r.failure.Some? ==> CleanupFailure(r.failure.value))
    decreases |dirs|
  {
    if dirs != [] {
      ObsoletePhase(daemon, dirs[1..], host);
      ThenWithin(RemoveObsoleteDir(daemon, dirs[0], host), RemoveObsolete(daemon, dirs[1..], host), 16, 16);
    }
  }

  /** The cleanup is one phase of the run, ending it only with its own
      errors. */
  lemma CleanupPhase(sourceDaemon: string, targetDaemon: string, host: Host)
    ensures var r := CleanupTarget(sourceDaemon, targetDaemon, host);
      Ordered(r.steps) && Within(r.steps, 16, 16) && (r.failure.Some? ==> CleanupFailure(r.failure.value))
  {
    var stale := Progress(StaleRemovals(targetDaemon, StaleLinks), None);
    var obsolete := RemoveObsolete(targetDaemon, Obsolete, host);
    var repair := RepairDirs(targetDaemon, Relinked, sourceDaemon, targetDaemon, host);
    ObsoletePhase(targetDaemon, Obsolete, host);
    RepairDirsPhase(targetDaemon, Relinked, sourceDaemon, targetDaemon, host);
    ThenWithin(obsolete, repair, 16, 16);
    ThenWithin(stale, Then(obsolete, repair), 16, 16);
    SameRankOrdered(CleanupTarget(sourceDaemon, targetDaemon, host).steps, 16);
  }

  /** Unfolding the repair of the entries from the `i`-th on. */
  lemma RepairEntriesAt(dir: string, entries: seq<Entry>, i: nat, sourceDaemon: string, targetDaemon: string, host: Host)
    requires i < |entries|
    ensures RepairEntries(dir, entries[i..], sourceDaemon, targetDaemon, host)
      == Then(RepairEntry(dir, entries[i], sourceDaemon, targetDaemon, host),
              RepairEntries(dir, entries[i + 1..], sourceDaemon, targetDaemon, host))
  {
    assert entries[i..][0] == entries[i];
    assert entries[i..][1..] == entries[i + 1..];
  }

  /** main.go:478-492 for one symlink. */
  method RepairSymlink(path: string, sourceDaemon: string, targetDaemon: string, host: Host) returns (p: Progress)
    ensures p == RepairLink(path, sourceDaemon, targetDaemon, host)
  {
    var oldTarget := host.readlink(path);
    if oldTarget.None? {
      return Progress([], Some(LinkResolve(path)));
    }
    var newTarget := Retarget(oldTarget.value, sourceDaemon, targetDaemon);
    if !host.remove(path) {
      return Progress([RemoveLink(path)], Some(LinkDelete(path)));
    }
    p := Progress([RemoveLink(path), CreateLink(newTarget, path)], None);
    if !host.symlink(newTarget, path) {
      p := Progress(p.steps, Some(LinkCreate(path)));
    }
  }

  /** main.go:471-493 over one directory's entries. */
  method RepairDirectory(dir: string, entries: seq<Entry>, sourceDaemon: string, targetDaemon: string, host: Host)
    returns (p: Progress)
    ensures p == RepairEntries(dir, entries, sourceDaemon, targetDaemon, host)
  {
    p := Done();
    for i := 0 to |entries|
      invariant p.failure.None?
      invariant RepairEntries(dir, entries, sourceDaemon, targetDaemon, host)
        == Then(p, RepairEntries(dir, entries[i..], sourceDaemon, targetDaemon, host))
    {
      var entry := entries[i];
      RepairEntriesAt(dir, entries, i, sourceDaemon, targetDaemon, host);
      ThenAssoc(p, RepairEntry(dir, entry, sourceDaemon, targetDaemon, host),
                RepairEntries(dir, entries[i + 1..], sourceDaemon, targetDaemon, host));
      if !entry.symlink {
        continue;
      }
      var repaired := RepairSymlink(JoinPath(dir, entry.name), sourceDaemon, targetDaemon, host);
      p := Then(p, repaired);
      if p.failure.Some? {
        return;
      }
    }
    ThenDone(p);
  }

  /** main.go:449-452: the removals' errors are ignored. */
  method RemoveStaleLinks(daemon: string, dirs: seq<string>) returns (steps: seq<Step>)
    ensures steps == StaleRemovals(daemon, dirs)
  {
    steps := [];
    for i := 0 to |dirs|
      invariant steps == StaleRemovals(daemon, dirs[..i])
    {
      assert dirs[..i + 1][..i] == dirs[..i];
      steps := steps + [RemoveLink(JoinPath(daemon, dirs[i]))];
    }
    assert dirs[..|dirs|] == dirs;
  }

  /** main.go:454-459. */
  method RemoveObsoleteDirs(daemon: string, dirs: seq<string>, host: Host) returns (p: Progress)
    ensures p == RemoveObsolete(daemon, dirs, host)
  {
    p := Done();
    for i := 0 to |dirs|
      invariant p.failure.None?
      invariant RemoveObsolete(daemon, dirs, host) == Then(p, RemoveObsolete(daemon, dirs[i..], host))
    {
      var path := JoinPath(daemon, dirs[i]);
      assert dirs[i..][1..] == dirs[i + 1..];
      ThenAssoc(p, RemoveObsoleteDir(daemon, dirs[i], host), RemoveObsolete(daemon, dirs[i + 1..], host));
      p := Then(p, Progress([RemoveTree(path)], None));
      if RemoveFails(host.removeAll(path)) {
        return Progress(p.steps, Some(Delete(dirs[i])));
      }
    }
    ThenDone(p);
  }

  /** Unfolding the repair of the directories from the `i`-th on. */
  lemma RepairDirsAt(daemon: string, dirs: seq<string>, i: nat, sourceDaemon: string, targetDaemon: string, host: Host)
    requires i < |dirs|
    ensures RepairDirs(daemon, dirs[i..], sourceDaemon, targetDaemon, host)
      == Then(RepairDir(daemon, dirs[i], sourceDaemon, targetDaemon, host),
              RepairDirs(daemon, dirs[i + 1..], sourceDaemon, targetDaemon, host))
  {
    assert dirs[i..][0] == dirs[i];
    assert dirs[i..][1..] == dirs[i + 1..];
  }

  /** main.go:461-494. */
  method RepairDirectories(daemon: string, dirs: seq<string>, sourceDaemon: string, targetDaemon: string, host: Host)
    returns (p: Progress)
    ensures p == RepairDirs(daemon, dirs, sourceDaemon, targetDaemon, host)
  {
    p := Done();
    for i := 0 to |dirs|
      invariant p.failure.None?
      invariant RepairDirs(daemon, dirs, sourceDaemon, targetDaemon, host)
        == Then(p, RepairDirs(daemon, dirs[i..], sourceDaemon, targetDaemon, host))
    {
      var path := JoinPath(daemon, dirs[i]);
      RepairDirsAt(daemon, dirs, i, sourceDaemon, targetDaemon, host);
      ThenAssoc(p, RepairDir(daemon, dirs[i], sourceDaemon, targetDaemon, host),
                RepairDirs(daemon, dirs[i + 1..], sourceDaemon, targetDaemon, host));
      var listing := host.readDir(path);
      if listing.Missing? {
        continue;
      }
      if listing.Unreadable? {
        return Then(p, Progress([], Some(ReadEntries(path))));
      }
      var repaired := RepairDirectory(path, listing.entries, sourceDaemon, targetDaemon, host);
      p := Then(p, repaired);
      if p.failure.Some? {
        return;
      }
    }
    ThenDone(p);
  }

  /** main.go:446-494. */
  method CleanUp(sourceDaemon: string, targetDaemon: string, host: Host) returns (p: Progress)
    ensures p == CleanupTarget(sourceDaemon, targetDaemon, host)
  {
    var stale := RemoveStaleLinks(targetDaemon, StaleLinks);
    var removed := RemoveObsoleteDirs(targetDaemon, Obsolete, host);
    p := Then(Progress(stale, None), removed);
    if p.failure.Some? {
      return;
    }
    var repaired := RepairDirectories(targetDaemon, Relinked, sourceDaemon, targetDaemon, host);
    ThenAssoc(Progress(stale, None), removed, repaired);
    p := Then(p, repaired);
  }
}
