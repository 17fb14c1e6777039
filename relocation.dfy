/** Moving the source's data over to the target (main.go:356-425): the
    target's own directories are unmounted and wiped, the source's log,
    cache and daemon directories are moved in their place, and the
    database is converted. */
module Relocation {
  import opened Common
  import opened Text
  import opened Trace
  import opened Host
  import opened StoragePools

  /** Mount points under the target's directory that are detached first;
      errors are ignored (main.go:357-359). */
  const Mounts: seq<string> := ["guestapi", "shmounts"]

  function Detaches(daemon: string): seq<Step> {
    [Unmount(JoinPath(daemon, Mounts[0])), Unmount(JoinPath(daemon, Mounts[1]))]
  }

  /** os.RemoveAll of one target directory; only an error other than
      "does not exist" fails (main.go:364-377). */
  function WipeDir(path: string, host: Host): Progress {
    Attempt(Wipe(path), !RemoveFails(host.removeAll(path)), Remove(path))
  }

  /** `mv from to` as a subprocess (main.go:382-390, 414-417). */
  function MoveData(from: string, to: string, host: Host): Progress {
    Attempt(MoveDir(from, to), host.run(["mv", from, to]), Move(from, to))
  }

  /** main.go:392-418: a source daemon directory that is a mount point is
      bind-mounted onto a freshly created target directory and then
      detached, anything else is moved. */
  function MoveDaemon(sourcePaths: DaemonPaths, targetPaths: DaemonPaths, host: Host): Progress {
    var from, to := sourcePaths.daemon, targetPaths.daemon;
    if host.isMountPoint(from) then
      Then(Then(Attempt(MakeDir(to), host.mkdirAll(to), CreateTarget),
                Attempt(BindMount(from, to), host.bindMount(from, to), Bind(from, to))),
           Attempt(Detach(from), host.detach(from), UnmountSource(from)))
    else MoveData(from, to, host)
  }

  function DatabaseDir(targetPaths: DaemonPaths): string {
    JoinPath(targetPaths.daemon, "database")
  }

  /** main.go:357-377: detach the mount points, then wipe the target's
      log, cache and daemon directories. */
  function Wiped(targetPaths: DaemonPaths, host: Host): Progress {
    Then(Then(Then(
      Progress(Detaches(targetPaths.daemon), None),
      WipeDir(targetPaths.logs, host)),
      WipeDir(targetPaths.cache, host)),
      WipeDir(targetPaths.daemon, host))
  }

  /** main.go:379-418: then move the source's directories over. */
  function Moved(sourcePaths: DaemonPaths, targetPaths: DaemonPaths, host: Host): Progress {
    Then(Then(Then(
      Wiped(targetPaths, host),
      MoveData(sourcePaths.logs, targetPaths.logs, host)),
      MoveData(sourcePaths.cache, targetPaths.cache, host)),
      MoveDaemon(sourcePaths, targetPaths, host))
  }

  /** The whole phase, one part after the other, each stopping the run when
      it fails: main.go:420-425 converts the database last. */
  function Relocated(sourcePaths: DaemonPaths, targetPaths: DaemonPaths, host: Host): Progress {
    var db := DatabaseDir(targetPaths);
    Then(Moved(sourcePaths, targetPaths, host),
         Attempt(MigrateDb(db), host.migrateDatabase(db), MigrateDatabase(db)))
  }

  /** Whether the daemon directory can be carried over. */
  predicate DaemonMovable(sourcePaths: DaemonPaths, targetPaths: DaemonPaths, host: Host) {
    var from, to := sourcePaths.daemon, targetPaths.daemon;
    if host.isMountPoint(from) then host.mkdirAll(to) && host.bindMount(from, to) && host.detach(from)
    else host.run(["mv", from, to])
  }

  /** The steps that carry the daemon directory over when all succeed. */
  function DaemonSteps(sourcePaths: DaemonPaths, targetPaths: DaemonPaths, host: Host): seq<Step> {
    var from, to := sourcePaths.daemon, targetPaths.daemon;
    if host.isMountPoint(from) then [MakeDir(to), BindMount(from, to), Detach(from)]
    else [MoveDir(from, to)]
  }

  /** The phase succeeds exactly when all three wipes, all three moves and
      the database conversion succeed; the target is then wiped before
      anything is moved, and the database is converted last. */
  lemma RelocationSucceeds(sourcePaths: DaemonPaths, targetPaths: DaemonPaths, host: Host)
    ensures var r := Relocated(sourcePaths, targetPaths, host);
      r.failure.None? <==>
        (!RemoveFails(host.removeAll(targetPaths.logs))
        && !RemoveFails(host.removeAll(targetPaths.cache))
        && !RemoveFails(host.removeAll(targetPaths.daemon))
        && host.run(["mv", sourcePaths.logs, targetPaths.logs])
        && host.run(["mv", sourcePaths.cache, targetPaths.cache])
        && DaemonMovable(sourcePaths, targetPaths, host)
        && host.migrateDatabase(DatabaseDir(targetPaths)))
    ensures var r := Relocated(sourcePaths, targetPaths, host);
      r.failure.None? ==>
        r.steps == Detaches(targetPaths.daemon)
          + [Wipe(targetPaths.logs), Wipe(targetPaths.cache), Wipe(targetPaths.daemon),
             MoveDir(sourcePaths.logs, targetPaths.logs), MoveDir(sourcePaths.cache, targetPaths.cache)]
          + DaemonSteps(sourcePaths, targetPaths, host)
          + [MigrateDb(DatabaseDir(targetPaths))]
  {
  }

  lemma WipedOrdered(targetPaths: DaemonPaths, host: Host)
    ensures Ordered(Wiped(targetPaths, host).steps) && Within(Wiped(targetPaths, host).steps, 10, 11)
  {
    var d := Progress(Detaches(targetPaths.daemon), None);
    var w1 := Then(d, WipeDir(targetPaths.logs, host));
    ThenOrdered(d, WipeDir(targetPaths.logs, host), 10, 10, 11);
    var w2 := Then(w1, WipeDir(targetPaths.cache, host));
    ThenOrdered(w1, WipeDir(targetPaths.cache, host), 10, 11, 11);
    ThenOrdered(w2, WipeDir(targetPaths.daemon, host), 10, 11, 11);
  }

  lemma DaemonOrdered(sourcePaths: DaemonPaths, targetPaths: DaemonPaths, host: Host)
    ensures Ordered(MoveDaemon(sourcePaths, targetPaths, host).steps)
    ensures Within(MoveDaemon(sourcePaths, targetPaths, host).steps, 12, 12)
  {
    var from, to := sourcePaths.daemon, targetPaths.daemon;
    if host.isMountPoint(from) {
      var made := Attempt(MakeDir(to), host.mkdirAll(to), CreateTarget);
      var bound := Attempt(BindMount(from, to), host.bindMount(from, to), Bind(from, to));
      var detached := Attempt(Detach(from), host.detach(from), UnmountSource(from));
      AttemptOrdered(MakeDir(to), host.mkdirAll(to), CreateTarget);
      AttemptOrdered(BindMount(from, to), host.bindMount(from, to), Bind(from, to));
      AttemptOrdered(Detach(from), host.detach(from), UnmountSource(from));
      ThenOrdered(made, bound, 12, 12, 12);
      ThenOrdered(Then(made, bound), detached, 12, 12, 12);
    } else {
      AttemptOrdered(MoveDir(from, to), host.run(["mv", from, to]), Move(from, to));
    }
  }

  lemma MovedOrdered(sourcePaths: DaemonPaths, targetPaths: DaemonPaths, host: Host)
    ensures Ordered(Moved(sourcePaths, targetPaths, host).steps)
    ensures Within(Moved(sourcePaths, targetPaths, host).steps, 10, 12)
  {
    var w := Wiped(targetPaths, host);
    var logs := MoveData(sourcePaths.logs, targetPaths.logs, host);
    var cache := MoveData(sourcePaths.cache, targetPaths.cache, host);
    var daemon := MoveDaemon(sourcePaths, targetPaths, host);
    WipedOrdered(targetPaths, host);
    AttemptOrdered(MoveDir(sourcePaths.logs, targetPaths.logs),
                   host.run(["mv", sourcePaths.logs, targetPaths.logs]), Move(sourcePaths.logs, targetPaths.logs));
    AttemptOrdered(MoveDir(sourcePaths.cache, targetPaths.cache),
                   host.run(["mv", sourcePaths.cache, targetPaths.cache]), Move(sourcePaths.cache, targetPaths.cache));
    DaemonOrdered(sourcePaths, targetPaths, host);
    ThenOrdered(w, logs, 10, 11, 12);
    ThenOrdered(Then(w, logs), cache, 10, 12, 12);
    ThenOrdered(Then(Then(w, logs), cache), daemon, 10, 12, 12);
  }

  /** The errors the phase can end the run with. */
  predicate RelocationFailure(f: Failure) {
    f.Remove? || f.Move? || f.CreateTarget? || f.Bind? || f.UnmountSource? || f.MigrateDatabase?
  }

  /** The phase starts by detaching the target's mount points, whatever
      follows, and fails only with its own errors. */
  lemma RelocationStart(sourcePaths: DaemonPaths, targetPaths: DaemonPaths, host: Host)
    ensures var r := Relocated(sourcePaths, targetPaths, host);
      Detaches(targetPaths.daemon) <= r.steps && (r.failure.Some? ==> RelocationFailure(r.failure.value))
  {
    var db := DatabaseDir(targetPaths);
    var d := Progress(Detaches(targetPaths.daemon), None);
    var w1 := Then(d, WipeDir(targetPaths.logs, host));
    var w2 := Then(w1, WipeDir(targetPaths.cache, host));
    var w3 := Then(w2, WipeDir(targetPaths.daemon, host));
    var m1 := Then(w3, MoveData(sourcePaths.logs, targetPaths.logs, host));
    var m2 := Then(m1, MoveData(sourcePaths.cache, targetPaths.cache, host));
    var m3 := Then(m2, MoveDaemon(sourcePaths, targetPaths, host));
    var r := Then(m3, Attempt(MigrateDb(db), host.migrateDatabase(db), MigrateDatabase(db)));
    ThenKeeps(d, WipeDir(targetPaths.logs, host));
    ThenKeeps(w1, WipeDir(targetPaths.cache, host));
    ThenKeeps(w2, WipeDir(targetPaths.daemon, host));
    ThenKeeps(w3, MoveData(sourcePaths.logs, targetPaths.logs, host));
    ThenKeeps(m1, MoveData(sourcePaths.cache, targetPaths.cache, host));
    ThenKeeps(m2, MoveDaemon(sourcePaths, targetPaths, host));
    ThenKeeps(m3, Attempt(MigrateDb(db), host.migrateDatabase(db), MigrateDatabase(db)));
    assert r == Relocated(sourcePaths, targetPaths, host);
  }

  /** The phase keeps to the phase order. */
  lemma RelocationOrdered(sourcePaths: DaemonPaths, targetPaths: DaemonPaths, host: Host)
    ensures Ordered(Relocated(sourcePaths, targetPaths, host).steps)
    ensures Within(Relocated(sourcePaths, targetPaths, host).steps, 10, 13)
  {
    var db := DatabaseDir(targetPaths);
    MovedOrdered(sourcePaths, targetPaths, host);
    ThenOrdered(Moved(sourcePaths, targetPaths, host),
                Attempt(MigrateDb(db), host.migrateDatabase(db), MigrateDatabase(db)), 10, 12, 13);
  }

  /** main.go:357-377. */
  method WipeTarget(targetPaths: DaemonPaths, host: Host) returns (p: Progress)
    ensures p == Wiped(targetPaths, host)
  {
    var steps := [];
    for i := 0 to |Mounts|
      invariant steps == Detaches(targetPaths.daemon)[..i]
    {
      steps := steps + [Unmount(JoinPath(targetPaths.daemon, Mounts[i]))];
    }
    p := Progress(steps, None);
    p := Then(p, WipeDir(targetPaths.logs, host));
    if RemoveFails(host.removeAll(targetPaths.logs)) {
      return;
    }
    p := Then(p, WipeDir(targetPaths.cache, host));
    if RemoveFails(host.removeAll(targetPaths.cache)) {
      return;
    }
    p := Then(p, WipeDir(targetPaths.daemon, host));
  }

  /** main.go:356-425. */
  method Relocate(sourcePaths: DaemonPaths, targetPaths: DaemonPaths, host: Host) returns (p: Progress)
    ensures p == Relocated(sourcePaths, targetPaths, host)
  {
    p := WipeTarget(targetPaths, host);
    if p.failure.Some? {
      return;
    }

    p := Then(p, MoveData(sourcePaths.logs, targetPaths.logs, host));
    if !host.run(["mv", sourcePaths.logs, targetPaths.logs]) {
      return;
    }
    p := Then(p, MoveData(sourcePaths.cache, targetPaths.cache, host));
    if !host.run(["mv", sourcePaths.cache, targetPaths.cache]) {
      return;
    }

    ghost var moving := p;
    var from, to := sourcePaths.daemon, targetPaths.daemon;
    if host.isMountPoint(from) {
      var made := Attempt(MakeDir(to), host.mkdirAll(to), CreateTarget);
      var bound := Attempt(BindMount(from, to), host.bindMount(from, to), Bind(from, to));
      var detached := Attempt(Detach(from), host.detach(from), UnmountSource(from));
      ThenAssoc(p, made, bound);
      ThenAssoc(p, Then(made, bound), detached);
      p := Then(p, made);
      if !host.mkdirAll(to) {
        return;
      }
      p := Then(p, bound);
      if !host.bindMount(from, to) {
        return;
      }
      p := Then(p, detached);
      if !host.detach(from) {
        return;
      }
    } else {
      p := Then(p, MoveData(from, to, host));
      if !host.run(["mv", from, to]) {
        return;
      }
    }
    assert p == Moved(sourcePaths, targetPaths, host);

    var db := DatabaseDir(targetPaths);
    p := Then(p, Attempt(MigrateDb(db), host.migrateDatabase(db), MigrateDatabase(db)));
  }
}
