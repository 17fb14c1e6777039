/** The storage-pool part of the Configuration Rewriter (main.go:167-237):
    gathering the source's pool descriptors, then planning the SQL statements
    that move pool sources under the target's state directory and the
    `rbd rename` commands for ceph pools. */
module StoragePools {
  import opened Common
  import opened Text

  /** Filesystem roots of one daemon installation. */
  datatype DaemonPaths = DaemonPaths(daemon: string, logs: string, cache: string)

  /** A storage pool as the source daemon reports it. */
  datatype Pool = Pool(name: string, driver: string, config: map<string, string>)

  /** An argv vector: program followed by its arguments. */
  type Command = seq<string>

  /** A configuration value, or `default` when the key is not set at all;
      a key set to the empty string keeps its empty value. */
  function Setting(p: Pool, key: string, default: string): (v: string)
    ensures key in p.config ==> v == p.config[key]
    ensures key !in p.config ==> v == default
  {
    if key in p.config then p.config[key] else default
  }

  /** Only an absent key falls back to the default (main.go:204-217): a ceph
      pool that sets `ceph.user.name` to "" passes an empty `--name`. */
  lemma EmptyUserKept()
    ensures RbdRename(Pool("p", "ceph", map["ceph.user.name" := ""]))[5] == ""
  {
  }

  predicate IsCeph(p: Pool) {
    p.driver == "ceph"
  }

  /** The rename of a ceph pool's RBD images from the lxd_ to the incus_
      prefix (main.go:204-219). */
  function RbdRename(p: Pool): (r: Command)
    ensures |r| == 8 && r[..3] == ["rbd", "rename", "--cluster"] && r[4] == "--name"
    ensures r[3] == Setting(p, "ceph.cluster_name", "ceph")
    ensures r[5] == Setting(p, "ceph.user.name", "admin")
    ensures var rbdPool := Setting(p, "ceph.osd.pool_name", p.name);
      r[6] == rbdPool + "/lxd_" + rbdPool && r[7] == rbdPool + "/incus_" + rbdPool
  {
    var cluster := Setting(p, "ceph.cluster_name", "ceph");
    var client := Setting(p, "ceph.user.name", "admin");
    var rbdPool := Setting(p, "ceph.osd.pool_name", p.name);
    ["rbd", "rename", "--cluster", cluster, "--name", client,
     rbdPool + "/lxd_" + rbdPool, rbdPool + "/incus_" + rbdPool]
  }

  function UpdateStatement(newValue: string, oldValue: string): string {
    "UPDATE storage_pools_config SET value='" + newValue + "' WHERE value='" + oldValue + "';"
  }

  /** The guards of main.go:227-233: non-empty, starting with '/', and having
      the source daemon directory as a raw string prefix. */
  predicate Relocatable(source: string, sourcePaths: DaemonPaths) {
    source != "" && source[0] == '/' && HasPrefix(source, sourcePaths.daemon)
  }

  /** The statement one pool contributes, if any (main.go:226-236). */
  function SourceStatement(p: Pool, sourcePaths: DaemonPaths, targetPaths: DaemonPaths): Option<string> {
    var source := Setting(p, "source", "");
    if Relocatable(source, sourcePaths)
    then Some(UpdateStatement(ReplaceFirst(source, sourcePaths.daemon, targetPaths.daemon), source))
    else None
  }

  function Emitted(o: Option<string>): seq<string> {
    match o
    case Some(s) => [s]
    case None => []
  }

  /** Specification of rewriteStatements: one statement per relocatable pool,
      in pool order. */
  function Statements(pools: seq<Pool>, sourcePaths: DaemonPaths, targetPaths: DaemonPaths): seq<string>
    decreases |pools|
  {
    if pools == [] then []
    else Statements(pools[..|pools| - 1], sourcePaths, targetPaths)
         + Emitted(SourceStatement(pools[|pools| - 1], sourcePaths, targetPaths))
  }

  /** pools[i] is a ceph pool and no earlier ceph pool has its name. */
  predicate FirstOfName(pools: seq<Pool>, i: nat)
    requires i < |pools|
  {
    IsCeph(pools[i]) && forall j :: 0 <= j < i ==> !(IsCeph(pools[j]) && pools[j].name == pools[i].name)
  }

  /** Specification of rbdRenamed: the names of the ceph pools, first
      occurrences only, in pool order. */
  function Renamed(pools: seq<Pool>): seq<string>
    decreases |pools|
  {
    if pools == [] then []
    else Renamed(pools[..|pools| - 1])
         + (if FirstOfName(pools, |pools| - 1) then [pools[|pools| - 1].name] else [])
  }

  /** Specification of the ceph part of rewriteCommands: the rename of every
      ceph pool that is the first of its name, in pool order. */
  function Renames(pools: seq<Pool>): seq<Command>
    decreases |pools|
  {
    if pools == [] then []
    else Renames(pools[..|pools| - 1])
         + (if FirstOfName(pools, |pools| - 1) then [RbdRename(pools[|pools| - 1])] else [])
  }

  /** The names of the ceph pools, as a set. */
  function CephNames(pools: seq<Pool>): set<string> {
    set i | 0 <= i < |pools| && IsCeph(pools[i]) :: pools[i].name
  }

  /** Adding one pool adds its name to the ceph names exactly when it is a
      ceph pool, and it is the first of its name exactly when the name is new. */
  lemma CephNamesSnoc(pools: seq<Pool>)
    requires pools != []
    ensures var init, last := pools[..|pools| - 1], pools[|pools| - 1];
      && CephNames(pools) == CephNames(init) + (if IsCeph(last) then {last.name} else {})
      && (FirstOfName(pools, |pools| - 1) <==> IsCeph(last) && last.name !in CephNames(init))
  {
    var init, last := pools[..|pools| - 1], pools[|pools| - 1];
    forall n | n in CephNames(pools) ensures n in CephNames(init) + (if IsCeph(last) then {last.name} else {}) {
      var i :| 0 <= i < |pools| && IsCeph(pools[i]) && pools[i].name == n;
      if i < |init| { assert init[i] == pools[i]; }
    }
    forall n | n in CephNames(init) ensures n in CephNames(pools) {
      var i :| 0 <= i < |init| && IsCeph(init[i]) && init[i].name == n;
      assert pools[i] == init[i];
    }
    if !FirstOfName(pools, |pools| - 1) && IsCeph(last) {
      var j :| 0 <= j < |pools| - 1 && IsCeph(pools[j]) && pools[j].name == last.name;
      assert init[j] == pools[j];
    }
  }

  /** rbdRenamed holds exactly the names of the ceph pools seen so far. */
  lemma {:induction false} RenamedIsCephNames(pools: seq<Pool>)
    ensures forall n :: n in Renamed(pools) <==> n in CephNames(pools)
    decreases |pools|
  {
    if pools != [] {
      RenamedIsCephNames(pools[..|pools| - 1]);
      CephNamesSnoc(pools);
    }
  }

  /** A ceph pool is the first of its name exactly when its name is not yet
      among the renamed ones. */
  lemma FirstOfNameIsNew(pools: seq<Pool>)
    requires pools != [] && IsCeph(pools[|pools| - 1])
    ensures FirstOfName(pools, |pools| - 1) <==> pools[|pools| - 1].name !in Renamed(pools[..|pools| - 1])
  {
    RenamedIsCephNames(pools[..|pools| - 1]);
    CephNamesSnoc(pools);
  }

  /** The planner of main.go:168-237: one pass over the pools, appending
      to the statements, the commands and the list of renamed ceph pools. */
  method PlanRewrites(pools: seq<Pool>, sourcePaths: DaemonPaths, targetPaths: DaemonPaths)
    returns (statements: seq<string>, commands: seq<Command>)
    ensures statements == Statements(pools, sourcePaths, targetPaths)
    ensures commands == Renames(pools)
  {
    statements, commands := [], [];
    var renamed: seq<string> := [];
    for i := 0 to |pools|
      invariant statements == Statements(pools[..i], sourcePaths, targetPaths)
      invariant commands == Renames(pools[..i])
      invariant renamed == Renamed(pools[..i])
    {
      var pool := pools[i];
      assert pools[..i + 1][..i] == pools[..i];
      if pool.driver == "ceph" {
        var renameCmd := RbdRename(pool);
        assert pools[..i + 1][i] == pool;
        FirstOfNameIsNew(pools[..i + 1]);
        if pool.name !in renamed {
          commands := commands + [renameCmd];
          renamed := renamed + [pool.name];
        }
      }
      var source := Setting(pool, "source", "");
      if source == "" || source[0] != '/' {
        continue;
      }
      if !HasPrefix(source, sourcePaths.daemon) {
        continue;
      }
      var newSource := ReplaceFirst(source, sourcePaths.daemon, targetPaths.daemon);
      statements := statements + [UpdateStatement(newSource, source)];
    }
    assert pools[..|pools|] == pools;
  }

  // ---------------------------------------------------------------------
  // What the plan means

  /** A pool contributes a statement exactly when its `source` passes the
      three guards, and the statement then sets the value obtained by putting
      the target daemon directory in front of what follows the source daemon
      directory. */
  lemma StatementShape(p: Pool, sourcePaths: DaemonPaths, targetPaths: DaemonPaths)
    ensures var source := Setting(p, "source", "");
      SourceStatement(p, sourcePaths, targetPaths)
      == if source != "" && source[0] == '/' && HasPrefix(source, sourcePaths.daemon)
         then Some(UpdateStatement(targetPaths.daemon + source[|sourcePaths.daemon|..], source))
         else None
  {
    var source := Setting(p, "source", "");
    if Relocatable(source, sourcePaths) {
      ReplaceFirstAtPrefix(source, sourcePaths.daemon, targetPaths.daemon);
    }
  }

  /** Statements follow pool order: the plan of a concatenation is the
      concatenation of the plans. */
  lemma {:induction false} StatementsAppend(a: seq<Pool>, b: seq<Pool>, sourcePaths: DaemonPaths, targetPaths: DaemonPaths)
    ensures Statements(a + b, sourcePaths, targetPaths)
            == Statements(a, sourcePaths, targetPaths) + Statements(b, sourcePaths, targetPaths)
    decreases |b|
  {
    if b == [] {
      assert a + b == a;
    } else {
      var b' := b[..|b| - 1];
      assert (a + b)[..|a + b| - 1] == a + b';
      assert (a + b)[|a + b| - 1] == b[|b| - 1];
      StatementsAppend(a, b', sourcePaths, targetPaths);
    }
  }

  /** Every statement comes from some pool of the list, at most one per pool. */
  lemma {:induction false} StatementsSound(pools: seq<Pool>, sourcePaths: DaemonPaths, targetPaths: DaemonPaths, st: string)
    requires st in Statements(pools, sourcePaths, targetPaths)
    ensures |Statements(pools, sourcePaths, targetPaths)| <= |pools|
    ensures exists i :: 0 <= i < |pools| && SourceStatement(pools[i], sourcePaths, targetPaths) == Some(st)
    decreases |pools|
  {
    var init := pools[..|pools| - 1];
    var last := pools[|pools| - 1];
    if st in Statements(init, sourcePaths, targetPaths) {
      StatementsSound(init, sourcePaths, targetPaths, st);
      var i :| 0 <= i < |init| && SourceStatement(init[i], sourcePaths, targetPaths) == Some(st);
      assert pools[i] == init[i];
    } else {
      assert SourceStatement(last, sourcePaths, targetPaths) == Some(st);
      StatementsLength(init, sourcePaths, targetPaths);
    }
  }

  lemma {:induction false} StatementsLength(pools: seq<Pool>, sourcePaths: DaemonPaths, targetPaths: DaemonPaths)
    ensures |Statements(pools, sourcePaths, targetPaths)| <= |pools|
    decreases |pools|
  {
    if pools != [] {
      StatementsLength(pools[..|pools| - 1], sourcePaths, targetPaths);
    }
  }

  /** Every pool that has a statement contributes it. */
  lemma {:induction false} StatementsComplete(pools: seq<Pool>, sourcePaths: DaemonPaths, targetPaths: DaemonPaths, i: nat)
    requires i < |pools| && SourceStatement(pools[i], sourcePaths, targetPaths).Some?
    ensures SourceStatement(pools[i], sourcePaths, targetPaths).value in Statements(pools, sourcePaths, targetPaths)
    decreases |pools|
  {
    var init := pools[..|pools| - 1];
    if i < |init| {
      assert init[i] == pools[i];
      StatementsComplete(init, sourcePaths, targetPaths, i);
    }
  }

  /** As many renames as there are ceph pool names. */
  lemma {:induction false} RenamesOnePerName(pools: seq<Pool>)
    ensures |Renames(pools)| == |CephNames(pools)|
    decreases |pools|
  {
    if pools != [] {
      var init, last := pools[..|pools| - 1], pools[|pools| - 1];
      RenamesOnePerName(init);
      CephNamesSnoc(pools);
      if FirstOfName(pools, |pools| - 1) {
        assert CephNames(pools) == CephNames(init) + {last.name};
        assert |Renames(pools)| == |Renames(init)| + 1;
      } else {
        assert CephNames(pools) == CephNames(init);
        assert |Renames(pools)| == |Renames(init)|;
      }
    }
  }

  lemma FirstOfNameInPrefix(pools: seq<Pool>, i: nat)
    requires i < |pools| - 1
    ensures FirstOfName(pools, i) == FirstOfName(pools[..|pools| - 1], i)
  {
    assert forall j :: 0 <= j <= i ==> pools[j] == pools[..|pools| - 1][j];
  }

  /** Each rename is that of a ceph pool which is the first of its name. */
  lemma {:induction false} RenamesSound(pools: seq<Pool>, c: Command)
    requires c in Renames(pools)
    ensures exists i :: 0 <= i < |pools| && FirstOfName(pools, i) && c == RbdRename(pools[i])
    decreases |pools|
  {
    var init := pools[..|pools| - 1];
    if c in Renames(init) {
      RenamesSound(init, c);
      var i :| 0 <= i < |init| && FirstOfName(init, i) && c == RbdRename(init[i]);
      FirstOfNameInPrefix(pools, i);
      assert pools[i] == init[i];
    }
  }

  /** The first ceph pool of each name is renamed. */
  lemma {:induction false} RenamesComplete(pools: seq<Pool>, i: nat)
    requires i < |pools| && FirstOfName(pools, i)
    ensures RbdRename(pools[i]) in Renames(pools)
    decreases |pools|
  {
    var init := pools[..|pools| - 1];
    if i < |init| {
      FirstOfNameInPrefix(pools, i);
      assert init[i] == pools[i];
      RenamesComplete(init, i);
    }
  }

  /** Pools whose ceph names were already seen add no rename: in a
      clustered gather each member reports the same pools again. */
  lemma {:induction false} RepeatedPoolsAddNoRename(pools: seq<Pool>, extra: seq<Pool>)
    requires forall i :: 0 <= i < |extra| && IsCeph(extra[i]) ==> extra[i].name in CephNames(pools)
    ensures Renames(pools + extra) == Renames(pools)
    decreases |extra|
  {
    if extra == [] {
      assert pools + extra == pools;
    } else {
      var e' := extra[..|extra| - 1];
      var all := pools + extra;
      assert all[..|all| - 1] == pools + e';
      RepeatedPoolsAddNoRename(pools, e');
      var last := extra[|extra| - 1];
      assert all[|all| - 1] == last;
      if IsCeph(last) {
        var j :| 0 <= j < |pools| && IsCeph(pools[j]) && pools[j].name == last.name;
        assert all[j] == pools[j];
      }
    }
  }

  /** The same pool list gathered twice yields the renames of one copy. */
  lemma PoolsTwiceRenamedOnce(pools: seq<Pool>)
    ensures Renames(pools + pools) == Renames(pools)
  {
    forall i | 0 <= i < |pools| && IsCeph(pools[i]) ensures pools[i].name in CephNames(pools) { }
    RepeatedPoolsAddNoRename(pools, pools);
  }

  /** De-duplication is keyed on the storage pool's name, not on the RBD pool
      it resolves to: two pools backed by one RBD pool give the same rename
      twice. */
  lemma DedupIsByPoolName()
    ensures var cfg := map["ceph.osd.pool_name" := "shared"];
      var a, b := Pool("a", "ceph", cfg), Pool("b", "ceph", cfg);
      && Renames([a, b]) == [RbdRename(a), RbdRename(b)]
      && RbdRename(a) == RbdRename(b)
  {
    var cfg := map["ceph.osd.pool_name" := "shared"];
    var pools := [Pool("a", "ceph", cfg), Pool("b", "ceph", cfg)];
    assert pools[..1] == [Pool("a", "ceph", cfg)];
    assert pools[..1][..0] == [];
    assert FirstOfName(pools[..1], 0);
    assert Renames(pools[..1]) == [RbdRename(pools[0])];
    assert FirstOfName(pools, 1);
  }

  /** A ceph pool whose source is under the daemon directory yields both a
      rename and a statement. */
  lemma CephPoolCanYieldBoth(p: Pool, sourcePaths: DaemonPaths, targetPaths: DaemonPaths, rest: string)
    requires IsCeph(p) && sourcePaths.daemon != "" && sourcePaths.daemon[0] == '/'
    requires Setting(p, "source", "") == sourcePaths.daemon + rest
    ensures Renames([p]) == [RbdRename(p)]
    ensures Statements([p], sourcePaths, targetPaths)
            == [UpdateStatement(targetPaths.daemon + rest, sourcePaths.daemon + rest)]
  {
    SingleCephRenamed(p);
    StatementUnder(p, sourcePaths, targetPaths, rest);
  }

  lemma SingleCephRenamed(p: Pool)
    requires IsCeph(p)
    ensures Renames([p]) == [RbdRename(p)]
  {
    assert [p][..0] == [];
    assert FirstOfName([p], 0);
  }

  /** A lone pool whose source is the daemon directory followed by `rest`. */
  lemma StatementUnder(p: Pool, sourcePaths: DaemonPaths, targetPaths: DaemonPaths, rest: string)
    requires sourcePaths.daemon != "" && sourcePaths.daemon[0] == '/'
    requires Setting(p, "source", "") == sourcePaths.daemon + rest
    ensures Statements([p], sourcePaths, targetPaths)
            == [UpdateStatement(targetPaths.daemon + rest, sourcePaths.daemon + rest)]
  {
    var source := sourcePaths.daemon + rest;
    assert [p][..0] == [];
    assert source[..|sourcePaths.daemon|] == sourcePaths.daemon;
    assert source[|sourcePaths.daemon|..] == rest;
    StatementShape(p, sourcePaths, targetPaths);
  }

  /** The relocation of a pool source under /var/lib/old to /var/lib/new. */
  lemma RelocationExample()
    ensures var p := Pool("disks", "dir", map["source" := "/var/lib/old/disks/a"]);
      Statements([p], DaemonPaths("/var/lib/old", "/var/log/old", "/var/cache/old"),
                 DaemonPaths("/var/lib/new", "/var/log/new", "/var/cache/new"))
      == [UpdateStatement("/var/lib/new/disks/a", "/var/lib/old/disks/a")]
  {
    var p := Pool("disks", "dir", map["source" := "/var/lib/old/disks/a"]);
    assert "/var/lib/old" + "/disks/a" == "/var/lib/old/disks/a";
    assert "/var/lib/new" + "/disks/a" == "/var/lib/new/disks/a";
    StatementUnder(p, DaemonPaths("/var/lib/old", "/var/log/old", "/var/cache/old"),
                   DaemonPaths("/var/lib/new", "/var/log/new", "/var/cache/new"), "/disks/a");
  }

  /** The guard is a raw string prefix: a sibling directory whose name merely
      starts with that of the daemon directory is rewritten too. */
  lemma RawPrefixMatchesSibling()
    ensures var p := Pool("near", "dir", map["source" := "/var/lib/lxd2/pool"]);
      && !HasPrefix(Setting(p, "source", ""), "/var/lib/lxd" + "/")
      && Statements([p], DaemonPaths("/var/lib/lxd", "/var/log/lxd", "/var/cache/lxd"),
                    DaemonPaths("/var/lib/incus", "/var/log/incus", "/var/cache/incus"))
         == [UpdateStatement("/var/lib/incus2/pool", "/var/lib/lxd2/pool")]
  {
    var p := Pool("near", "dir", map["source" := "/var/lib/lxd2/pool"]);
    assert "/var/lib/lxd2/pool"[12] == '2';
    assert "/var/lib/lxd" + "2/pool" == "/var/lib/lxd2/pool";
    assert "/var/lib/incus" + "2/pool" == "/var/lib/incus2/pool";
    StatementUnder(p, DaemonPaths("/var/lib/lxd", "/var/log/lxd", "/var/cache/lxd"),
                   DaemonPaths("/var/lib/incus", "/var/log/incus", "/var/cache/incus"), "2/pool");
  }

  // ---------------------------------------------------------------------
  // Gathering the pool descriptors (main.go:172-199)

  /** The source daemon's answers to the pool queries. */
  datatype Inventory = Inventory(
    pools: Option<seq<Pool>>,                  // GetStoragePools
    members: Option<seq<string>>,              // GetClusterMembers, by server name
    poolNames: string -> Option<seq<string>>,  // UseTarget(member).GetStoragePoolNames
    pool: (string, string) -> Option<Pool>)    // UseTarget(member).GetStoragePool(name)

  function Prefixed(acc: seq<Pool>, r: Result<seq<Pool>>): Result<seq<Pool>> {
    match r
    case Ok(ps) => Ok(acc + ps)
    case Err(f) => Err(f)
  }

  lemma PrefixedTwice(a: seq<Pool>, b: seq<Pool>, r: Result<seq<Pool>>)
    ensures Prefixed(a, Prefixed(b, r)) == Prefixed(a + b, r)
  {
    if r.Ok? { assert a + (b + r.value) == (a + b) + r.value; }
  }

  lemma PrefixedEmpty(r: Result<seq<Pool>>)
    ensures Prefixed([], r) == r
  {
    if r.Ok? { assert [] + r.value == r.value; }
  }

  /** One member's pools, fetched name by name in listing order: all of them
      when every fetch succeeds, otherwise the first failing fetch aborts. */
  function MemberPools(inv: Inventory, member: string, names: seq<string>): (r: Result<seq<Pool>>)
    ensures r.Ok? ==> (|r.value| == |names|
      && forall i :: 0 <= i < |names| ==> inv.pool(member, names[i]) == Some(r.value[i]))
    ensures r.Err? ==> (r.failure == PoolFetch
      && exists i :: 0 <= i < |names| && inv.pool(member, names[i]) == None)
  {
    if names == [] then Ok([])
    else match inv.pool(member, names[0])
      case None => Err(PoolFetch)
      case Some(p) => Prefixed([p], MemberPools(inv, member, names[1..]))
  }

  /** The pools of all members, member after member. */
  function ClusterPools(inv: Inventory, members: seq<string>): (r: Result<seq<Pool>>)
    ensures r.Err? ==> r.failure == PoolList || r.failure == PoolFetch
    ensures r.Ok? <==> forall i :: 0 <= i < |members| ==>
      inv.poolNames(members[i]).Some? && MemberPools(inv, members[i], inv.poolNames(members[i]).value).Ok?
  {
    if members == [] then Ok([])
    else match inv.poolNames(members[0])
      case None => Err(PoolList)
      case Some(names) =>
        match MemberPools(inv, members[0], names)
        case Err(f) => Err(f)
        case Ok(ps) => Prefixed(ps, ClusterPools(inv, members[1..]))
  }

  /** A single member contributes its own pools, or the error of listing or
      fetching them. */
  lemma ClusterPoolsOne(inv: Inventory, member: string)
    ensures ClusterPools(inv, [member])
            == match inv.poolNames(member)
               case None => Err(PoolList)
               case Some(names) => MemberPools(inv, member, names)
  {
    assert [member][1..] == [];
    match inv.poolNames(member)
    case None =>
    case Some(names) =>
      var m := MemberPools(inv, member, names);
      if m.Ok? { assert m.value + [] == m.value; }
  }

  /** The members' pools are appended in member order: the pools of a + b
      are those of a followed by those of b, and a failure in a ends there. */
  lemma {:induction false} ClusterPoolsAppend(inv: Inventory, a: seq<string>, b: seq<string>)
    ensures ClusterPools(inv, a + b)
            == if ClusterPools(inv, a).Ok? then Prefixed(ClusterPools(inv, a).value, ClusterPools(inv, b))
               else ClusterPools(inv, a)
    decreases |a|
  {
    if a == [] {
      assert a + b == b;
      PrefixedEmpty(ClusterPools(inv, b));
    } else {
      assert (a + b)[0] == a[0];
      assert (a + b)[1..] == a[1..] + b;
      ClusterPoolsAppend(inv, a[1..], b);
      match inv.poolNames(a[0])
      case None =>
      case Some(names) =>
        match MemberPools(inv, a[0], names)
        case Err(f) =>
        case Ok(ps) =>
          var rest := ClusterPools(inv, a[1..]);
          if rest.Ok? {
            PrefixedTwice(ps, rest.value, ClusterPools(inv, b));
          }
    }
  }

  /** Specification of the gathered pool list. */
  function Gathered(clustered: bool, inv: Inventory): Result<seq<Pool>> {
    if !clustered then
      match inv.pools
      case None => Err(PoolList)
      case Some(ps) => Ok(ps)
    else
      match inv.members
      case None => Err(MemberList)
      case Some(ms) => ClusterPools(inv, ms)
  }

  /** The inner loop of main.go:190-197: fetch one member's pools by name. */
  method FetchMemberPools(inv: Inventory, member: string, names: seq<string>) returns (r: Result<seq<Pool>>)
    ensures r == MemberPools(inv, member, names)
  {
    var fetched: seq<Pool> := [];
    assert names[0..] == names;
    PrefixedEmpty(MemberPools(inv, member, names));
    for j := 0 to |names|
      invariant MemberPools(inv, member, names) == Prefixed(fetched, MemberPools(inv, member, names[j..]))
    {
      assert names[j..][1..] == names[j + 1..];
      var pool := inv.pool(member, names[j]);
      if pool.None? {
        return Err(PoolFetch);
      }
      PrefixedTwice(fetched, [pool.value], MemberPools(inv, member, names[j + 1..]));
      fetched := fetched + [pool.value];
    }
    assert names[|names|..] == [] && fetched + [] == fetched;
    return Ok(fetched);
  }

  /** main.go:172-199: the local pools, or in a cluster every member's pools
      appended member by member. */
  method GatherPools(clustered: bool, inv: Inventory) returns (r: Result<seq<Pool>>)
    ensures r == Gathered(clustered, inv)
  {
    if !clustered {
      if inv.pools.None? {
        return Err(PoolList);
      }
      return Ok(inv.pools.value);
    }
    if inv.members.None? {
      return Err(MemberList);
    }
    var members := inv.members.value;
    var storagePools: seq<Pool> := [];
    assert members[0..] == members;
    PrefixedEmpty(ClusterPools(inv, members));
    for i := 0 to |members|
      invariant ClusterPools(inv, members) == Prefixed(storagePools, ClusterPools(inv, members[i..]))
    {
      var member := members[i];
      assert members[i..][1..] == members[i + 1..];
      var poolNames := inv.poolNames(member);
      if poolNames.None? {
        return Err(PoolList);
      }
      var pools := FetchMemberPools(inv, member, poolNames.value);
      if pools.Err? {
        return Err(pools.failure);
      }
      PrefixedTwice(storagePools, pools.value, ClusterPools(inv, members[i + 1..]));
      storagePools := storagePools + pools.value;
    }
    assert members[|members|..] == [] && storagePools + [] == storagePools;
    return Ok(storagePools);
  }

  /** When every member reports the same pool list, the gathered list repeats
      it once per member and plans the same renames as a single copy. */
  lemma {:induction false} SameListOnEveryMember(inv: Inventory, members: seq<string>, pools: seq<Pool>)
    requires forall i :: 0 <= i < |members| ==>
      inv.poolNames(members[i]).Some? && MemberPools(inv, members[i], inv.poolNames(members[i]).value) == Ok(pools)
    ensures ClusterPools(inv, members).Ok?
    ensures forall x :: x in ClusterPools(inv, members).value ==> x in pools
    ensures members != [] ==> Renames(ClusterPools(inv, members).value) == Renames(pools)
    decreases |members|
  {
    if members != [] {
      SameListOnEveryMember(inv, members[1..], pools);
      var rest := ClusterPools(inv, members[1..]).value;
      assert ClusterPools(inv, members).value == pools + rest;
      forall i | 0 <= i < |rest| && IsCeph(rest[i]) ensures rest[i].name in CephNames(pools) {
        assert rest[i] in rest;
        var k :| 0 <= k < |pools| && pools[k] == rest[i];
      }
      RepeatedPoolsAddNoRename(pools, rest);
    }
  }
}
