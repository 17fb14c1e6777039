/** The phase table of `cmdMigrate.Run` (main.go:81-611) as functions: what
    the system answers is an oracle, each phase is a stage of steps that may
    end the run, and the whole run is the phases one after the other. The
    lemmas state what a run does: the order of its phases, the flags that
    skip them, the commands it runs, and when it completes. */
module Phases {
  import opened Common
  import opened Trace
  import opened Host
  import opened StoragePools
  import opened Network
  import opened Apply
  import opened Relocation
  import opened Cleanup
  import opened Cluster

  /** --yes and --cluster-member (main.go:72-73). */
  datatype Flags = Flags(yes: bool, clusterMember: bool)

  /** What the system answers to every call the run makes. */
  datatype Oracle = Oracle(
    root: bool,                           // os.Geteuid() == 0
    sources: seq<bool>,                   // Present() of each source candidate, in list order
    targets: seq<bool>,                   // Present() of each target candidate, in list order
    sourceConnects: bool,                 // source.Connect()
    sourceClustered: Option<bool>,        // first srcClient.GetServer(): ServerClustered
    targetConnects: bool,                 // target.Connect()
    valid: bool,                          // c.validate(source, target)
    sourcePaths: Option<DaemonPaths>,     // source.Paths()
    targetPaths: Option<DaemonPaths>,     // target.Paths()
    inventory: Inventory,                 // the storage pool queries
    northbound: Option<string>,           // second srcClient.GetServer(): the OVN northbound connection, "" when unset
    network: NetworkOracle,
    proceed: Answer,                      // "Proceed with the migration?"
    noEvacuate: bool,                     // CLUSTER_NO_EVACUTE == "1"
    sourceMembers: Option<seq<string>>,   // srcClient.GetClusterMembers() before evacuation
    evacuates: string -> bool,            // evacuating one member and waiting for it
    sourceStops: bool,                    // source.Stop()
    targetStops: bool,                    // target.Stop()
    host: Host,
    targetStarts: bool,                   // target.Start()
    othersStarted: seq<Answer>,           // "The command has been started on all other servers?", asked again and again
    rounds: seq<Round>,                   // the convergence polls
    targetInfo: bool,                     // the final targetClient.GetServer()
    targetMembers: Option<seq<string>>,   // targetClient.GetClusterMembers() before restoring
    restores: string -> bool,             // restoring one member and waiting for it
    uninstall: Answer,                    // "Uninstall the LXD package?"
    purges: bool)                         // source.Purge()

  /** What the preparation hands to the rest of the run. */
  datatype Plan = Plan(sourcePaths: DaemonPaths, targetPaths: DaemonPaths,
                       statements: seq<string>, commands: seq<Command>)

  /** The run found a source and a target. */
  predicate Discovered(o: Oracle) {
    o.root && true in o.sources && true in o.targets
  }

  /** The value of `clustered` once the source has been asked
      (main.go:126-140): a member run takes it from the flag. */
  predicate Clustered(f: Flags, o: Oracle) {
    f.clusterMember || o.sourceClustered == Some(true)
  }

  /** Both servers answered and the pair was accepted (main.go:126-153). */
  predicate Connects(f: Flags, o: Oracle) {
    if f.clusterMember then o.targetConnects
    else o.sourceConnects && o.sourceClustered.Some? && o.targetConnects && o.valid
  }

  /** Everything the plan is built from was answered. */
  predicate Plannable(f: Flags, o: Oracle) {
    !f.clusterMember && o.sourcePaths.Some? && o.targetPaths.Some? && o.northbound.Some?
    && Gathered(Clustered(f, o), o.inventory).Ok?
    && NetworkCommands(false, o.northbound.value, o.network).Ok?
  }

  /** The plan main.go:167-270 builds: the statements of the gathered pools,
      then their ceph renames followed by the network commands. */
  function IntendedPlan(f: Flags, o: Oracle): Plan
    requires Plannable(f, o)
  {
    var pools := Gathered(Clustered(f, o), o.inventory).value;
    var sp, tp := o.sourcePaths.value, o.targetPaths.value;
    Plan(sp, tp, Statements(pools, sp, tp),
         Renames(pools) + NetworkCommands(false, o.northbound.value, o.network).value)
  }

  // Preparation (main.go:86-270)

  /** main.go:126-153: connect to both servers and validate the pair; the
      source is only asked on a non-member run. */
  function Connection(f: Flags, o: Oracle): Stage {
    if f.clusterMember then Stage([ConnectTarget], if o.targetConnects then None else Some(Failed(TargetConnect)))
    else if !o.sourceConnects then Stage([ConnectSource], Some(Failed(SourceConnect)))
    else if o.sourceClustered.None? then Stage([ConnectSource], Some(Failed(SourceInfo)))
    else if !o.targetConnects then Stage([ConnectSource, ConnectTarget], Some(Failed(TargetConnect)))
    else Stage([ConnectSource, ConnectTarget, Validate], if o.valid then None else Some(Failed(Validation)))
  }

  /** A stage of the preparation, and the plan once it is complete. */
  datatype Planned = Planned(stage: Stage, plan: Option<Plan>)

  /** main.go:155-270: the paths, the storage pools and the network
      conversion make up the plan. A member run reaches main.go:241 with no
      source client and panics there. */
  function Planning(f: Flags, o: Oracle): Planned {
    if o.sourcePaths.None? then Planned(Stage([], Some(Failed(SourcePaths))), None)
    else if o.targetPaths.None? then Planned(Stage([], Some(Failed(TargetPaths))), None)
    else if f.clusterMember then Planned(Stage([], Some(Panicked(NilSourceClient))), None)
    else
      var pools := Gathered(Clustered(f, o), o.inventory);
      if pools.Err? then Planned(Stage([ListPools], Some(Failed(pools.failure))), None)
      else if o.northbound.None? then Planned(Stage([ListPools], Some(Failed(SourceInfo))), None)
      else
        var steps := [ListPools] + (if o.northbound.value != "" then [QueryOvnRemote] else []);
        var network := NetworkCommands(false, o.northbound.value, o.network);
        if network.Err? then Planned(Stage(steps, Some(Failed(network.failure))), None)
        else Planned(Stage(steps, None), Some(IntendedPlan(f, o)))
  }

  /** main.go:86-270: discovery, connections, validation, paths and plan. */
  function Preparation(f: Flags, o: Oracle): Planned {
    if !o.root then Planned(Stage([], Some(Failed(NotRoot))), None)
    else if true !in o.sources then Planned(Stage([], Some(Failed(NoSource))), None)
    else if true !in o.targets then Planned(Stage([], Some(Failed(NoTarget))), None)
    else
      var c := Connection(f, o);
      if c.stop.Some? then Planned(c, None)
      else
        var p := Planning(f, o);
        Planned(After(c, p.stage), p.plan)
  }

  // Quiescing (main.go:272-354)

  /** main.go:272-316: ask for confirmation unless --yes was given; a
      declined prompt exits the process. A standalone and a clustered source
      differ only in the text printed before the same question. */
  function Confirmation(f: Flags, o: Oracle): Stage {
    if f.clusterMember || f.yes then Stage([], None)
    else Stage([AskProceed], if o.proceed.None? then Some(Failed(Prompt))
                             else if !o.proceed.value then Some(Exited) else None)
  }

  /** main.go:319: the workloads of a clustered source are stopped unless
      CLUSTER_NO_EVACUTE is "1". */
  predicate Evacuating(f: Flags, o: Oracle) {
    !f.clusterMember && Clustered(f, o) && !o.noEvacuate
  }

  /** main.go:319-339. */
  function Evacuated(f: Flags, o: Oracle): Stage {
    if Evacuating(f, o) then Lift(ClusterActions(o.sourceMembers, o.evacuates, Evacuation)) else Stage([], None)
  }

  /** main.go:341-354: both servers are stopped; the errors are built and
      dropped, so the run goes on whatever the stops report. */
  function ServersStopped(o: Oracle): Stage {
    Stage([StopSource(o.sourceStops), StopTarget(o.targetStops)], None)
  }

  function Quiesced(f: Flags, o: Oracle): Stage {
    After(Confirmation(f, o), After(Evacuated(f, o), ServersStopped(o)))
  }

  // Conversion (main.go:356-494)

  function Converted(plan: Plan, host: Host): Stage {
    After(Lift(Relocated(plan.sourcePaths, plan.targetPaths, host)),
          After(Applied(plan.targetPaths, plan.statements, plan.commands, host),
                Lift(CleanupTarget(plan.sourcePaths.daemon, plan.targetPaths.daemon, host))))
  }

  // Restart (main.go:496-565)

  /** main.go:504-557 on a clustered run: a non-member run first waits for
      the operator to confirm that the other servers run the tool, then
      every run polls until the cluster has converged. */
  function Waited(f: Flags, o: Oracle): Stage {
    After(if f.clusterMember then Stage([], None) else Asking(o.othersStarted), Polling(o.rounds))
  }

  /** main.go:496-565: start the target, wait for a clustered run to settle,
      and check the target. */
  function Restarted(f: Flags, o: Oracle): Stage {
    After(Stage([StartTarget], if o.targetStarts then None else Some(Failed(TargetStart))),
          After(if Clustered(f, o) then Waited(f, o) else Stage([], None),
                Stage([CheckTarget], if o.targetInfo then None else Some(Failed(TargetInfo)))))
  }

  // Conclusion (main.go:567-611)

  /** main.go:568-588. */
  function Restored(f: Flags, o: Oracle): Stage {
    if !f.clusterMember && Clustered(f, o) then Lift(ClusterActions(o.targetMembers, o.restores, Restoration))
    else Stage([], None)
  }

  /** main.go:590-609: confirm the uninstall unless --yes was given, then
      purge the source package. */
  function Uninstalled(f: Flags, o: Oracle): Stage {
    After(if f.yes then Stage([], None)
          else Stage([AskUninstall], if o.uninstall.None? then Some(Failed(Prompt))
                                     else if !o.uninstall.value then Some(Exited) else None),
          Stage([Purge], if o.purges then None else Some(Failed(Uninstall))))
  }

  function Concluded(f: Flags, o: Oracle): Stage {
    After(Restored(f, o), Uninstalled(f, o))
  }

  // The whole run

  /** The run once the plan is ready (main.go:272-611). */
  function Execution(f: Flags, o: Oracle, plan: Plan): Stage {
    After(Quiesced(f, o), After(Converted(plan, o.host), After(Restarted(f, o), Concluded(f, o))))
  }

  /** Every phase in order, the run ending at the first that stops it. */
  function Migrated(f: Flags, o: Oracle): Stage {
    var p := Preparation(f, o);
    if p.plan.None? then p.stage else After(p.stage, Execution(f, o, p.plan.value))
  }

  /** What `Run` returns: the outcome of the stage that stopped the run, or
      success once every phase went through. */
  function Verdict(f: Flags, o: Oracle): Outcome {
    var m := Migrated(f, o);
    if m.stop.Some? then m.stop.value else Completed
  }

  // What each phase does

  /** The errors only the discovery at the very start can return. */
  predicate DiscoveryFailure(f: Failure) {
    f == NotRoot || f == NoSource || f == NoTarget
  }

  lemma ConnectionFacts(f: Flags, o: Oracle)
    ensures var c := Connection(f, o);
      Ordered(c.steps) && Within(c.steps, 1, 3)
      && (ConnectSource in c.steps <==> !f.clusterMember)
      && (Validate in c.steps ==> !f.clusterMember)
      && (f.clusterMember ==> c.steps == [ConnectTarget])
      && (c.stop.None? <==> Connects(f, o))
      && (c.stop.Some? ==> c.stop.value in {Failed(SourceConnect), Failed(SourceInfo), Failed(TargetConnect), Failed(Validation)})
  {
  }

  lemma PlanningOrdered(f: Flags, o: Oracle)
    ensures var p := Planning(f, o);
      Ordered(p.stage.steps) && Within(p.stage.steps, 4, 5) && (f.clusterMember ==> p.stage.steps == [])
  {
    PlanningShape(f, o);
    PlanningStepsOrdered(Planning(f, o).stage.steps);
  }

  /** The planning lists the pools and, when there is a northbound
      connection, asks for the OVN remote. */
  lemma PlanningShape(f: Flags, o: Oracle)
    ensures var t := Planning(f, o).stage.steps;
      (t == [] || t == [ListPools] || t == [ListPools, QueryOvnRemote]) && (f.clusterMember ==> t == [])
  {
  }

  lemma PlanningStepsOrdered(t: seq<Step>)
    requires t == [] || t == [ListPools] || t == [ListPools, QueryOvnRemote]
    ensures Ordered(t) && Within(t, 4, 5)
  {
  }

  /** The plan is complete exactly when everything it is built from was
      answered, and it is then the intended plan. */
  lemma PlanningSucceeds(f: Flags, o: Oracle)
    ensures var p := Planning(f, o);
      (p.plan.Some? <==> p.stage.stop.None?)
      && (p.stage.stop.None? <==> Plannable(f, o))
      && (p.plan.Some? ==> p.plan.value == IntendedPlan(f, o))
  {
  }

  /** The preparation hands on a plan exactly when it lets the run go on. */
  lemma PreparationHandsOn(f: Flags, o: Oracle)
    ensures Preparation(f, o).plan.Some? <==> Preparation(f, o).stage.stop.None?
  {
    PlanningSucceeds(f, o);
  }

  /** A member run that got its paths panics at main.go:241. */
  lemma PlanningPanicsOnMember(f: Flags, o: Oracle)
    requires f.clusterMember && o.sourcePaths.Some? && o.targetPaths.Some?
    ensures Planning(f, o).stage.stop == Some(Panicked(NilSourceClient))
  {
  }

  /** The errors the planning ends the run with. */
  predicate PlanningFailure(f: Failure) {
    f.SourcePaths? || f.TargetPaths? || f.PoolList? || f.MemberList? || f.PoolFetch? || f.SourceInfo?
    || f.OvnSouthbound? || f.OvnPrepare? || f.OvsPrepare?
  }

  lemma PlanningStops(f: Flags, o: Oracle)
    ensures var p := Planning(f, o);
      p.stage.stop.Some? ==> (p.stage.stop == Some(Panicked(NilSourceClient))
        || (p.stage.stop.value.Failed? && PlanningFailure(p.stage.stop.value.failure)))
  {
    if o.sourcePaths.Some? && o.targetPaths.Some? && !f.clusterMember {
      var pools := Gathered(Clustered(f, o), o.inventory);
      if pools.Err? && Clustered(f, o) && o.inventory.members.Some? {
        assert pools == ClusterPools(o.inventory, o.inventory.members.value);
      }
      if pools.Ok? && o.northbound.Some? {
        var network := NetworkCommands(false, o.northbound.value, o.network);
        if network.Err? {
          assert network.failure in {OvnSouthbound, OvnPrepare, OvsPrepare};
        }
      }
    }
  }

  /** The preparation stops with a discovery error exactly when that check
      fails, and hands on the intended plan exactly when discovery, the
      connections and the plan all went through. */
  lemma PreparationFacts(f: Flags, o: Oracle)
    ensures var p := Preparation(f, o);
      Ordered(p.stage.steps) && Within(p.stage.steps, 1, 5)
      && (p.plan.Some? <==> p.stage.stop.None?)
      && (p.stage.stop == Some(Failed(NotRoot)) <==> !o.root)
      && (p.stage.stop == Some(Failed(NoSource)) <==> o.root && true !in o.sources)
      && (p.stage.stop == Some(Failed(NoTarget)) <==> o.root && true in o.sources && true !in o.targets)
      && (!Discovered(o) ==> p.stage.steps == [])
      && (ConnectSource in p.stage.steps <==> Discovered(o) && !f.clusterMember)
      && (p.stage.stop.None? <==> Discovered(o) && Connects(f, o) && Plannable(f, o))
      && (p.plan.Some? ==> p.plan.value == IntendedPlan(f, o))
      && (f.clusterMember ==> (p.stage.steps == [] || p.stage.steps == [ConnectTarget]))
      && (f.clusterMember && Discovered(o) && o.targetConnects && o.sourcePaths.Some? && o.targetPaths.Some? ==>
            p.stage.stop == Some(Panicked(NilSourceClient)))
  {
    ConnectionFacts(f, o);
    PlanningOrdered(f, o);
    PlanningSucceeds(f, o);
    PlanningStops(f, o);
    if Discovered(o) && Connects(f, o) {
      var c, q := Connection(f, o), Planning(f, o);
      AfterOrdered(c, q.stage, 1, 3, 5);
      AfterHas(c, q.stage, ConnectSource);
    }
  }

  /** The run is confirmed unless --yes or --cluster-member was given;
      only a yes goes on. */
  lemma QuiescedOrdered(f: Flags, o: Oracle)
    ensures Ordered(Quiesced(f, o).steps) && Within(Quiesced(f, o).steps, 6, 9)
  {
    var c, e, s := Confirmation(f, o), Evacuated(f, o), ServersStopped(o);
    ClusterActionsOrdered(o.sourceMembers, o.evacuates, Evacuation);
    assert Ordered(c.steps) && Within(c.steps, 6, 6);
    assert Ordered(e.steps) && Within(e.steps, 7, 7);
    assert Ordered(s.steps) && Within(s.steps, 8, 9);
    AfterOrdered(e, s, 7, 7, 9);
    AfterOrdered(c, After(e, s), 6, 6, 9);
  }

  /** The confirmation is asked unless --yes or --cluster-member was given,
      and the workloads are stopped only where main.go:319 lets them. */
  lemma QuiescedGates(f: Flags, o: Oracle)
    ensures AskProceed in Quiesced(f, o).steps <==> !f.clusterMember && !f.yes
    ensures forall m :: EvacuateMember(m) in Quiesced(f, o).steps ==> Evacuating(f, o)
  {
    var c, e, s := Confirmation(f, o), Evacuated(f, o), ServersStopped(o);
    ClusterActionsFacts(o.sourceMembers, o.evacuates, Evacuation);
    AfterHas(c, After(e, s), AskProceed);
    AfterHas(e, s, AskProceed);
    assert AskProceed !in e.steps by {
      assert Within(e.steps, 7, 7);
    }
    forall m | EvacuateMember(m) in Quiesced(f, o).steps ensures Evacuating(f, o) {
      AfterHas(c, After(e, s), EvacuateMember(m));
      AfterHas(e, s, EvacuateMember(m));
    }
  }

  /** The phase goes on exactly when the run was confirmed and, where the
      cluster is evacuated, every member accepted; then both servers have
      been stopped, whatever they reported, and every member evacuated. */
  lemma QuiescedSucceeds(f: Flags, o: Oracle)
    ensures var q := Quiesced(f, o);
      (q.stop.None? <==> ((f.clusterMember || f.yes || o.proceed == Some(true))
            && (Evacuating(f, o) ==> AllAccept(o.sourceMembers, o.evacuates))))
      && (q.stop.None? <==> StopSource(o.sourceStops) in q.steps)
      && (q.stop.None? ==> StopTarget(o.targetStops) in q.steps)
      && (q.stop.None? && Evacuating(f, o) ==> ActedOnAll(o.sourceMembers, q.steps, Evacuation))
  {
    var c, e, s := Confirmation(f, o), Evacuated(f, o), ServersStopped(o);
    ClusterActionsFacts(o.sourceMembers, o.evacuates, Evacuation);
    AfterHas(c, After(e, s), StopSource(o.sourceStops));
    AfterHas(e, s, StopSource(o.sourceStops));
    assert StopSource(o.sourceStops) !in e.steps by {
      assert Within(e.steps, 7, 7);
    }
    if c.stop.None? && e.stop.None? && Evacuating(f, o) {
      ActedOnAllExtend(o.sourceMembers, c.steps, e.steps, s.steps, Evacuation);
      assert c.steps + e.steps + s.steps == Quiesced(f, o).steps;
    }
  }

  lemma QuiescedStops(f: Flags, o: Oracle)
    ensures var q := Quiesced(f, o);
      q.stop.Some? ==> (q.stop.value in {Failed(Prompt), Exited}
        || (q.stop.value.Failed? && ActionFailed(Evacuation, q.stop.value.failure)))
  {
    ClusterActionsFacts(o.sourceMembers, o.evacuates, Evacuation);
  }

  lemma ConvertedOrdered(plan: Plan, host: Host)
    ensures Ordered(Converted(plan, host).steps) && Within(Converted(plan, host).steps, 10, 16)
  {
    var sp, tp := plan.sourcePaths, plan.targetPaths;
    var r := Lift(Relocated(sp, tp, host));
    var a := Applied(tp, plan.statements, plan.commands, host);
    var c := Lift(CleanupTarget(sp.daemon, tp.daemon, host));
    RelocationOrdered(sp, tp, host);
    AppliedOrder(tp, plan.statements, plan.commands, host);
    CleanupPhase(sp.daemon, tp.daemon, host);
    AfterOrdered(a, c, 14, 15, 16);
    AfterOrdered(r, After(a, c), 10, 13, 16);
  }

  /** The conversion starts by detaching the target's mount points, and
      runs commands, a prefix of the plan's, only once the data has been
      moved. */
  lemma ConvertedRuns(plan: Plan, host: Host)
    ensures var v := Converted(plan, host);
      Detaches(plan.targetPaths.daemon) <= v.steps
      && Ran(v.steps) <= plan.commands
      && (Ran(v.steps) != [] ==> Relocated(plan.sourcePaths, plan.targetPaths, host).failure.None?)
  {
    ConvertedDetaches(plan, host);
    ConvertedRan(plan, host);
  }

  lemma ConvertedDetaches(plan: Plan, host: Host)
    ensures Detaches(plan.targetPaths.daemon) <= Converted(plan, host).steps
  {
    var sp, tp := plan.sourcePaths, plan.targetPaths;
    var r := Lift(Relocated(sp, tp, host));
    var rest := After(Applied(tp, plan.statements, plan.commands, host), Lift(CleanupTarget(sp.daemon, tp.daemon, host)));
    RelocationStart(sp, tp, host);
    PrefixAfter(r, rest);
  }

  lemma ConvertedRan(plan: Plan, host: Host)
    ensures var v := Converted(plan, host);
      Ran(v.steps) <= plan.commands
      && (Ran(v.steps) != [] ==> Relocated(plan.sourcePaths, plan.targetPaths, host).failure.None?)
  {
    var sp, tp := plan.sourcePaths, plan.targetPaths;
    var r := Lift(Relocated(sp, tp, host));
    var a := Applied(tp, plan.statements, plan.commands, host);
    var c := Lift(CleanupTarget(sp.daemon, tp.daemon, host));
    RelocationOrdered(sp, tp, host);
    AppliedOrder(tp, plan.statements, plan.commands, host);
    CleanupPhase(sp.daemon, tp.daemon, host);
    RanOutside(r.steps, 10, 13);
    RanOutside(c.steps, 16, 16);
    AfterRan(a, c);
    AfterRan(r, After(a, c));
    assert Ran(After(a, c).steps) == Ran(a.steps) by {
      assert Ran(a.steps) + [] == Ran(a.steps);
    }
    assert [] + Ran(a.steps) == Ran(a.steps);
  }

  /** The conversion goes through exactly when the move, the patch, every
      command and the cleanup do; it has then run the plan's commands and
      written the patch. */
  lemma ConvertedSucceeds(plan: Plan, host: Host)
    ensures var v := Converted(plan, host);
      (v.stop.None? <==>
        (Relocated(plan.sourcePaths, plan.targetPaths, host).failure.None?
         && PatchWritten(plan.targetPaths, plan.statements, host)
         && (forall k :: 0 <= k < |plan.commands| ==> Succeeds(plan.commands[k], host.run))
         && CleanupTarget(plan.sourcePaths.daemon, plan.targetPaths.daemon, host).failure.None?))
      && (v.stop.None? ==> (Ran(v.steps) == plan.commands
         && (plan.statements != [] ==>
               WritePatch(PatchFile(plan.targetPaths), PatchContents(plan.statements)) in v.steps)))
  {
    var sp, tp := plan.sourcePaths, plan.targetPaths;
    var r := Lift(Relocated(sp, tp, host));
    var a := Applied(tp, plan.statements, plan.commands, host);
    var c := Lift(CleanupTarget(sp.daemon, tp.daemon, host));
    AppliedSucceeds(tp, plan.statements, plan.commands, host);
    AppliedOrder(tp, plan.statements, plan.commands, host);
    if Converted(plan, host).stop.None? {
      RelocationOrdered(sp, tp, host);
      CleanupPhase(sp.daemon, tp.daemon, host);
      RanOutside(r.steps, 10, 13);
      RanOutside(c.steps, 16, 16);
      RanAppend(a.steps, c.steps);
      RanAppend(r.steps, a.steps + c.steps);
      assert [] + (Ran(a.steps) + []) == Ran(a.steps);
      if plan.statements != [] {
        var w := WritePatch(PatchFile(tp), PatchContents(plan.statements));
        assert w in r.steps + (a.steps + c.steps);
      }
    }
  }

  /** The errors the conversion ends the run with. */
  predicate ConvertFailure(f: Failure) {
    RelocationFailure(f) || f == PatchWrite || f.Rewrite? || CleanupFailure(f)
  }

  lemma ConvertedStops(plan: Plan, host: Host)
    ensures var v := Converted(plan, host);
      v.stop.Some? ==> (v.stop == Some(Panicked(EmptyCommand))
        || (v.stop.value.Failed? && ConvertFailure(v.stop.value.failure)))
  {
    RelocationStart(plan.sourcePaths, plan.targetPaths, host);
    AppliedSucceeds(plan.targetPaths, plan.statements, plan.commands, host);
    CleanupPhase(plan.sourcePaths.daemon, plan.targetPaths.daemon, host);
  }

  lemma WaitedOrdered(f: Flags, o: Oracle)
    ensures Ordered(Waited(f, o).steps) && Within(Waited(f, o).steps, 18, 19)
  {
    AskingOrdered(o.othersStarted);
    PollingOrdered(o.rounds);
    var asking := if f.clusterMember then Stage([], None) else Asking(o.othersStarted);
    AfterOrdered(asking, Polling(o.rounds), 18, 18, 19);
  }

  /** The wait ends exactly when the operator confirmed (on a non-member
      run) and some round converged; it has then polled, and asked first on
      a non-member run. Otherwise the run is still waiting. */
  lemma WaitedSucceeds(f: Flags, o: Oracle)
    ensures var w := Waited(f, o);
      (w.stop.None? <==> ((f.clusterMember || Some(true) in o.othersStarted)
                          && exists k :: 0 <= k < |o.rounds| && Converged(o.rounds[k])))
      && (w.stop.Some? ==> w.stop.value == StillWaiting)
      && (w.stop.None? ==> PollCluster in w.steps && (!f.clusterMember ==> AskOthersStarted in w.steps))
  {
    PollingSettles(o.rounds);
    PollingShape(o.rounds);
    AskingSettles(o.othersStarted);
    AskingShape(o.othersStarted);
    var asking := if f.clusterMember then Stage([], None) else Asking(o.othersStarted);
    var p := Polling(o.rounds);
    if Waited(f, o).stop.None? {
      assert p.steps[|p.steps| - 1] == PollCluster;
      AfterHas(asking, p, PollCluster);
      if !f.clusterMember {
        assert asking.steps[|asking.steps| - 1] == AskOthersStarted;
        AfterHas(asking, p, AskOthersStarted);
      }
    }
  }

  lemma RestartedOrdered(f: Flags, o: Oracle)
    ensures Ordered(Restarted(f, o).steps) && Within(Restarted(f, o).steps, 17, 20)
  {
    WaitedOrdered(f, o);
    var w := if Clustered(f, o) then Waited(f, o) else Stage([], None);
    var check := Stage([CheckTarget], if o.targetInfo then None else Some(Failed(TargetInfo)));
    var start := Stage([StartTarget], if o.targetStarts then None else Some(Failed(TargetStart)));
    OneStep(check, 20);
    OneStep(start, 17);
    AfterOrdered(w, check, 18, 19, 20);
    AfterOrdered(start, After(w, check), 17, 17, 20);
  }

  /** Only a clustered run waits: only a non-member one asks the operator,
      and both poll. */
  lemma RestartedGates(f: Flags, o: Oracle)
    ensures AskOthersStarted in Restarted(f, o).steps ==> !f.clusterMember && Clustered(f, o)
    ensures PollCluster in Restarted(f, o).steps ==> Clustered(f, o)
  {
    PollingOrdered(o.rounds);
    var asking := if f.clusterMember then Stage([], None) else Asking(o.othersStarted);
    var w := if Clustered(f, o) then Waited(f, o) else Stage([], None);
    var check := Stage([CheckTarget], if o.targetInfo then None else Some(Failed(TargetInfo)));
    var start := Stage([StartTarget], if o.targetStarts then None else Some(Failed(TargetStart)));
    AfterHas(start, After(w, check), AskOthersStarted);
    AfterHas(w, check, AskOthersStarted);
    AfterHas(asking, Polling(o.rounds), AskOthersStarted);
    NotWithin(Polling(o.rounds).steps, 19, 19, AskOthersStarted);
    AfterHas(start, After(w, check), PollCluster);
    AfterHas(w, check, PollCluster);
  }

  /** The restart goes through exactly when the target starts, a clustered
      run settles, and the target answers; a settled run has polled, and a
      non-member one has asked the operator first. */
  lemma RestartedSucceeds(f: Flags, o: Oracle)
    ensures var r := Restarted(f, o);
      (r.stop.None? <==> (o.targetStarts
         && (Clustered(f, o) ==> ((f.clusterMember || Some(true) in o.othersStarted)
                                  && exists k :: 0 <= k < |o.rounds| && Converged(o.rounds[k])))
         && o.targetInfo))
      && (r.stop.None? && Clustered(f, o) ==>
            PollCluster in r.steps && (!f.clusterMember ==> AskOthersStarted in r.steps))
  {
    WaitedSucceeds(f, o);
    var w := if Clustered(f, o) then Waited(f, o) else Stage([], None);
    var check := Stage([CheckTarget], if o.targetInfo then None else Some(Failed(TargetInfo)));
    var start := Stage([StartTarget], if o.targetStarts then None else Some(Failed(TargetStart)));
    AfterHas(w, check, PollCluster);
    AfterHas(start, After(w, check), PollCluster);
    AfterHas(w, check, AskOthersStarted);
    AfterHas(start, After(w, check), AskOthersStarted);
  }

  lemma RestartedStops(f: Flags, o: Oracle)
    ensures var r := Restarted(f, o);
      (r.stop.Some? ==> r.stop.value in {Failed(TargetStart), StillWaiting, Failed(TargetInfo)})
      && (r.stop == Some(StillWaiting) ==> Clustered(f, o))
  {
    WaitedSucceeds(f, o);
  }

  lemma ConcludedOrdered(f: Flags, o: Oracle)
    ensures Ordered(Concluded(f, o).steps) && Within(Concluded(f, o).steps, 21, 23)
  {
    RestoredOrdered(f, o);
    UninstalledOrdered(f, o);
    AfterOrdered(Restored(f, o), Uninstalled(f, o), 21, 21, 23);
  }

  lemma RestoredOrdered(f: Flags, o: Oracle)
    ensures Ordered(Restored(f, o).steps) && Within(Restored(f, o).steps, 21, 21)
  {
    ClusterActionsOrdered(o.targetMembers, o.restores, Restoration);
  }

  lemma UninstalledOrdered(f: Flags, o: Oracle)
    ensures Ordered(Uninstalled(f, o).steps) && Within(Uninstalled(f, o).steps, 22, 23)
  {
    var ask := if f.yes then Stage([], None)
               else Stage([AskUninstall], if o.uninstall.None? then Some(Failed(Prompt))
                                          else if !o.uninstall.value then Some(Exited) else None);
    var purge := Stage([Purge], if o.purges then None else Some(Failed(Uninstall)));
    AfterOrdered(ask, purge, 22, 22, 23);
  }

  /** Only a non-member clustered run restores members, and only a run
      without --yes asks before uninstalling. */
  lemma ConcludedGates(f: Flags, o: Oracle)
    ensures forall m :: RestoreMember(m) in Concluded(f, o).steps ==> !f.clusterMember && Clustered(f, o)
    ensures AskUninstall in Concluded(f, o).steps ==> !f.yes
  {
    ClusterActionsFacts(o.targetMembers, o.restores, Restoration);
    forall m | RestoreMember(m) in Concluded(f, o).steps ensures !f.clusterMember && Clustered(f, o) {
      AfterHas(Restored(f, o), Uninstalled(f, o), RestoreMember(m));
    }
    AfterHas(Restored(f, o), Uninstalled(f, o), AskUninstall);
  }

  /** The conclusion goes through exactly when the restore (where there is
      one) is accepted by every member, the uninstall is confirmed or --yes
      was given, and the purge succeeds. */
  lemma ConcludedSucceeds(f: Flags, o: Oracle)
    ensures var c := Concluded(f, o);
      (c.stop.None? <==> ((!f.clusterMember && Clustered(f, o) ==> AllAccept(o.targetMembers, o.restores))
         && (f.yes || o.uninstall == Some(true)) && o.purges))
      && (c.stop.None? ==> (Purge in c.steps && (AskUninstall in c.steps <==> !f.yes)
         && (!f.clusterMember && Clustered(f, o) ==> ActedOnAll(o.targetMembers, c.steps, Restoration))))
  {
    ClusterActionsFacts(o.targetMembers, o.restores, Restoration);
    var r, u := Restored(f, o), Uninstalled(f, o);
    if Concluded(f, o).stop.None? {
      AfterHas(r, u, Purge);
      AfterHas(r, u, AskUninstall);
      assert AskUninstall !in r.steps by { assert Within(r.steps, 21, 21); }
      if !f.clusterMember && Clustered(f, o) {
        ActedOnAllExtend(o.targetMembers, [], r.steps, u.steps, Restoration);
        assert [] + r.steps + u.steps == Concluded(f, o).steps;
      }
    }
  }

  lemma ConcludedStops(f: Flags, o: Oracle)
    ensures var c := Concluded(f, o);
      c.stop.Some? ==> (c.stop.value in {Exited, Failed(Prompt), Failed(Uninstall)}
        || (c.stop.value.Failed? && ActionFailed(Restoration, c.stop.value.failure)))
  {
    ClusterActionsFacts(o.targetMembers, o.restores, Restoration);
  }
}
