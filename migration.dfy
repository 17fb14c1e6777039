/** The phase sequencer `cmdMigrate.Run` (main.go:81-611) step by step: each
    method performs one phase against the oracle, keeps the `clustered`
    variable the source keeps, and returns as soon as a phase ends the run.
    Each is proved to do exactly what its phase function in `Phases` says,
    so every property proved there holds of `Run`. */
module Migration {
  import opened Common
  import opened Trace
  import opened Host
  import opened StoragePools
  import opened Network
  import opened Apply
  import opened Relocation
  import opened Cleanup
  import opened Cluster
  import opened Discovery
  import opened Phases

  /** main.go:126-153: connect to both servers and validate the pair.
      `clustered` starts as the --cluster-member flag and is overwritten
      by the source's answer on a non-member run. */
  method Connect(f: Flags, o: Oracle) returns (steps: seq<Step>, clustered: bool, stop: Option<Outcome>)
    ensures Stage(steps, stop) == Connection(f, o)
    ensures stop.None? ==> clustered == Clustered(f, o)
  {
    clustered := f.clusterMember;
    if !f.clusterMember {
      if !o.sourceConnects {
        return [ConnectSource], clustered, Some(Failed(SourceConnect));
      }
      if o.sourceClustered.None? {
        return [ConnectSource], clustered, Some(Failed(SourceInfo));
      }
      clustered := o.sourceClustered.value;
      if !o.targetConnects {
        return [ConnectSource, ConnectTarget], clustered, Some(Failed(TargetConnect));
      }
      if !o.valid {
        return [ConnectSource, ConnectTarget, Validate], clustered, Some(Failed(Validation));
      }
      return [ConnectSource, ConnectTarget, Validate], clustered, None;
    }
    if !o.targetConnects {
      return [ConnectTarget], clustered, Some(Failed(TargetConnect));
    }
    return [ConnectTarget], clustered, None;
  }

  /** main.go:155-270: the paths, the storage pools and the network
      conversion make up the plan; a member run panics at main.go:241. */
  method PlanMigration(f: Flags, clustered: bool, o: Oracle)
    returns (steps: seq<Step>, plan: Option<Plan>, stop: Option<Outcome>)
    requires clustered == Clustered(f, o)
    ensures Planned(Stage(steps, stop), plan) == Planning(f, o)
  {
    steps := [];
    if o.sourcePaths.None? {
      return steps, None, Some(Failed(SourcePaths));
    }
    if o.targetPaths.None? {
      return steps, None, Some(Failed(TargetPaths));
    }
    var sp, tp := o.sourcePaths.value, o.targetPaths.value;

    var statements: seq<string>, commands: seq<Command> := [], [];
    if !f.clusterMember {
      steps := [ListPools];
      var pools := GatherPools(clustered, o.inventory);
      if pools.Err? {
        return steps, None, Some(Failed(pools.failure));
      }
      statements, commands := PlanRewrites(pools.value, sp, tp);
    }

    // main.go:241 asks srcClient, which a member run never assigned.
    if f.clusterMember {
      return steps, None, Some(Panicked(NilSourceClient));
    }
    if o.northbound.None? {
      return steps, None, Some(Failed(SourceInfo));
    }
    var northbound := o.northbound.value;
    if northbound != "" {
      steps := steps + [QueryOvnRemote];
    }
    var network := NetworkCommands(f.clusterMember, northbound, o.network);
    if network.Err? {
      return steps, None, Some(Failed(network.failure));
    }
    return steps, Some(Plan(sp, tp, statements, commands + network.value)), None;
  }

  /** main.go:86-270: discovery, connections, validation, paths and plan. */
  method Prepare(f: Flags, o: Oracle)
    returns (steps: seq<Step>, clustered: bool, plan: Option<Plan>, stop: Option<Outcome>)
    ensures Planned(Stage(steps, stop), plan) == Preparation(f, o)
    ensures plan.Some? ==> clustered == Clustered(f, o)
  {
    clustered := f.clusterMember;
    if !o.root {
      return [], clustered, None, Some(Failed(NotRoot));
    }
    var source := FirstPresent(o.sources);
    if source.None? {
      return [], clustered, None, Some(Failed(NoSource));
    }
    var target := FirstPresent(o.targets);
    if target.None? {
      return [], clustered, None, Some(Failed(NoTarget));
    }
    var connected;
    connected, clustered, stop := Connect(f, o);
    if stop.Some? {
      return connected, clustered, None, stop;
    }
    var planned;
    planned, plan, stop := PlanMigration(f, clustered, o);
    steps := connected + planned;
  }

  /** main.go:272-316: ask for confirmation unless --yes was given. */
  method Confirm(f: Flags, o: Oracle) returns (steps: seq<Step>, stop: Option<Outcome>)
    ensures Stage(steps, stop) == Confirmation(f, o)
  {
    steps, stop := [], None;
    if !f.clusterMember && !f.yes {
      steps := [AskProceed];
      if o.proceed.None? {
        return steps, Some(Failed(Prompt));
      }
      if !o.proceed.value {
        return steps, Some(Exited);
      }
    }
  }

  /** main.go:319-339: stop the workloads of every member of a clustered
      source, unless CLUSTER_NO_EVACUTE is "1". */
  method Evacuate(f: Flags, clustered: bool, o: Oracle) returns (steps: seq<Step>, stop: Option<Outcome>)
    requires clustered == Clustered(f, o)
    ensures Stage(steps, stop) == Evacuated(f, o)
  {
    steps, stop := [], None;
    if !f.clusterMember && clustered && !o.noEvacuate {
      var p := ActOnCluster(o.sourceMembers, o.evacuates, Evacuation);
      steps := p.steps;
      if p.failure.Some? {
        stop := Some(Failed(p.failure.value));
      }
    }
  }

  /** main.go:272-354: confirm, evacuate, and stop both servers; the errors
      of the two stops are built and dropped. */
  method Quiesce(f: Flags, clustered: bool, o: Oracle) returns (steps: seq<Step>, stop: Option<Outcome>)
    requires clustered == Clustered(f, o)
    ensures Stage(steps, stop) == Quiesced(f, o)
  {
    steps, stop := Confirm(f, o);
    if stop.Some? {
      return;
    }
    var evacuated;
    evacuated, stop := Evacuate(f, clustered, o);
    steps := steps + evacuated;
    if stop.Some? {
      return;
    }
    // The results of source.Stop() and target.Stop() are not looked at.
    steps := steps + [StopSource(o.sourceStops), StopTarget(o.targetStops)];
  }

  /** main.go:356-494: move the data, apply the rewrite plan, and repair the
      target's symlinks. */
  method Convert(plan: Plan, host: Host) returns (steps: seq<Step>, stop: Option<Outcome>)
    ensures Stage(steps, stop) == Converted(plan, host)
  {
    var sp, tp := plan.sourcePaths, plan.targetPaths;
    var moved := Relocate(sp, tp, host);
    ghost var rest := After(Applied(tp, plan.statements, plan.commands, host),
                            Lift(CleanupTarget(sp.daemon, tp.daemon, host)));
    assert Converted(plan, host) == After(Lift(moved), rest);
    steps := moved.steps;
    if moved.failure.Some? {
      return steps, Some(Failed(moved.failure.value));
    }
    var applied;
    applied, stop := ApplyPlan(tp, plan.statements, plan.commands, host);
    if stop.Some? {
      return steps + applied, stop;
    }
    var cleaned := CleanUp(sp.daemon, tp.daemon, host);
    assert rest == Stage(applied + cleaned.steps, Lift(cleaned).stop);
    steps := steps + (applied + cleaned.steps);
    if cleaned.failure.Some? {
      stop := Some(Failed(cleaned.failure.value));
    }
  }

  /** main.go:504-557: a non-member run asks until the operator confirms
      the other servers, then the run polls until the cluster converges. */
  method AwaitCluster(f: Flags, o: Oracle) returns (steps: seq<Step>, stop: Option<Outcome>)
    ensures Stage(steps, stop) == Waited(f, o)
  {
    steps, stop := [], None;
    if !f.clusterMember {
      var asked, confirmed := AwaitOperator(o.othersStarted);
      steps := Repeat(AskOthersStarted, asked);
      if !confirmed {
        return steps, Some(StillWaiting);
      }
    }
    var polled, converged := AwaitConvergence(o.rounds);
    steps := steps + Repeat(PollCluster, polled);
    if !converged {
      stop := Some(StillWaiting);
    }
  }

  /** main.go:496-565: start the target, wait for a clustered run to settle,
      and check the target. */
  method Restart(f: Flags, clustered: bool, o: Oracle) returns (steps: seq<Step>, stop: Option<Outcome>)
    requires clustered == Clustered(f, o)
    ensures Stage(steps, stop) == Restarted(f, o)
  {
    steps, stop := [StartTarget], None;
    if !o.targetStarts {
      return steps, Some(Failed(TargetStart));
    }
    if clustered {
      var waited;
      waited, stop := AwaitCluster(f, o);
      steps := steps + waited;
      if stop.Some? {
        return;
      }
    }
    steps := steps + [CheckTarget];
    if !o.targetInfo {
      stop := Some(Failed(TargetInfo));
    }
  }

  /** main.go:568-588: restore every member of a clustered non-member run. */
  method Restore(f: Flags, clustered: bool, o: Oracle) returns (steps: seq<Step>, stop: Option<Outcome>)
    requires clustered == Clustered(f, o)
    ensures Stage(steps, stop) == Restored(f, o)
  {
    steps, stop := [], None;
    if !f.clusterMember && clustered {
      var p := ActOnCluster(o.targetMembers, o.restores, Restoration);
      steps := p.steps;
      if p.failure.Some? {
        stop := Some(Failed(p.failure.value));
      }
    }
  }

  /** main.go:590-609: confirm the uninstall unless --yes was given, then
      purge the source package. */
  method RemoveSource(f: Flags, o: Oracle) returns (steps: seq<Step>, stop: Option<Outcome>)
    ensures Stage(steps, stop) == Uninstalled(f, o)
  {
    steps, stop := [], None;
    if !f.yes {
      steps := [AskUninstall];
      if o.uninstall.None? {
        return steps, Some(Failed(Prompt));
      }
      if !o.uninstall.value {
        return steps, Some(Exited);
      }
    }
    steps := steps + [Purge];
    if !o.purges {
      stop := Some(Failed(Uninstall));
    }
  }

  /** main.go:567-611. */
  method Conclude(f: Flags, clustered: bool, o: Oracle) returns (steps: seq<Step>, stop: Option<Outcome>)
    requires clustered == Clustered(f, o)
    ensures Stage(steps, stop) == Concluded(f, o)
  {
    steps, stop := Restore(f, clustered, o);
    if stop.Some? {
      return;
    }
    var removed;
    removed, stop := RemoveSource(f, o);
    steps := steps + removed;
  }

  /** main.go:272-611: the phases after the preparation. */
  method Execute(f: Flags, clustered: bool, o: Oracle, plan: Plan) returns (steps: seq<Step>, stop: Option<Outcome>)
    requires clustered == Clustered(f, o)
    ensures Stage(steps, stop) == Execution(f, o, plan)
  {
    steps, stop := Quiesce(f, clustered, o);
    if stop.Some? {
      return;
    }
    var converted, restarted, concluded;
    converted, stop := Convert(plan, o.host);
    if stop.Some? {
      return steps + converted, stop;
    }
    restarted, stop := Restart(f, clustered, o);
    if stop.Some? {
      return steps + (converted + restarted), stop;
    }
    concluded, stop := Conclude(f, clustered, o);
    steps := steps + (converted + (restarted + concluded));
  }

  /** `cmdMigrate.Run` (main.go:81-611): the steps the run takes and what it
      returns. */
  method Run(f: Flags, o: Oracle) returns (trace: seq<Step>, outcome: Outcome)
    ensures trace == Migrated(f, o).steps && outcome == Verdict(f, o)
  {
    var clustered, plan, stop;
    trace, clustered, plan, stop := Prepare(f, o);
    PreparationHandsOn(f, o);
    if plan.Some? {
      var executed;
      executed, stop := Execute(f, clustered, o, plan.value);
      trace := trace + executed;
    }
    outcome := if stop.Some? then stop.value else Completed;
  }
}
