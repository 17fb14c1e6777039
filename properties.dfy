/** What a whole run of `cmdMigrate.Run` (main.go:81-611) does, as lemmas
    about the phase table: the order of its steps, the flags that gate them,
    the commands it runs, the errors it ignores, and exactly when it
    completes. */
module Properties {
  import opened Common
  import opened Trace
  import opened StoragePools
  import opened Apply
  import opened Relocation
  import opened Cluster
  import opened Phases
  import opened Host
  import opened Cleanup

  /** The phases after the preparation keep to their ranks. */
  lemma ExecutionOrdered(f: Flags, o: Oracle, plan: Plan)
    ensures Ordered(Execution(f, o, plan).steps) && Within(Execution(f, o, plan).steps, 6, 23)
  {
    var q, v, r, c := Quiesced(f, o), Converted(plan, o.host), Restarted(f, o), Concluded(f, o);
    QuiescedOrdered(f, o);
    ConvertedOrdered(plan, o.host);
    RestartedOrdered(f, o);
    ConcludedOrdered(f, o);
    AfterOrdered(r, c, 17, 20, 23);
    AfterOrdered(v, After(r, c), 10, 16, 23);
    AfterOrdered(q, After(v, After(r, c)), 6, 9, 23);
  }

  /** An outcome only the phases after the preparation can end a run with. */
  predicate LateOutcome(out: Outcome) {
    out != Completed && out != Panicked(NilSourceClient) && (out.Failed? ==> !DiscoveryFailure(out.failure))
  }

  lemma ExecutionStops(f: Flags, o: Oracle, plan: Plan)
    ensures Execution(f, o, plan).stop.Some? ==> LateOutcome(Execution(f, o, plan).stop.value)
  {
    var q, v, r, c := Quiesced(f, o), Converted(plan, o.host), Restarted(f, o), Concluded(f, o);
    QuiescedLate(f, o);
    ConvertedLate(plan, o.host);
    RestartedLate(f, o);
    ConcludedLate(f, o);
    var rc := After(r, c);
    assert rc.stop.Some? ==> LateOutcome(rc.stop.value);
    var vrc := After(v, rc);
    assert vrc.stop.Some? ==> LateOutcome(vrc.stop.value);
    assert Execution(f, o, plan) == After(q, vrc);
  }

  lemma QuiescedLate(f: Flags, o: Oracle)
    ensures Quiesced(f, o).stop.Some? ==> LateOutcome(Quiesced(f, o).stop.value)
  {
    QuiescedStops(f, o);
  }

  lemma ConvertedLate(plan: Plan, host: Host)
    ensures Converted(plan, host).stop.Some? ==> LateOutcome(Converted(plan, host).stop.value)
  {
    ConvertedStops(plan, host);
  }

  lemma RestartedLate(f: Flags, o: Oracle)
    ensures Restarted(f, o).stop.Some? ==> LateOutcome(Restarted(f, o).stop.value)
  {
    RestartedStops(f, o);
  }

  lemma ConcludedLate(f: Flags, o: Oracle)
    ensures Concluded(f, o).stop.Some? ==> LateOutcome(Concluded(f, o).stop.value)
  {
    ConcludedStops(f, o);
  }

  /** Every run performs its steps in phase order. */
  lemma RunOrdered(f: Flags, o: Oracle)
    ensures Ordered(Migrated(f, o).steps)
  {
    var p := Preparation(f, o);
    PreparationFacts(f, o);
    if p.plan.Some? {
      ExecutionOrdered(f, o, p.plan.value);
      AfterOrdered(p.stage, Execution(f, o, p.plan.value), 1, 5, 23);
    }
  }

  /** main.go:86-123: a run stops with "must be run as root", "no source"
      or "no target" exactly when that check fails, having done nothing. */
  lemma RunDiscovery(f: Flags, o: Oracle)
    ensures Verdict(f, o) == Failed(NotRoot) <==> !o.root
    ensures Verdict(f, o) == Failed(NoSource) <==> o.root && true !in o.sources
    ensures Verdict(f, o) == Failed(NoTarget) <==> o.root && true in o.sources && true !in o.targets
    ensures !Discovered(o) ==> Migrated(f, o).steps == []
  {
    var p := Preparation(f, o);
    PreparationFacts(f, o);
    if p.plan.Some? {
      ExecutionStops(f, o, p.plan.value);
    }
  }

  /** The source daemon is contacted exactly on a non-member run that found
      both servers. */
  lemma RunContactsSource(f: Flags, o: Oracle)
    ensures ConnectSource in Migrated(f, o).steps <==> Discovered(o) && !f.clusterMember
  {
    var p := Preparation(f, o);
    PreparationFacts(f, o);
    if p.plan.Some? {
      ExecutionOrdered(f, o, p.plan.value);
      AfterHas(p.stage, Execution(f, o, p.plan.value), ConnectSource);
    }
  }

  /** A --cluster-member run never gets past main.go:241: it at most
      connects to the target, never completes, and one that got its paths
      panics on the never-assigned source client. */
  lemma RunMemberPanics(f: Flags, o: Oracle)
    requires f.clusterMember
    ensures Verdict(f, o) != Completed
    ensures Migrated(f, o).steps == [] || Migrated(f, o).steps == [ConnectTarget]
    ensures Discovered(o) && o.targetConnects && o.sourcePaths.Some? && o.targetPaths.Some? ==>
      Verdict(f, o) == Panicked(NilSourceClient)
  {
    PreparationFacts(f, o);
  }

  /** Where a step of a run comes from: the preparation, or one of the
      later phases the run reached. */
  lemma ExecutionHas(f: Flags, o: Oracle, plan: Plan, s: Step)
    ensures var q, v, r, c := Quiesced(f, o), Converted(plan, o.host), Restarted(f, o), Concluded(f, o);
      s in Execution(f, o, plan).steps <==>
        s in q.steps || (q.stop.None? && (s in v.steps || (v.stop.None? && (s in r.steps || (r.stop.None? && s in c.steps)))))
  {
    var q, v, r, c := Quiesced(f, o), Converted(plan, o.host), Restarted(f, o), Concluded(f, o);
    AfterHas(q, After(v, After(r, c)), s);
    AfterHas(v, After(r, c), s);
    AfterHas(r, c, s);
  }

  /** A step ranked among the stops of the servers (6-9) comes from that phase. */
  lemma FromQuiesced(f: Flags, o: Oracle, s: Step)
    requires 6 <= Rank(s) <= 9
    ensures s in Migrated(f, o).steps ==> s in Quiesced(f, o).steps
  {
    var p := Preparation(f, o);
    PreparationFacts(f, o);
    NotWithin(p.stage.steps, 1, 5, s);
    if p.plan.Some? {
      var plan := p.plan.value;
      AfterHas(p.stage, Execution(f, o, plan), s);
      ExecutionHas(f, o, plan, s);
      ConvertedOrdered(plan, o.host);
      RestartedOrdered(f, o);
      ConcludedOrdered(f, o);
      NotWithin(Converted(plan, o.host).steps, 10, 16, s);
      NotWithin(Restarted(f, o).steps, 17, 20, s);
      NotWithin(Concluded(f, o).steps, 21, 23, s);
    }
  }

  /** A step ranked among the restart (17-20) comes from that phase. */
  lemma FromRestarted(f: Flags, o: Oracle, s: Step)
    requires 17 <= Rank(s) <= 20
    ensures s in Migrated(f, o).steps ==> s in Restarted(f, o).steps
  {
    var p := Preparation(f, o);
    PreparationFacts(f, o);
    NotWithin(p.stage.steps, 1, 5, s);
    if p.plan.Some? {
      var plan := p.plan.value;
      AfterHas(p.stage, Execution(f, o, plan), s);
      ExecutionHas(f, o, plan, s);
      QuiescedOrdered(f, o);
      ConvertedOrdered(plan, o.host);
      ConcludedOrdered(f, o);
      NotWithin(Quiesced(f, o).steps, 6, 9, s);
      NotWithin(Converted(plan, o.host).steps, 10, 16, s);
      NotWithin(Concluded(f, o).steps, 21, 23, s);
    }
  }

  /** A step ranked among the conclusion (21-23) comes from that phase. */
  lemma FromConcluded(f: Flags, o: Oracle, s: Step)
    requires 21 <= Rank(s) <= 23
    ensures s in Migrated(f, o).steps ==> s in Concluded(f, o).steps
  {
    var p := Preparation(f, o);
    PreparationFacts(f, o);
    NotWithin(p.stage.steps, 1, 5, s);
    if p.plan.Some? {
      var plan := p.plan.value;
      AfterHas(p.stage, Execution(f, o, plan), s);
      ExecutionHas(f, o, plan, s);
      QuiescedOrdered(f, o);
      ConvertedOrdered(plan, o.host);
      RestartedOrdered(f, o);
      NotWithin(Quiesced(f, o).steps, 6, 9, s);
      NotWithin(Converted(plan, o.host).steps, 10, 16, s);
      NotWithin(Restarted(f, o).steps, 17, 20, s);
    }
  }

  /** main.go:273: only a non-member run without --yes asks to proceed. */
  lemma RunAsksToProceed(f: Flags, o: Oracle)
    ensures AskProceed in Migrated(f, o).steps ==> !f.clusterMember && !f.yes
  {
    QuiescedGates(f, o);
    FromQuiesced(f, o, AskProceed);
  }

  /** main.go:319: members are evacuated only on a clustered run without
      CLUSTER_NO_EVACUTE. */
  lemma RunEvacuates(f: Flags, o: Oracle, m: string)
    ensures EvacuateMember(m) in Migrated(f, o).steps ==> Evacuating(f, o)
  {
    QuiescedGates(f, o);
    FromQuiesced(f, o, EvacuateMember(m));
  }

  /** main.go:592: only a run without --yes asks to uninstall the source. */
  lemma RunAsksToUninstall(f: Flags, o: Oracle)
    ensures AskUninstall in Migrated(f, o).steps ==> !f.yes
  {
    ConcludedGates(f, o);
    FromConcluded(f, o, AskUninstall);
  }

  /** main.go:504-505: only a non-member clustered run asks whether the
      other servers were started. */
  lemma RunAsksOthers(f: Flags, o: Oracle)
    ensures AskOthersStarted in Migrated(f, o).steps ==> !f.clusterMember && Clustered(f, o)
  {
    RestartedGates(f, o);
    FromRestarted(f, o, AskOthersStarted);
  }

  /** main.go:524: only a clustered run polls the cluster. */
  lemma RunPolls(f: Flags, o: Oracle)
    ensures PollCluster in Migrated(f, o).steps ==> Clustered(f, o)
  {
    RestartedGates(f, o);
    FromRestarted(f, o, PollCluster);
  }

  /** main.go:568: only a non-member clustered run restores members. */
  lemma RunRestores(f: Flags, o: Oracle, m: string)
    ensures RestoreMember(m) in Migrated(f, o).steps ==> !f.clusterMember && Clustered(f, o)
  {
    ConcludedGates(f, o);
    FromConcluded(f, o, RestoreMember(m));
  }

  /** The preparation asks nothing about the stop calls. */
  lemma PreparationIgnoresStops(f: Flags, o: Oracle, sourceStops: bool, targetStops: bool)
    ensures Preparation(f, o.(sourceStops := sourceStops, targetStops := targetStops)) == Preparation(f, o)
  {
    var o' := o.(sourceStops := sourceStops, targetStops := targetStops);
    assert Clustered(f, o') == Clustered(f, o);
    assert Connection(f, o') == Connection(f, o);
    if Plannable(f, o) {
      assert IntendedPlan(f, o') == IntendedPlan(f, o);
    }
    assert Planning(f, o') == Planning(f, o);
  }

  /** The later phases end the same way whatever the stop calls report. */
  lemma ExecutionIgnoresStops(f: Flags, o: Oracle, plan: Plan, sourceStops: bool, targetStops: bool)
    ensures Execution(f, o.(sourceStops := sourceStops, targetStops := targetStops), plan).stop
         == Execution(f, o, plan).stop
  {
    var o' := o.(sourceStops := sourceStops, targetStops := targetStops);
    QuiescedIgnoresStops(f, o, sourceStops, targetStops);
    assert Clustered(f, o') == Clustered(f, o);
    assert Restarted(f, o') == Restarted(f, o);
    assert Concluded(f, o') == Concluded(f, o);
  }

  lemma QuiescedIgnoresStops(f: Flags, o: Oracle, sourceStops: bool, targetStops: bool)
    ensures Quiesced(f, o.(sourceStops := sourceStops, targetStops := targetStops)).stop == Quiesced(f, o).stop
  {
    var o' := o.(sourceStops := sourceStops, targetStops := targetStops);
    assert Clustered(f, o') == Clustered(f, o);
    assert Confirmation(f, o') == Confirmation(f, o);
    assert Evacuated(f, o') == Evacuated(f, o);
  }

  /** main.go:341-354: whatever the two stop calls report, the run ends the
      same way. */
  lemma RunIgnoresStopErrors(f: Flags, o: Oracle, sourceStops: bool, targetStops: bool)
    ensures Verdict(f, o.(sourceStops := sourceStops, targetStops := targetStops)) == Verdict(f, o)
  {
    var o' := o.(sourceStops := sourceStops, targetStops := targetStops);
    PreparationIgnoresStops(f, o, sourceStops, targetStops);
    var p := Preparation(f, o);
    if p.plan.Some? {
      ExecutionIgnoresStops(f, o, p.plan.value, sourceStops, targetStops);
    }
    assert Migrated(f, o').stop == Migrated(f, o).stop;
  }

  /** A run that stopped the source had a plan, also stopped the target,
      and went on to detach the target's mount points. */
  lemma RunStopsServersThenDetaches(f: Flags, o: Oracle)
    ensures StopSource(o.sourceStops) in Migrated(f, o).steps ==>
      Plannable(f, o) && StopTarget(o.targetStops) in Migrated(f, o).steps
      && forall s :: s in Detaches(IntendedPlan(f, o).targetPaths.daemon) ==> s in Migrated(f, o).steps
  {
    var p := Preparation(f, o);
    var stop := StopSource(o.sourceStops);
    PreparationFacts(f, o);
    FromQuiesced(f, o, stop);
    if stop in Migrated(f, o).steps {
      NotWithin(p.stage.steps, 1, 5, stop);
      assert p.plan.Some?;
      var plan := p.plan.value;
      var q, v := Quiesced(f, o), Converted(plan, o.host);
      QuiescedSucceeds(f, o);
      ConvertedRuns(plan, o.host);
      var stopTarget := StopTarget(o.targetStops);
      AfterHas(p.stage, Execution(f, o, plan), stopTarget);
      ExecutionHas(f, o, plan, stopTarget);
      forall s | s in Detaches(plan.targetPaths.daemon) ensures s in Migrated(f, o).steps {
        assert s in v.steps;
        AfterHas(p.stage, Execution(f, o, plan), s);
        ExecutionHas(f, o, plan, s);
      }
    }
  }

  /** The commands a run executes are a prefix of the plan's, and only a
      run that got a plan executes any. */
  lemma RunRunsPlanPrefix(f: Flags, o: Oracle)
    ensures Ran(Migrated(f, o).steps) == [] || (Plannable(f, o) && Ran(Migrated(f, o).steps) <= IntendedPlan(f, o).commands)
  {
    var p := Preparation(f, o);
    PreparationFacts(f, o);
    RanOutside(p.stage.steps, 1, 5);
    if p.plan.Some? {
      var plan := p.plan.value;
      var q, v, r, c := Quiesced(f, o), Converted(plan, o.host), Restarted(f, o), Concluded(f, o);
      QuiescedOrdered(f, o);
      RestartedOrdered(f, o);
      ConcludedOrdered(f, o);
      ConvertedRuns(plan, o.host);
      RanOutside(q.steps, 6, 9);
      RanOutside(r.steps, 17, 20);
      RanOutside(c.steps, 21, 23);
      AfterRan(r, c);
      AfterRan(v, After(r, c));
      AfterRan(q, After(v, After(r, c)));
      AfterRan(p.stage, Execution(f, o, plan));
      assert Ran(After(r, c).steps) == [];
      assert Ran(After(v, After(r, c)).steps) == Ran(v.steps);
    }
  }

  /** The preparation ends a run only with an error or the member panic. */
  lemma PreparationStopsFail(f: Flags, o: Oracle)
    ensures var p := Preparation(f, o);
      p.stage.stop.Some? ==> p.stage.stop.value.Failed? || p.stage.stop.value == Panicked(NilSourceClient)
  {
    PlanningStops(f, o);
  }

  // When a run completes

  /** A non-member run is confirmed: by --yes or by the operator. */
  predicate Confirmed(f: Flags, o: Oracle) {
    f.yes || o.proceed == Some(true)
  }

  /** The move, the patch, every command and the cleanup succeed. */
  predicate Converts(plan: Plan, host: Host) {
    Relocated(plan.sourcePaths, plan.targetPaths, host).failure.None?
    && PatchWritten(plan.targetPaths, plan.statements, host)
    && (forall k :: 0 <= k < |plan.commands| ==> Succeeds(plan.commands[k], host.run))
    && CleanupTarget(plan.sourcePaths.daemon, plan.targetPaths.daemon, host).failure.None?
  }

  /** A non-member run's target starts, a clustered one's operator confirms
      the other servers and the cluster converges, and the target answers. */
  predicate Settles(f: Flags, o: Oracle) {
    o.targetStarts
    && (Clustered(f, o) ==> Some(true) in o.othersStarted
                            && exists k :: 0 <= k < |o.rounds| && Converged(o.rounds[k]))
    && o.targetInfo
  }

  /** A non-member run's members accept the restore, the uninstall is
      confirmed and the purge succeeds. */
  predicate Concludes(f: Flags, o: Oracle) {
    (Clustered(f, o) ==> AllAccept(o.targetMembers, o.restores))
    && (f.yes || o.uninstall == Some(true)) && o.purges
  }

  /** Every answer the run meets lets it go on. */
  predicate Cooperative(f: Flags, o: Oracle) {
    Discovered(o) && Connects(f, o) && Plannable(f, o)
    && Confirmed(f, o) && (Evacuating(f, o) ==> AllAccept(o.sourceMembers, o.evacuates))
    && Converts(IntendedPlan(f, o), o.host) && Settles(f, o) && Concludes(f, o)
  }

  /** The later phases of a non-member run go through exactly when all
      their answers let them. */
  lemma ExecutionSucceeds(f: Flags, o: Oracle, plan: Plan)
    requires !f.clusterMember
    ensures Execution(f, o, plan).stop.None? <==>
      Confirmed(f, o) && (Evacuating(f, o) ==> AllAccept(o.sourceMembers, o.evacuates))
      && Converts(plan, o.host) && Settles(f, o) && Concludes(f, o)
  {
    QuiescedSucceeds(f, o);
    ConvertedSucceeds(plan, o.host);
    RestartedSucceeds(f, o);
    ConcludedSucceeds(f, o);
  }

  /** A run completes exactly when it is cooperative. */
  lemma RunCompletes(f: Flags, o: Oracle)
    ensures Verdict(f, o) == Completed <==> Cooperative(f, o)
  {
    var p := Preparation(f, o);
    PreparationFacts(f, o);
    PreparationStopsFail(f, o);
    if p.plan.Some? {
      ExecutionStops(f, o, p.plan.value);
      ExecutionSucceeds(f, o, p.plan.value);
    }
  }

  /** No phase ends a run with `Completed`: a run completes exactly when no
      phase stopped it. */
  lemma CompletedUnstopped(f: Flags, o: Oracle)
    ensures Verdict(f, o) == Completed <==> Migrated(f, o).stop.None?
  {
    var p := Preparation(f, o);
    PreparationStopsFail(f, o);
    if p.plan.Some? {
      ExecutionStops(f, o, p.plan.value);
    }
  }

  /** A run no phase stopped went through every phase, its steps those of
      the phases one after the other. */
  lemma CompletedPhases(f: Flags, o: Oracle)
    requires Migrated(f, o).stop.None?
    ensures Plannable(f, o) && Preparation(f, o).plan == Some(IntendedPlan(f, o))
    ensures var p, plan := Preparation(f, o), IntendedPlan(f, o);
      var q, v, r, c := Quiesced(f, o), Converted(plan, o.host), Restarted(f, o), Concluded(f, o);
      q.stop.None? && v.stop.None? && r.stop.None? && c.stop.None?
      && Migrated(f, o).steps == p.stage.steps + (q.steps + (v.steps + (r.steps + c.steps)))
  {
    var p := Preparation(f, o);
    PreparationFacts(f, o);
    assert p.plan.Some?;
    var plan := p.plan.value;
    var q, v, r, c := Quiesced(f, o), Converted(plan, o.host), Restarted(f, o), Concluded(f, o);
    AfterNone(p.stage, Execution(f, o, plan));
    AfterNone(q, After(v, After(r, c)));
    AfterNone(v, After(r, c));
    AfterNone(r, c);
  }

  /** The steps of a completed run are those of its phases. */
  lemma CompletedHas(f: Flags, o: Oracle, s: Step)
    requires Verdict(f, o) == Completed
    ensures Plannable(f, o)
    ensures s in Migrated(f, o).steps <==>
      s in Preparation(f, o).stage.steps || s in Quiesced(f, o).steps || s in Converted(IntendedPlan(f, o), o.host).steps
      || s in Restarted(f, o).steps || s in Concluded(f, o).steps
  {
    CompletedUnstopped(f, o);
    CompletedPhases(f, o);
  }

  /** The only commands of a completed run are those of the conversion. */
  lemma CompletedRan(f: Flags, o: Oracle)
    requires Migrated(f, o).stop.None?
    ensures Plannable(f, o) && Ran(Migrated(f, o).steps) == Ran(Converted(IntendedPlan(f, o), o.host).steps)
  {
    CompletedPhases(f, o);
    var p, plan := Preparation(f, o), IntendedPlan(f, o);
    var q, v, r, c := Quiesced(f, o), Converted(plan, o.host), Restarted(f, o), Concluded(f, o);
    PreparationFacts(f, o);
    QuiescedOrdered(f, o);
    RestartedOrdered(f, o);
    ConcludedOrdered(f, o);
    RanOutside(p.stage.steps, 1, 5);
    RanOutside(q.steps, 6, 9);
    RanOutside(r.steps, 17, 20);
    RanOutside(c.steps, 21, 23);
    RanAppend(r.steps, c.steps);
    RanAppend(v.steps, r.steps + c.steps);
    RanAppend(q.steps, v.steps + (r.steps + c.steps));
    RanAppend(p.stage.steps, q.steps + (v.steps + (r.steps + c.steps)));
    assert [] + ([] + (Ran(v.steps) + ([] + []))) == Ran(v.steps);
  }

  /** A completed run executed every command of the plan, wrote the patch
      when there were statements, and purged the source. */
  lemma RunCompletedConverts(f: Flags, o: Oracle)
    requires Verdict(f, o) == Completed
    ensures Plannable(f, o) && Ran(Migrated(f, o).steps) == IntendedPlan(f, o).commands
    ensures var plan := IntendedPlan(f, o);
      plan.statements != [] ==>
        WritePatch(PatchFile(plan.targetPaths), PatchContents(plan.statements)) in Migrated(f, o).steps
    ensures Purge in Migrated(f, o).steps
  {
    CompletedUnstopped(f, o);
    CompletedPhases(f, o);
    CompletedRan(f, o);
    var plan := IntendedPlan(f, o);
    ConvertedSucceeds(plan, o.host);
    ConcludedSucceeds(f, o);
    CompletedHas(f, o, Purge);
    CompletedHas(f, o, WritePatch(PatchFile(plan.targetPaths), PatchContents(plan.statements)));
  }

  /** A completed run asked to proceed exactly when --yes was not given. */
  lemma RunCompletedAsksToProceed(f: Flags, o: Oracle)
    requires Verdict(f, o) == Completed
    ensures AskProceed in Migrated(f, o).steps <==> !f.yes
  {
    RunAsksToProceed(f, o);
    if !f.yes {
      CompletedUnstopped(f, o);
      CompletedPhases(f, o);
      QuiescedAsks(f, o);
      CompletedHas(f, o, AskProceed);
    }
  }

  /** A completed run asked to uninstall exactly when --yes was not given. */
  lemma RunCompletedAsksToUninstall(f: Flags, o: Oracle)
    requires Verdict(f, o) == Completed
    ensures AskUninstall in Migrated(f, o).steps <==> !f.yes
  {
    RunAsksToUninstall(f, o);
    if !f.yes {
      CompletedUnstopped(f, o);
      CompletedPhases(f, o);
      ConcludedAsks(f, o);
      CompletedHas(f, o, AskUninstall);
    }
  }

  lemma QuiescedAsks(f: Flags, o: Oracle)
    ensures !f.clusterMember && !f.yes ==> AskProceed in Quiesced(f, o).steps
  {
    QuiescedGates(f, o);
  }

  lemma ConcludedAsks(f: Flags, o: Oracle)
    ensures Concluded(f, o).stop.None? ==> (AskUninstall in Concluded(f, o).steps <==> !f.yes)
  {
    ConcludedSucceeds(f, o);
  }

  /** Acting on every member carries over to a trace holding those steps. */
  lemma ActedOnAllIn(listed: Option<seq<string>>, steps: seq<Step>, trace: seq<Step>, a: Action)
    requires ActedOnAll(listed, steps, a) && forall s :: s in steps ==> s in trace
    ensures ActedOnAll(listed, trace, a)
  {
  }

  /** A completed clustered run evacuated (unless told not to) and restored
      every member. */
  lemma RunCompletedActsOnMembers(f: Flags, o: Oracle)
    requires Verdict(f, o) == Completed && Clustered(f, o)
    ensures Evacuating(f, o) ==> ActedOnAll(o.sourceMembers, Migrated(f, o).steps, Evacuation)
    ensures ActedOnAll(o.targetMembers, Migrated(f, o).steps, Restoration)
  {
    CompletedUnstopped(f, o);
    CompletedPhases(f, o);
    QuiescedSucceeds(f, o);
    ConcludedSucceeds(f, o);
    if Evacuating(f, o) {
      ActedOnAllIn(o.sourceMembers, Quiesced(f, o).steps, Migrated(f, o).steps, Evacuation);
    }
    ActedOnAllIn(o.targetMembers, Concluded(f, o).steps, Migrated(f, o).steps, Restoration);
  }

  /** A completed clustered run asked about the other servers and saw the
      cluster converge. */
  lemma RunCompletedConverges(f: Flags, o: Oracle)
    requires Verdict(f, o) == Completed && Clustered(f, o)
    ensures AskOthersStarted in Migrated(f, o).steps && PollCluster in Migrated(f, o).steps
    ensures exists k :: 0 <= k < |o.rounds| && Converged(o.rounds[k])
  {
    CompletedUnstopped(f, o);
    CompletedPhases(f, o);
    RestartedSucceeds(f, o);
  }

  /** main.go:524-557 gives up only on a clustered run: a standalone one
      never waits. */
  lemma RunWaitsOnlyInCluster(f: Flags, o: Oracle)
    ensures Verdict(f, o) == StillWaiting ==> Clustered(f, o)
  {
    var p := Preparation(f, o);
    PreparationStopsFail(f, o);
    PreparationFacts(f, o);
    if p.plan.Some? {
      var plan := p.plan.value;
      var q, v, r, c := Quiesced(f, o), Converted(plan, o.host), Restarted(f, o), Concluded(f, o);
      QuiescedStops(f, o);
      ConvertedStops(plan, o.host);
      RestartedStops(f, o);
      ConcludedStops(f, o);
    }
  }

  lemma QuiescedExits(f: Flags, o: Oracle)
    ensures Quiesced(f, o).stop == Some(Exited) ==> !f.yes && o.proceed == Some(false)
  {
    ClusterActionsFacts(o.sourceMembers, o.evacuates, Evacuation);
  }

  lemma ConcludedExits(f: Flags, o: Oracle)
    ensures Concluded(f, o).stop == Some(Exited) ==> !f.yes && o.uninstall == Some(false)
  {
    ClusterActionsFacts(o.targetMembers, o.restores, Restoration);
  }

  /** A run exits quietly only when the operator declined one of the two
      questions. */
  lemma RunExitsOnDecline(f: Flags, o: Oracle)
    ensures Verdict(f, o) == Exited ==> !f.yes && (o.proceed == Some(false) || o.uninstall == Some(false))
  {
    var p := Preparation(f, o);
    PreparationStopsFail(f, o);
    PreparationFacts(f, o);
    if p.plan.Some? {
      var plan := p.plan.value;
      ConvertedStops(plan, o.host);
      RestartedStops(f, o);
      QuiescedExits(f, o);
      ConcludedExits(f, o);
    }
  }
}
