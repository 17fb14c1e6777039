# lxd-to-incus: a verified model of the migration run

`lxd-to-incus` converts a host running LXD into one running Incus. Its whole
work happens in `cmdMigrate.Run` (`cmd/lxd-to-incus/main.go`, lines 81-611).
That function is one long sequence of phases:

1. discovery: root check, first present source and target;
2. connection and validation;
3. the rewrite plan: storage pool statements, ceph renames and OVN/OVS commands;
4. confirmation and cluster evacuation;
5. stopping both servers;
6. wiping the target and moving the data;
7. the database patch and the data migration commands;
8. cleanup and symlink repair;
9. restart, the wait for the cluster, the target check;
10. cluster restore, uninstall confirmation, purge.

This project models that function in Dafny and proves properties of the model.

## How the model is built

- **The outside world is an oracle.** Every answer the run gets is a field of
  `Phases.Oracle` or of `Host.Host`: a call into a server, a prompt, an
  environment variable, a system call, a subprocess. Per-path and per-argv
  answers are functions in those fields.
- **The run yields a trace and an outcome.** The trace is a sequence of
  `Trace.Step` values, one per externally visible action. The outcome is an
  `Outcome`: `Completed`, `Failed(f)` for each error return, `Exited` for
  `os.Exit(1)` after a declined prompt, `Panicked(p)` for a Go runtime panic,
  and `StillWaiting` (see the loops below).
- **Each phase has two forms.** A specification function in `Phases`
  (`Preparation`, `Quiesced`, `Converted`, `Restarted`, `Concluded`, …)
  composes into `Migrated` (the trace) and `Verdict` (the outcome). An
  imperative method in `Migration` and in the phase modules performs the
  phase step by step, with the source's loops and early returns.
  - `Migration.Run` is proved to yield exactly `Migrated(f, o).steps` and
    `Verdict(f, o)`.
  - The properties proved in `Phases` and `Properties` are about those
    functions, so they hold of `Run`.
- **Phase order.** Each step has a rank in the run's phase order
  (`Trace.Rank`). `Ordered` says a trace never goes back to an earlier
  phase.

Behaviours of the code that the model keeps as written:

- **A member run panics.** With `--cluster-member`, `srcClient` is never
  assigned, and main.go:241 calls `GetServer` on it. Every member run that
  gets its paths therefore ends in `Panicked(NilSourceClient)` before it
  stops anything (`Properties.RunMemberPanics`). The later `!flagClusterMember`
  gates (248, 273, 319, 505, 568) are modelled all the same.
- **`clustered` starts as the flag.** It starts as `flagClusterMember` and is
  overwritten only by a non-member run's first `GetServer` (main.go:126-140).
- **Stop errors are dropped.** The errors of `source.Stop()` and
  `target.Stop()` (main.go:344-354) are built with `fmt.Errorf` and thrown
  away, so the run goes on whatever the stops report
  (`Properties.RunIgnoresStopErrors`). Discarding the two errors looks
  unintended; the model keeps the code's behaviour.
- **Ceph dedup is by storage pool name.** Ceph renames are de-duplicated on
  the storage pool's name (main.go:220), not on the RBD pool it resolves to.
  One might expect the de-duplication to use the resolved RBD pool name
  (`ceph.osd.pool_name`); the code uses `pool.Name`, the model follows it,
  and `StoragePools.DedupIsByPoolName` exhibits two pools that give the same
  rename twice.
- **The source check is a raw prefix.** The pool `source` check is
  `strings.HasPrefix` on raw strings (main.go:231), so a sibling directory
  matches too (`StoragePools.RawPrefixMatchesSibling`).
- **Ceph pools also get a statement.** A ceph pool goes on to the statement
  check and can contribute a statement as well as a rename
  (`StoragePools.CephPoolCanYieldBoth`).
- **An empty command panics.** `cmd[0]` on an empty argv is a Go index panic,
  modelled as `Panicked(EmptyCommand)`.
- **`CLUSTER_NO_EVACUTE` is a boolean.** The environment variable, misspelt
  as in the source, is the oracle boolean `noEvacuate`.
- **The endless loops run over finite answers.** Two loops never terminate
  on their own: the operator prompt (main.go:508-515) and the convergence
  poll (main.go:524-557). They run over finite sequences of answers
  (`othersStarted`, `rounds`). A run that uses up its answers without going
  on ends in `StillWaiting`, which stands for "still looping".

Modules, one file each:

| module | contents |
|---|---|
| `Common` | `Option`, `Result`, `Failure`, `Outcome` |
| `Text` | the Go `strings` and `filepath` helpers the code uses |
| `Trace` | steps, ranks, `Progress`/`Stage` composition |
| `Host` | the host's answers |
| `StoragePools` | the pool rewrite planner and the pool gathering |
| `Network` | OVN/OVS |
| `Discovery` | the candidate loops |
| `Relocation` | the wipe and the move |
| `Apply` | the patch and the commands |
| `Cleanup` | cleanup and symlink repair |
| `Cluster` | evacuation and restore, the prompt loop, the poll |
| `Phases` | the phase functions and their properties |
| `Properties` | whole-run properties |
| `Migration` | the imperative run |

## Model

All source paths below are in `cmd/lxd-to-incus/main.go`.

| member | source | states |
|---|---|---|
| Discovery.FirstPresent | cmd/lxd-to-incus/main.go:94-105 | returns the index of the first present candidate, with no present one before it, and returns none exactly when no candidate is present |
| Text.IndexFrom | cmd/lxd-to-incus/main.go:235 | the position found from `from` on is an occurrence, and no earlier position from `from` on is one; -1 only when there is none |
| Text.IndexIsFirst | cmd/lxd-to-incus/main.go:235 | `strings.Index` gives the first occurrence, and it is the only first occurrence |
| Text.ReplaceFirstSpec | cmd/lxd-to-incus/main.go:235 | without an occurrence the string is unchanged; otherwise the first occurrence alone is replaced |
| Text.ReplaceFirstAtPrefix | cmd/lxd-to-incus/main.go:231-235 | a string that starts with the pattern gets the replacement in front of its rest |
| Text.Strip | cmd/lxd-to-incus/main.go:254 | removing a character keeps exactly the other characters, and on one character gives it back unless it is the removed one |
| Text.StripAppend | cmd/lxd-to-incus/main.go:254 | removal works piece by piece, so every other character stays in place and order |
| Text.TrimLeftFuncAt | cmd/lxd-to-incus/main.go:254 | `strings.TrimLeftFunc` leaves the suffix after the leading characters satisfying the predicate: every dropped character satisfies it and the first kept one does not |
| Text.TrimRightFuncAt | cmd/lxd-to-incus/main.go:254 | `strings.TrimRightFunc` leaves the prefix before the trailing characters satisfying the predicate: every dropped character satisfies it and the last kept one does not |
| Text.TrimFuncSlice | cmd/lxd-to-incus/main.go:254 | `strings.TrimFunc` keeps the slice of the input between the leading and trailing characters satisfying the predicate, and the slice's ends do not satisfy it |
| Text.TrimSpaceWithin | cmd/lxd-to-incus/main.go:254 | every character of the trimmed string occurs in the input |
| Text.TrimSpaceEnds | cmd/lxd-to-incus/main.go:254 | the trimmed string neither starts nor ends with white space |
| Text.TrimSpaceSlice | cmd/lxd-to-incus/main.go:254 | `strings.TrimSpace` keeps the slice between the leading and trailing white space (as `unicode.IsSpace` defines it), and the slice's ends are not white space |
| StoragePools.Setting | cmd/lxd-to-incus/main.go:204-217 | a configured key gives its value, even an empty one; only a key that is not set gives the default |
| StoragePools.EmptyUserKept | cmd/lxd-to-incus/main.go:209-212 | a ceph pool that sets `ceph.user.name` to the empty string gets an empty `--name`, not `admin` |
| StoragePools.RbdRename | cmd/lxd-to-incus/main.go:203-219 | the rename is exactly the 8 words `rbd rename --cluster C --name U P/lxd_P P/incus_P`, with C the pool's `ceph.cluster_name` (default `ceph`), U its `ceph.user.name` (default `admin`) and P its `ceph.osd.pool_name` (default the pool's own name) |
| StoragePools.PlanRewrites | cmd/lxd-to-incus/main.go:201-237 | the loop builds exactly `Statements(pools)` and `Renames(pools)` |
| StoragePools.StatementShape | cmd/lxd-to-incus/main.go:226-236 | a pool gives a statement exactly when its `source` is non-empty, starts with `/` and has the source daemon directory as a prefix; the new value is the target daemon directory followed by the rest of the path |
| StoragePools.StatementsAppend | cmd/lxd-to-incus/main.go:202-237 | the statements of two pool lists in a row are the statements of each, concatenated |
| StoragePools.StatementsSound | cmd/lxd-to-incus/main.go:226-236 | every statement is the one some pool gives, and there are no more statements than pools |
| StoragePools.StatementsLength | cmd/lxd-to-incus/main.go:226-236 | there are at most as many statements as pools |
| StoragePools.StatementsComplete | cmd/lxd-to-incus/main.go:226-236 | every pool that gives a statement has it in the list |
| StoragePools.CephNamesSnoc | cmd/lxd-to-incus/main.go:220-223 | adding a pool adds its name to the ceph names exactly when it is ceph; it is the first of its name exactly when that name is new |
| StoragePools.RenamedIsCephNames | cmd/lxd-to-incus/main.go:201-223 | `rbdRenamed` holds exactly the names of the ceph pools seen so far |
| StoragePools.FirstOfNameIsNew | cmd/lxd-to-incus/main.go:220-223 | a ceph pool gets a rename exactly when its name is not yet in `rbdRenamed` |
| StoragePools.RenamesOnePerName | cmd/lxd-to-incus/main.go:220-223 | there is one rename per distinct ceph pool name |
| StoragePools.RenamesSound | cmd/lxd-to-incus/main.go:203-223 | every rename is that of a ceph pool that is the first with its name |
| StoragePools.RenamesComplete | cmd/lxd-to-incus/main.go:203-223 | the first ceph pool of each name is renamed |
| StoragePools.RepeatedPoolsAddNoRename | cmd/lxd-to-incus/main.go:184-223 | pools whose ceph names were already seen add no rename |
| StoragePools.PoolsTwiceRenamedOnce | cmd/lxd-to-incus/main.go:184-223 | a pool list gathered twice gives the same renames as once |
| StoragePools.DedupIsByPoolName | cmd/lxd-to-incus/main.go:214-223 | two differently named pools on one RBD pool both get renamed, with identical commands |
| StoragePools.CephPoolCanYieldBoth | cmd/lxd-to-incus/main.go:203-236 | a lone ceph pool whose source is the source daemon directory followed by some rest yields its `rbd rename` and the statement moving the source to the target daemon directory followed by the same rest |
| StoragePools.RelocationExample | cmd/lxd-to-incus/main.go:226-236 | a pool on `/var/lib/old/disks/a` is moved to `/var/lib/new/disks/a` |
| StoragePools.RawPrefixMatchesSibling | cmd/lxd-to-incus/main.go:231-235 | a source on `/var/lib/lxd2/pool`, which is not inside `/var/lib/lxd/`, is still rewritten to `/var/lib/incus2/pool` |
| StoragePools.MemberPools | cmd/lxd-to-incus/main.go:190-197 | on success, one pool per name, each the one fetched for that name; on failure `PoolFetch`, and some name had no pool |
| StoragePools.ClusterPools | cmd/lxd-to-incus/main.go:179-198 | fails only with `PoolList` or `PoolFetch`; succeeds exactly when every member listed its names and all of its pools were fetched |
| StoragePools.ClusterPoolsOne | cmd/lxd-to-incus/main.go:184-197 | one member contributes its own fetched pools, `PoolList` when its names cannot be listed, or `PoolFetch` when a pool cannot be fetched |
| StoragePools.ClusterPoolsAppend | cmd/lxd-to-incus/main.go:184-198 | the pools of the members `a + b` are those of `a` followed by those of `b`, and the first failure in `a` ends the gathering |
| StoragePools.FetchMemberPools | cmd/lxd-to-incus/main.go:190-197 | the loop returns `MemberPools` |
| StoragePools.GatherPools | cmd/lxd-to-incus/main.go:172-199 | the gathering returns `Gathered`: the pool list of a standalone source, or every member's pools of a clustered one |
| StoragePools.SameListOnEveryMember | cmd/lxd-to-incus/main.go:184-223 | when every member reports the same pools, the gathering succeeds, holds only those pools, and gives the renames of one copy |
| Network.Southbound | cmd/lxd-to-incus/main.go:254 | the cleaned address has no double quote and no surrounding white space, and contains only characters of the output |
| Network.SouthboundSlice | cmd/lxd-to-incus/main.go:254 | the cleaned address is a slice of the output with its double quotes removed, and everything outside that slice is white space |
| Network.SouthboundIdempotent | cmd/lxd-to-incus/main.go:254 | cleaning an already cleaned address changes nothing |
| Network.NetworkCommands | cmd/lxd-to-incus/main.go:246-270 | nothing without a northbound connection; a member run gets only the OVS conversion; failures are only `OvnSouthbound`, `OvnPrepare` or `OvsPrepare` |
| Network.NetworkCommandsOrder | cmd/lxd-to-incus/main.go:249-269 | a successful non-member conversion has every answer present and gives the OVN commands, for the cleaned southbound address, then the OVS commands |
| Relocation.RelocationSucceeds | cmd/lxd-to-incus/main.go:356-425 | the phase succeeds exactly when the three wipes, the three moves and the database conversion do; the steps are then the detaches, the wipes, the moves and the conversion, in that order |
| Relocation.WipedOrdered | cmd/lxd-to-incus/main.go:356-377 | the detaches come before the wipes |
| Relocation.DaemonOrdered | cmd/lxd-to-incus/main.go:392-418 | carrying the daemon directory over stays in the move phase |
| Relocation.MovedOrdered | cmd/lxd-to-incus/main.go:356-418 | the target is wiped before anything is moved |
| Relocation.RelocationStart | cmd/lxd-to-incus/main.go:356-425 | the phase always begins with the two detaches and fails only with its own errors |
| Relocation.RelocationOrdered | cmd/lxd-to-incus/main.go:356-425 | wipe, move and the database conversion come in phase order |
| Relocation.WipeTarget | cmd/lxd-to-incus/main.go:356-377 | the method performs exactly `Wiped` |
| Relocation.Relocate | cmd/lxd-to-incus/main.go:356-425 | the method performs exactly `Relocated` |
| Apply.PatchIsLines | cmd/lxd-to-incus/main.go:430 | the patch of a non-empty statement list is each statement followed by a newline |
| Apply.PatchRoundTrip | cmd/lxd-to-incus/main.go:430 | reading the patch back line by line gives the statements again, when no statement holds a newline |
| Apply.LinesRoundTrip | cmd/lxd-to-incus/main.go:430 | splitting newline-terminated lines gives the lines back |
| Apply.ExecutingPrefixRun | cmd/lxd-to-incus/main.go:438-443 | the loop runs a prefix of the commands, one step each |
| Apply.ExecutingSucceeds | cmd/lxd-to-incus/main.go:438-443 | the loop gets through exactly when every command has an argv and exits zero, having then run them all; otherwise it ends on a failed command or an empty argv |
| Apply.RunCommands | cmd/lxd-to-incus/main.go:436-444 | the method performs exactly `Executing` |
| Apply.AppliedPrefix | cmd/lxd-to-incus/main.go:427-444 | the patch step comes first, then the runs of a prefix of the commands |
| Apply.AppliedOrder | cmd/lxd-to-incus/main.go:427-444 | the patch comes before the commands, the commands run form a prefix of the plan's, and a non-empty statement list is written |
| Apply.AppliedSucceeds | cmd/lxd-to-incus/main.go:427-444 | succeeds exactly when the patch is written and every command succeeds, having then run them all; otherwise it stops on a patch error, a failed command or an empty argv |
| Apply.ApplyPlan | cmd/lxd-to-incus/main.go:427-444 | the method performs exactly `Applied` |
| Cleanup.RetargetFirst | cmd/lxd-to-incus/main.go:483 | a link that does not mention the source daemon directory is kept; otherwise its first occurrence, and only that one, is replaced by the target daemon directory |
| Cleanup.RetargetUnderSource | cmd/lxd-to-incus/main.go:483 | a link under the source directory is moved under the target directory, with the rest of its path kept |
| Cleanup.RetargetSettles | cmd/lxd-to-incus/main.go:483 | repairing a repaired link again changes nothing, when the result does not contain the source directory |
| Cleanup.RetargetNestsUnderSource | cmd/lxd-to-incus/main.go:483 | when the target directory lies under the source directory, a second repair changes the link again |
| Cleanup.StaleRemovals | cmd/lxd-to-incus/main.go:449-452 | one link removal per listed name, in order |
| Cleanup.ObsoleteRemovedInOrder | cmd/lxd-to-incus/main.go:454-459 | the directories are removed in the order listed |
| Cleanup.ObsoleteRemovalSucceeds | cmd/lxd-to-incus/main.go:454-459 | succeeds exactly when no removal fails with anything but "does not exist", and then every directory was attempted |
| Cleanup.ObsoleteRemovalStops | cmd/lxd-to-incus/main.go:454-459 | a failure names the last directory attempted, whose removal failed, and every earlier removal succeeded |
| Cleanup.RepairTouchesOnlySymlinks | cmd/lxd-to-incus/main.go:471-493 | each step removes a symlink entry that could be read, or recreates it with its rewritten target |
| Cleanup.RepairSucceeds | cmd/lxd-to-incus/main.go:471-493 | succeeds exactly when every symlink can be read, removed and recreated, and then every one is recreated with its rewritten target |
| Cleanup.MissingDirsSkipped | cmd/lxd-to-incus/main.go:462-466 | directories that do not exist are skipped without a step |
| Cleanup.ObsoletePhase | cmd/lxd-to-incus/main.go:454-459 | the removals stay in the cleanup phase and fail only with a cleanup error |
| Cleanup.RepairEntriesPhase | cmd/lxd-to-incus/main.go:471-493 | the repair of one directory stays in the cleanup phase and fails only with a cleanup error |
| Cleanup.RepairDirsPhase | cmd/lxd-to-incus/main.go:461-494 | the repair of all directories stays in the cleanup phase and fails only with a cleanup error |
| Cleanup.CleanupPhase | cmd/lxd-to-incus/main.go:446-494 | the cleanup stays in its phase and fails only with its own errors |
| Cleanup.RepairSymlink | cmd/lxd-to-incus/main.go:478-492 | the method performs exactly `RepairLink` |
| Cleanup.RepairDirectory | cmd/lxd-to-incus/main.go:471-493 | the loop performs exactly `RepairEntries` |
| Cleanup.RemoveStaleLinks | cmd/lxd-to-incus/main.go:449-452 | the loop yields exactly `StaleRemovals` |
| Cleanup.RemoveObsoleteDirs | cmd/lxd-to-incus/main.go:454-459 | the loop performs exactly `RemoveObsolete` |
| Cleanup.RepairDirectories | cmd/lxd-to-incus/main.go:461-494 | the loop performs exactly `RepairDirs` |
| Cleanup.CleanUp | cmd/lxd-to-incus/main.go:446-494 | the method performs exactly `CleanupTarget` |
| Cluster.MemberActionsSteps | cmd/lxd-to-incus/main.go:327-339 | the k-th step acts on the k-th listed member (evacuate here, restore at 576-588) |
| Cluster.MemberActionsOutcome | cmd/lxd-to-incus/main.go:327-339 | succeeds exactly when every member accepts; a failure names the last member tried, which refused, and all before it accepted |
| Cluster.ActionsOrdered | cmd/lxd-to-incus/main.go:327-339 | all steps are of the one action's phase |
| Cluster.EveryMemberActed | cmd/lxd-to-incus/main.go:327-339 | on success every listed member was acted on |
| Cluster.ActOnMembers | cmd/lxd-to-incus/main.go:327-339 | the loop performs exactly `MemberActions` |
| Cluster.ClusterActionsFacts | cmd/lxd-to-incus/main.go:321-339 | succeeds exactly when a member list came back and every member accepted; fails only with the list or the member error; on success every member was acted on |
| Cluster.ClusterActionsOrdered | cmd/lxd-to-incus/main.go:321-339 | all steps are of the one action's phase |
| Cluster.ActOnCluster | cmd/lxd-to-incus/main.go:321-339 | the method performs exactly `ClusterActions` |
| Cluster.RoundReady | cmd/lxd-to-incus/main.go:531-549 | `ready` is true exactly when every member answers as Incus and is evacuated for maintenance or fully operational |
| Cluster.PollingShape | cmd/lxd-to-incus/main.go:524-557 | one poll per round, and a run still waiting has used every round |
| Cluster.PollingSettles | cmd/lxd-to-incus/main.go:524-557 | the poll ends exactly when some round converges, and then at the first such round |
| Cluster.PollingOrdered | cmd/lxd-to-incus/main.go:524-557 | the poll stays in its phase |
| Cluster.AwaitConvergence | cmd/lxd-to-incus/main.go:524-557 | the loop performs exactly `Polling` |
| Cluster.AskingShape | cmd/lxd-to-incus/main.go:508-515 | one question per answer, and a run still waiting has used every answer |
| Cluster.AskingSettles | cmd/lxd-to-incus/main.go:508-515 | the loop ends exactly when a yes comes, and then at the first yes; no answers and errors both ask again |
| Cluster.AskingOrdered | cmd/lxd-to-incus/main.go:508-515 | the questions stay in their phase |
| Cluster.AwaitOperator | cmd/lxd-to-incus/main.go:508-515 | the loop performs exactly `Asking` |
| Phases.ConnectionFacts | cmd/lxd-to-incus/main.go:126-154 | only a non-member run connects to the source and validates; the stage succeeds exactly when both servers answer and the pair is valid; its errors are the four listed |
| Phases.PlanningOrdered | cmd/lxd-to-incus/main.go:155-270 | the pool listing comes before the OVN query, and a member run takes no planning step |
| Phases.PlanningSucceeds | cmd/lxd-to-incus/main.go:155-270 | a plan is handed on exactly when the planning does not stop, exactly when every answer it needs came, and it is then the intended plan |
| Phases.PreparationHandsOn | cmd/lxd-to-incus/main.go:86-270 | the preparation hands on a plan exactly when it lets the run go on |
| Phases.PlanningPanicsOnMember | cmd/lxd-to-incus/main.go:241 | a member run that got its paths panics on the nil source client |
| Phases.PlanningStops | cmd/lxd-to-incus/main.go:155-270 | planning stops only by that panic or with a planning error |
| Phases.PreparationFacts | cmd/lxd-to-incus/main.go:86-270 | the root/source/target errors come exactly when those checks fail, with no step taken; only a discovered non-member run contacts the source; a plan exactly when everything answered; a member run's panic |
| Phases.QuiescedOrdered | cmd/lxd-to-incus/main.go:272-354 | prompt, evacuation and stops in phase order |
| Phases.QuiescedGates | cmd/lxd-to-incus/main.go:273-319 | the proceed prompt is asked exactly when neither `--cluster-member` nor `--yes` is given; a member is evacuated only when evacuating |
| Phases.QuiescedSucceeds | cmd/lxd-to-incus/main.go:272-354 | goes on exactly when the prompt is skipped or answered yes and every member accepts its evacuation; the servers are then stopped and every member evacuated |
| Phases.QuiescedStops | cmd/lxd-to-incus/main.go:272-339 | stops only with a prompt error, an exit, or an evacuation error |
| Phases.ConvertedOrdered | cmd/lxd-to-incus/main.go:356-494 | wipe, move, patch, commands and cleanup in phase order |
| Phases.ConvertedRuns | cmd/lxd-to-incus/main.go:356-494 | the detaches come first, the commands run form a prefix of the plan's, and any command runs only after the move succeeded |
| Phases.ConvertedDetaches | cmd/lxd-to-incus/main.go:356-359 | the conversion begins with the detaches |
| Phases.ConvertedRan | cmd/lxd-to-incus/main.go:427-444 | the commands run form a prefix of the plan's, and only after the move succeeded |
| Phases.ConvertedSucceeds | cmd/lxd-to-incus/main.go:356-494 | succeeds exactly when the move, the patch, every command and the cleanup succeed; then all commands ran and the patch was written |
| Phases.ConvertedStops | cmd/lxd-to-incus/main.go:356-494 | stops only with its own errors or the empty-argv panic |
| Phases.WaitedOrdered | cmd/lxd-to-incus/main.go:504-557 | the questions come before the polls |
| Phases.WaitedSucceeds | cmd/lxd-to-incus/main.go:504-557 | the wait ends exactly when the operator confirmed (non-member) and some round converged; otherwise the run is still waiting |
| Phases.RestartedOrdered | cmd/lxd-to-incus/main.go:496-565 | start, wait and check in phase order |
| Phases.RestartedGates | cmd/lxd-to-incus/main.go:504-505 | only a clustered non-member run asks the operator; only a clustered run polls |
| Phases.RestartedSucceeds | cmd/lxd-to-incus/main.go:496-565 | goes on exactly when the target starts, a clustered run's wait ends, and the target answers |
| Phases.RestartedStops | cmd/lxd-to-incus/main.go:496-565 | stops only with the start error, the check error, or still waiting, and only a clustered run waits |
| Phases.ConcludedOrdered | cmd/lxd-to-incus/main.go:567-611 | restore, prompt and purge in phase order |
| Phases.RestoredOrdered | cmd/lxd-to-incus/main.go:568-588 | the restore stays in its phase |
| Phases.UninstalledOrdered | cmd/lxd-to-incus/main.go:591-608 | the prompt comes before the purge |
| Phases.ConcludedGates | cmd/lxd-to-incus/main.go:568-592 | only a clustered non-member run restores members; the uninstall prompt is asked only without `--yes` |
| Phases.ConcludedSucceeds | cmd/lxd-to-incus/main.go:567-611 | completes exactly when the restore is accepted, the uninstall confirmed and the purge succeeds; then the source was purged and every member restored |
| Phases.ConcludedStops | cmd/lxd-to-incus/main.go:567-611 | stops only with an exit, a prompt error, an uninstall error, or a restore error |
| Properties.ExecutionOrdered | cmd/lxd-to-incus/main.go:272-611 | the phases after the preparation come in phase order |
| Properties.ExecutionStops | cmd/lxd-to-incus/main.go:272-611 | those phases never fail with a discovery error or the nil-client panic |
| Properties.RunOrdered | cmd/lxd-to-incus/main.go:81-611 | every run performs its steps in phase order |
| Properties.RunDiscovery | cmd/lxd-to-incus/main.go:86-123 | the run returns the root, no-source and no-target errors exactly when those checks fail, in that order, having done nothing |
| Properties.RunContactsSource | cmd/lxd-to-incus/main.go:126-140 | the run connects to the source exactly when it is a discovered non-member run |
| Properties.RunMemberPanics | cmd/lxd-to-incus/main.go:126-241 | a member run never completes and takes at most the target connection; once it has its paths it panics on the nil source client |
| Properties.RunAsksToProceed | cmd/lxd-to-incus/main.go:273 | the proceed prompt is asked only by a non-member run without `--yes` |
| Properties.RunEvacuates | cmd/lxd-to-incus/main.go:319 | a member is evacuated only when the run is a clustered non-member run and `CLUSTER_NO_EVACUTE` is not `1` |
| Properties.RunAsksToUninstall | cmd/lxd-to-incus/main.go:592 | the uninstall prompt is asked only without `--yes` |
| Properties.RunAsksOthers | cmd/lxd-to-incus/main.go:504-505 | the operator is asked about the other servers only on a clustered non-member run |
| Properties.RunPolls | cmd/lxd-to-incus/main.go:504 | the cluster is polled only on a clustered run |
| Properties.RunRestores | cmd/lxd-to-incus/main.go:568 | a member is restored only on a clustered non-member run |
| Properties.PreparationIgnoresStops | cmd/lxd-to-incus/main.go:86-270 | the preparation does not depend on what the stops report |
| Properties.QuiescedIgnoresStops | cmd/lxd-to-incus/main.go:341-354 | the quiescing ends the same way whatever the stops report |
| Properties.ExecutionIgnoresStops | cmd/lxd-to-incus/main.go:341-354 | the later phases end the same way whatever the stops report |
| Properties.RunIgnoresStopErrors | cmd/lxd-to-incus/main.go:341-354 | the run returns the same result whatever the two stops report |
| Properties.RunStopsServersThenDetaches | cmd/lxd-to-incus/main.go:342-359 | a run that stops the source had a complete plan, stops the target too, and detaches both target mount points |
| Properties.RunRunsPlanPrefix | cmd/lxd-to-incus/main.go:436-444 | the commands a run executes are a prefix of the intended plan's, and only a run with a complete plan executes any |
| Properties.PreparationStopsFail | cmd/lxd-to-incus/main.go:86-270 | the preparation ends only with an error return or the nil-client panic, never with an exit |
| Properties.ExecutionSucceeds | cmd/lxd-to-incus/main.go:272-611 | for a non-member run, the later phases go through exactly when every answer they meet lets them |
| Properties.RunCompletes | cmd/lxd-to-incus/main.go:81-611 | the run returns nil exactly when discovery, connections and plan succeed and every later answer cooperates |
| Properties.CompletedUnstopped | cmd/lxd-to-incus/main.go:610 | the run returns nil exactly when no phase stops it |
| Properties.CompletedPhases | cmd/lxd-to-incus/main.go:81-611 | a run no phase stops had the intended plan and its trace is the five phases' steps in order |
| Properties.CompletedHas | cmd/lxd-to-incus/main.go:81-611 | a step of a completed run belongs to one of its phases |
| Properties.CompletedRan | cmd/lxd-to-incus/main.go:436-444 | the commands of a completed run are those of its conversion |
| Properties.RunCompletedConverts | cmd/lxd-to-incus/main.go:427-608 | a completed run ran every planned command, wrote the patch when there were statements, and purged the source |
| Properties.RunCompletedAsksToProceed | cmd/lxd-to-incus/main.go:273-288 | a completed run asked to proceed exactly when `--yes` was not given |
| Properties.RunCompletedAsksToUninstall | cmd/lxd-to-incus/main.go:592-601 | a completed run asked to uninstall exactly when `--yes` was not given |
| Properties.QuiescedAsks | cmd/lxd-to-incus/main.go:273-281 | a non-member run without `--yes` asks to proceed |
| Properties.ConcludedAsks | cmd/lxd-to-incus/main.go:592-601 | a conclusion that goes through asked to uninstall exactly without `--yes` |
| Properties.RunCompletedActsOnMembers | cmd/lxd-to-incus/main.go:319-588 | a completed clustered run evacuated every source member (when evacuating) and restored every target member |
| Properties.RunCompletedConverges | cmd/lxd-to-incus/main.go:504-557 | a completed clustered run asked the operator, polled, and saw a converged round |
| Properties.RunWaitsOnlyInCluster | cmd/lxd-to-incus/main.go:504-557 | only a clustered run can be left waiting |
| Properties.QuiescedExits | cmd/lxd-to-incus/main.go:281-288 | the quiescing exits only on a no to the proceed prompt without `--yes` |
| Properties.ConcludedExits | cmd/lxd-to-incus/main.go:593-600 | the conclusion exits only on a no to the uninstall prompt without `--yes` |
| Properties.RunExitsOnDecline | cmd/lxd-to-incus/main.go:273-601 | the run exits only without `--yes` and after a no to one of the two prompts |
| Migration.Connect | cmd/lxd-to-incus/main.go:126-154 | performs exactly `Connection` and leaves `clustered` at `Clustered` when it goes on |
| Migration.PlanMigration | cmd/lxd-to-incus/main.go:155-270 | performs exactly `Planning` |
| Migration.Prepare | cmd/lxd-to-incus/main.go:86-270 | performs exactly `Preparation` |
| Migration.Confirm | cmd/lxd-to-incus/main.go:272-316 | performs exactly `Confirmation` |
| Migration.Evacuate | cmd/lxd-to-incus/main.go:318-340 | performs exactly `Evacuated` |
| Migration.Quiesce | cmd/lxd-to-incus/main.go:272-354 | performs exactly `Quiesced` |
| Migration.Convert | cmd/lxd-to-incus/main.go:356-494 | performs exactly `Converted` |
| Migration.AwaitCluster | cmd/lxd-to-incus/main.go:504-557 | performs exactly `Waited` |
| Migration.Restart | cmd/lxd-to-incus/main.go:496-565 | performs exactly `Restarted` |
| Migration.Restore | cmd/lxd-to-incus/main.go:567-589 | performs exactly `Restored` |
| Migration.RemoveSource | cmd/lxd-to-incus/main.go:591-608 | performs exactly `Uninstalled` |
| Migration.Conclude | cmd/lxd-to-incus/main.go:567-611 | performs exactly `Concluded` |
| Migration.Execute | cmd/lxd-to-incus/main.go:272-611 | performs exactly `Execution` |
| Migration.Run | cmd/lxd-to-incus/main.go:81-611 | yields exactly the trace `Migrated` and the result `Verdict`, of which all the `Properties` and `Phases` lemmas hold |

## Left out

- Printing: the progress messages, the migration notices and the mount-point warning are not modelled. This includes the notice that depends on `CLUSTER_NO_STOP` (main.go:296-298), which changes only printed text.
- Sleeps: the 30-second sleeps (main.go:522, 527, 552) are not modelled. Time is not part of the model.
- The command-line wiring (main.go:32-79) and `cmdMigrate.validate` are not part of this model. The validation is one oracle answer, `valid`.
- `targets.go` and the source and target implementations are not part of this model. Their `Present`, `Connect`, `Paths`, `Stop`, `Start` and `Purge` are oracle answers.
- `migrateDatabase`, `ovnConvert` and `ovsConvert` are not part of this model. Their results are oracle answers.
- The two `srcClient.GetServer` calls (main.go:134, 241) are separate oracle answers, `sourceClustered` and `northbound`. They are modelled as independent answers, although both calls ask the same server.
- A missing `network.ovn.northbound_connection` key and an empty one both make `ok && ovnNB != ""` false, so the model treats both as the empty string.
- `Text.JoinPath` joins with a single `/` and does not perform `filepath.Clean`.
- Strings are sequences of characters. The byte test `source[0] != '/'` is read on the first character, which agrees for the ASCII `/`.
- `Cluster.AwaitOperator`: the prompt loop of main.go:508-515 has no bound. The model runs it over a finite list of answers and reports `StillWaiting` when they are used up, so it does not model a run that loops forever.
- `Cluster.AwaitConvergence`: the same applies to the poll of main.go:524-557; `StillWaiting` stands for a poll that never converges within the given rounds.
- The details of a failed convergence round are not told apart: a failed member listing (main.go:525-529) and a round that is not ready (main.go:551-554) are both a round that does not settle.
- The error values' texts and wrapped causes are left out. A `Failure` constructor names each error return and carries the path, member or argv it reports.
- Go runtime details other than the two panics the code can reach (the nil source client on a member run, an empty argv) are left out.
