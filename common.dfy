/** Values shared by every part of the migration model: optional values,
    the errors `cmdMigrate.Run` can return, and how a run ends. */
module Common {

  datatype Option<+T> = None | Some(value: T)

  datatype Result<+T> = Ok(value: T) | Err(failure: Failure)

  /** The errors `cmdMigrate.Run` returns, one constructor per kind of error;
      sites that report the same message share one. */
  datatype Failure =
    | NotRoot                          // not running as root (main.go:87-89)
    | NoSource                         // no source candidate present (main.go:103-105)
    | NoTarget                         // no target candidate present (main.go:121-123)
    | SourceConnect                    // source.Connect failed (main.go:129-132)
    | SourceInfo                       // a source GetServer failed (main.go:134-137, 241-244)
    | TargetConnect                    // target.Connect failed (main.go:143-146)
    | Validation                       // c.validate refused the pair (main.go:150-153)
    | SourcePaths                      // source.Paths failed (main.go:157-160)
    | TargetPaths                      // target.Paths failed (main.go:162-165)
    | PoolList                         // a pool listing failed (main.go:174-177, 185-188)
    | MemberList                       // a member listing failed (main.go:179-182, 322-325, 571-574)
    | PoolFetch                        // one pool could not be read (main.go:191-194)
    | OvnSouthbound                    // ovs-vsctl failed (main.go:249-252)
    | OvnPrepare                       // ovnConvert failed (main.go:256-259)
    | OvsPrepare                       // ovsConvert failed (main.go:264-267)
    | Prompt                           // a prompt could not be read (main.go:281-284, 307-310, 593-596)
    | StopWorkloads(member: string)    // evacuating a member failed (main.go:330-338)
    | Remove(path: string)             // wiping a target directory failed (main.go:364-377)
    | Move(from: string, to: string)   // an mv failed (main.go:382-390, 414-417)
    | CreateTarget                     // MkdirAll failed (main.go:393-396)
    | Bind(from: string, to: string)   // the bind mount failed (main.go:398-401)
    | UnmountSource(path: string)      // detaching the source mount failed (main.go:403-406)
    | MigrateDatabase(path: string)    // migrateDatabase failed (main.go:422-425)
    | PatchWrite                       // writing the patch file failed (main.go:430-433)
    | Rewrite(argv: seq<string>)       // a rewrite command failed (main.go:439-442)
    | Delete(dir: string)              // removing an obsolete directory failed (main.go:455-458)
    | ReadEntries(path: string)        // ReadDir failed (main.go:462-469)
    | LinkResolve(path: string)        // Readlink failed (main.go:478-481)
    | LinkDelete(path: string)         // removing a symlink failed (main.go:484-487)
    | LinkCreate(path: string)         // creating a symlink failed (main.go:489-492)
    | TargetStart                      // target.Start failed (main.go:498-501)
    | TargetInfo                       // the final target GetServer failed (main.go:562-565)
    | Restore(member: string)          // restoring a member failed (main.go:579-587)
    | Uninstall                        // source.Purge failed (main.go:605-608)

  /** A Go run-time panic the code as written can reach. */
  datatype Panic =
    | NilSourceClient   // a method called on the never-assigned srcClient
    | EmptyCommand      // cmd[0] on an empty argv

  /** How a run ends. `StillWaiting` stands for a run that is still inside one
      of the two unbounded retry loops when the oracle's answers run out. */
  datatype Outcome =
    | Completed
    | Failed(failure: Failure)
    | Exited            // os.Exit(1) after a declined prompt
    | Panicked(panic: Panic)
    | StillWaiting
}
