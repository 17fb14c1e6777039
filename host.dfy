/** The host the migration runs on, seen only through the answers its
    system calls and subprocesses give. Each answer is a function of the
    path or argv it is asked about. */
module Host {
  import opened Common

  /** os.RemoveAll: done, failed with a "does not exist" error, or failed. */
  datatype RemoveOutcome = Removed | NotExist | RemoveError

  datatype Entry = Entry(name: string, symlink: bool)

  /** os.ReadDir: a missing directory, another error, or its entries. */
  datatype Listing = Missing | Unreadable | Entries(entries: seq<Entry>)

  datatype Host = Host(
    removeAll: string -> RemoveOutcome,
    remove: string -> bool,              // os.Remove
    readDir: string -> Listing,
    readlink: string -> Option<string>,  // os.Readlink
    symlink: (string, string) -> bool,   // os.Symlink(target, path)
    isMountPoint: string -> bool,        // linux.IsMountPoint
    mkdirAll: string -> bool,            // os.MkdirAll
    bindMount: (string, string) -> bool, // unix.Mount(from, to, MS_BIND|MS_REC)
    detach: string -> bool,              // unix.Unmount(path, MNT_DETACH)
    run: seq<string> -> bool,            // subprocess.RunCommand exits with status 0
    migrateDatabase: string -> bool,
    writeFile: (string, string) -> bool) // os.WriteFile(path, contents)

  /** A RemoveAll failure that aborts the run: `err != nil && !os.IsNotExist(err)`. */
  predicate RemoveFails(o: RemoveOutcome) {
    o == RemoveError
  }
}
