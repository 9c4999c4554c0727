/**
 * What the runner does to the machine it runs on, as seen from the runner:
 * the advisory locks held on lock files, and the ordered record of the
 * subprocesses it starts, the files it writes and the locks it takes and
 * drops.
 */
module Effects {
  import opened Paths

  datatype Event =
    | Locked(lock: Path)                  // an exclusive flock was taken on the file
    | Unlocked(lock: Path)                // that flock was dropped and its descriptor closed
    | Exec(argv: seq<string>, log: Path)  // a subprocess was requested, its output to go to `log`
    | Wrote(file: Path, text: string)     // a marker file was written

  class Host {
    /** The lock files on which an open descriptor holds an exclusive flock. */
    var held: set<Path>
    /** Everything done so far, oldest first. */
    var trace: seq<Event>

    constructor (held: set<Path>)
      ensures this.held == held && trace == []
    {
      this.held := held;
      trace := [];
    }
  }
}
