# devenv-harness runner, modelled in Dafny

`devenv-harness` runs a user's commands inside one of a fixed pool of
NixOS containers ("slots"). One run of `runner.py`:

1. reads the harness configuration;
2. claims the first slot whose lock file it can `flock` without waiting;
3. clears the slot's work tree and copies the project into it with `rsync`;
4. starts the slot's container and runs each `--cmd` in order, stopping at
   the first one that exits non-zero;
5. writes an `OK` or `FAILED` marker;
6. in a `finally` block, stops the container, removes the work tree unless
   `--keep-workdir` is given, and releases the slot's lock.

This project models that logic and proves what it promises. Every external
effect is abstracted:

- **Subprocesses.** `rm`, `rsync` and `nixos-container` are modelled by their
  answers: an exit status, or an exception (`ProcResult`). One answer per
  step is supplied in an `Env` record.
- **Locks.** The operating system's `flock` table is the set of lock files
  held (`Host.held`).
- **Trace.** Everything the runner does is appended to a trace (`Host.trace`):
  locks taken and dropped, subprocesses requested with their argv and log
  file, and marker files written.

The runner's procedures that change state are methods that act on a `Host`
(and, for `try_lock` and `unlock`, methods of a `SlotLock` object). Each is proved against a pure specification function:
`FirstFree` for `acquire_slot`, `CommandLoop` for the command loop, `Setup`
and `Body` for the `try` block, and `Session` for the whole of `main` from the
slot claim on. The guarantees are then proved as lemmas about those
functions.

Modules:

| module | file | what it holds |
|---|---|---|
| `Wrappers` | `wrappers.dfy` | `Option` and `Result` |
| `Decimal` | `decimal.dfy` | `str(n)`, `f"{n:02d}"` and `int(s)` |
| `Paths` | `paths.dfy` | pathlib's `Path(s)`, the `/` operator and `str(path)`, on POSIX paths |
| `Config` | `config.dfy` | `load_config` and the artifacts-root default |
| `Slots` | `slots.dfy` | `slot_paths` |
| `Commands` | `commands.dfy` | `with_root`, the argv of every subprocess, log and marker names and texts, error messages |
| `Effects` | `effects.dfy` | the trace events and the `Host` (lock table and trace) |
| `Locks` | `locks.dfy` | the `SlotLock` class and `acquire_slot` |
| `Driver` | `driver.dfy` | the steps of `main` as methods, with the specification functions they follow |
| `Guarantees` | `guarantees.dfy` | what a run promises, proved over `Driver`'s specification |

## Model

| member | source | states |
|---|---|---|
| Decimal.NatToString | pkgs/devenv-harness-runner/runner.py:44-45 | `str(slot)` is a non-empty string of digits, one digit exactly below 10, at most two below 100, and starting with `0` only for 0 |
| Decimal.ParseNatToString | pkgs/devenv-harness-runner/runner.py:44-45 | reading back the numeral `str(n)` gives `n` |
| Decimal.NatToStringInjective | pkgs/devenv-harness-runner/runner.py:44-45 | different numbers have different numerals |
| Decimal.ParseNatLeadingZero | pkgs/devenv-harness-runner/runner.py:183 | a leading `0` does not change the value of a numeral |
| Decimal.ZeroPad2 | pkgs/devenv-harness-runner/runner.py:183 | `f"{idx:02d}"` is all digits, reads back as `idx`, is at least two characters long, and exactly two below 100 |
| Decimal.IntToString | pkgs/devenv-harness-runner/runner.py:115 | `str(rc)` of any integer is non-empty |
| Decimal.ParseIntToString | pkgs/devenv-harness-runner/runner.py:115 | `int(str(i)) == i` for every integer, negative ones included |
| Decimal.DigitValue | pkgs/devenv-harness-runner/runner.py:26 | a digit's value is below 10 and gives back the same digit |
| Paths.Segments | pkgs/devenv-harness-runner/runner.py:28 | splitting on `/` gives at least one piece, and no piece holds a slash |
| Paths.Kept | pkgs/devenv-harness-runner/runner.py:28 | after dropping empty and `.` pieces, every remaining piece is a valid component |
| Paths.Parse | pkgs/devenv-harness-runner/runner.py:28 | `Path(s)` is a valid path, absolute exactly when `s` starts with `/` |
| Paths.Join | pkgs/devenv-harness-runner/runner.py:45-47 | `p / s` of a valid path is valid |
| Paths.JoinPart | pkgs/devenv-harness-runner/runner.py:45-47 | joining a single plain component extends the path by exactly that component, making a child of it |
| Paths.ComponentsSlash | pkgs/devenv-harness-runner/runner.py:28 | a slash separates the components before it from those after it |
| Paths.ParseRender | pkgs/devenv-harness-runner/runner.py:110-111 | `Path(str(p)) == p` for every valid path |
| Config.LoadConfig | pkgs/devenv-harness-runner/runner.py:23-30 | loading succeeds exactly when `slots` is an integer, `containerPrefix` is present and `stateDir` is a path string; the slot count, the container prefix and the state directory (`Path(stateDir)`) are the configured ones; `artifactsDirDefault` falls back to `./artifacts`; a missing `slots` is reported as that key |
| Config.ArtifactsRoot | pkgs/devenv-harness-runner/runner.py:160 | the artifacts root, from the flag or the configured default, is a valid path |
| Config.ArtifactsRootChoice | pkgs/devenv-harness-runner/runner.py:160 | an empty `--artifacts` counts as absent and both give `Path(artifactsDirDefault)`; any other flag value gives `Path(flag)` |
| Config.ParseDefaultArtifactsDir | pkgs/devenv-harness-runner/runner.py:29 | `Path("./artifacts")` is the relative path `artifacts` |
| Paths.ParseDotSlash | pkgs/devenv-harness-runner/runner.py:29 | `Path("./" + name)` is the relative path of the single component `name` |
| Config.DefaultArtifactsRootIsRelative | pkgs/devenv-harness-runner/runner.py:29 | with neither the key nor the flag, artifacts go under the relative directory `artifacts` |
| Slots.SlotDir | pkgs/devenv-harness-runner/runner.py:45 | the slot directory is `stateDir/slots/<slot>`, and valid when `stateDir` is |
| Slots.SlotDirIsJoin | pkgs/devenv-harness-runner/runner.py:45 | the slot directory is what pathlib's `/` gives for `state_dir / "slots" / str(slot)` |
| Slots.ContainerName | pkgs/devenv-harness-runner/runner.py:44 | the container name is the prefix followed by a numeral that reads back as the slot |
| Slots.SlotPaths | pkgs/devenv-harness-runner/runner.py:43-48 | the name and slot directory are as above; the work tree `work` and the lock file `slot.lock` are both children of the slot directory; all are valid when `stateDir` is |
| Slots.SlotPathsAreJoins | pkgs/devenv-harness-runner/runner.py:46-47 | the work tree and the lock file are what pathlib's `/` gives for `slot_dir / "work"` and `slot_dir / "slot.lock"` |
| Slots.SlotPathsDistinct | pkgs/devenv-harness-runner/runner.py:43-48 | two different slots share no container name, slot directory, work tree or lock file |
| Commands.WithRootShape | pkgs/devenv-harness-runner/runner.py:37-40 | `with_root(cmd)` ends with `cmd` and is at most two longer; it is `cmd` itself exactly when running as root, otherwise `["sudo", "--"] + cmd` |
| Commands.RunArgvCarriesCommand | pkgs/devenv-harness-runner/runner.py:128-131 | `container_run` asks `nixos-container run <name> -- bash -lc` to run `cd /work && ` followed by the user's command, unchanged |
| Commands.CmdLogNameShape | pkgs/devenv-harness-runner/runner.py:183 | `cmd-NN.log` is a single path component, `cmd-` plus digits plus `.log`, ten characters up to index 99, and the index reads back from the digits |
| Commands.CmdLogNamesDistinct | pkgs/devenv-harness-runner/runner.py:183 | different commands log to different files |
| Commands.RsyncMessageCarriesCode | pkgs/devenv-harness-runner/runner.py:114-115 | the rsync error message ends with the exit code, which reads back with `int()` |
| Effects.Host.constructor | pkgs/devenv-harness-runner/runner.py:150-163 | a run starts with the given locks held by others and an empty trace |
| Locks.SlotLock.constructor | pkgs/devenv-harness-runner/runner.py:52-54 | a new lock handle names its file and holds no descriptor |
| Locks.SlotLock.TryLock | pkgs/devenv-harness-runner/runner.py:56-65 | on a new handle, as `acquire_slot` uses it: succeeds exactly when no one holds the file; on success the file is locked and the handle keeps the descriptor; on failure the descriptor is dropped and nothing changes |
| Locks.SlotLock.Unlock | pkgs/devenv-harness-runner/runner.py:67-74 | with no descriptor it does nothing; otherwise it drops this file's lock and no other, and forgets the descriptor |
| Locks.SlotLock.UnlockTwice | pkgs/devenv-harness-runner/runner.py:67-74 | unlocking twice leaves the host exactly as unlocking once does |
| Locks.FirstFreeFrom | pkgs/devenv-harness-runner/runner.py:136-140 | the result is the smallest slot from `from` up to the slot count whose lock file is free, with every slot before it held; `None` means every slot in that range is held |
| Locks.AcquireSlot | pkgs/devenv-harness-runner/runner.py:134-142 | one pass without waiting claims the smallest free slot, takes its lock and keeps a handle to it; when every slot is held it fails with "no free slots available" and changes nothing |
| Locks.SkipHeld | pkgs/devenv-harness-runner/runner.py:136-139 | a run of held slots is skipped over |
| Locks.PoolFillsInOrder | pkgs/devenv-harness-runner/runner.py:134-142 | while slots `1..count` are held, the next claim gets slot `count + 1`; once every slot is held, no claim succeeds |
| Driver.FirstFailure | pkgs/devenv-harness-runner/runner.py:182-189 | the index of the first command not to exit 0: every command before it exited 0 |
| Driver.RunsBetweenSnoc | pkgs/devenv-harness-runner/runner.py:182-184 | running commands `lo..hi` is running `lo..hi-1`, then command `hi` |
| Driver.LoopStopsAtFirstFailure | pkgs/devenv-harness-runner/runner.py:182-192 | the loop, taken one command at a time, runs exactly the commands up to the first failure, in order, and ends as that failure dictates |
| Driver.CommandLoopOutcome | pkgs/devenv-harness-runner/runner.py:182-192 | the loop returns 0 exactly when every command exits 0, having then run all of them and written `OK`; it raises exactly when a command raises after every earlier one exited 0, and then with the process's exception |
| Driver.CommandLoopFailure | pkgs/devenv-harness-runner/runner.py:182-189 | when command `k` is the first to exit non-zero, the loop returns that status after running exactly commands `0..k`, and writes `FAILED` naming command `k + 1` |
| Driver.RunCmd | pkgs/devenv-harness-runner/runner.py:77-96 | starts the subprocess, records it with its log, and returns its exit status or the exception |
| Driver.RsyncProject | pkgs/devenv-harness-runner/runner.py:99-115 | runs the rsync command and raises `RsyncFailed(rc)` on a non-zero exit |
| Driver.ContainerStart | pkgs/devenv-harness-runner/runner.py:118-121 | runs `nixos-container start` and raises `StartFailed(name)` on a non-zero exit |
| Driver.ContainerStop | pkgs/devenv-harness-runner/runner.py:124-125 | runs `nixos-container stop` and ignores its exit status |
| Driver.ContainerRun | pkgs/devenv-harness-runner/runner.py:128-131 | runs the user's command in the container and returns its exit status unchanged |
| Driver.RunOne | pkgs/devenv-harness-runner/runner.py:183-184 | runs the `i`-th command (counting from 0) in the container, logging to `cmd-NN.log` with `NN` = `i + 1`, as `enumerate(..., start=1)` numbers them |
| Driver.OutDirLayout | pkgs/devenv-harness-runner/runner.py:164-171 | a run uses the slot's container name and work tree, and writes under `artifacts_root / name / rid`: the output directory is a valid path when the artifacts root is, and when the name and the run id are plain components it is the root extended by exactly those two, with `lifecycle.log` and `rsync.log` directly in it |
| Driver.RunUntilFailure | pkgs/devenv-harness-runner/runner.py:182-185 | runs the commands in order up to and including the first one that does not exit 0, and stops there: it returns that command's index and answer, or the number of commands when all exit 0; it takes no lock |
| Driver.RunCommands | pkgs/devenv-harness-runner/runner.py:182-192 | the `for` loop with its `FAILED` and `OK` markers returns and records exactly what `CommandLoop` says, and takes no lock |
| Driver.RemoveWorkTree | pkgs/devenv-harness-runner/runner.py:174-175 | `rm -rf` of the work tree, logged to `lifecycle.log` |
| Driver.SyncWorkTree | pkgs/devenv-harness-runner/runner.py:178 | copies the project into the work tree, logged to `rsync.log` |
| Driver.StartSlot | pkgs/devenv-harness-runner/runner.py:180 | starts the slot's container, logged to `lifecycle.log` |
| Driver.StopSlot | pkgs/devenv-harness-runner/runner.py:195 | stops the slot's container, logged to `lifecycle.log` |
| Driver.Prepare | pkgs/devenv-harness-runner/runner.py:174-180 | the `try` block up to the loop does exactly what `Setup` says |
| Driver.TryBlock | pkgs/devenv-harness-runner/runner.py:173-192 | the `try` block does exactly what `Body` says |
| Driver.Cleanup | pkgs/devenv-harness-runner/runner.py:194-198 | the `finally` block stops the container, removes the work tree unless it is kept, and releases the lock; if a step raises, the rest is skipped and the lock stays held, with the handle still holding its descriptor; otherwise the handle no longer holds one |
| Driver.RunSession | pkgs/devenv-harness-runner/runner.py:163-198 | `main` from the slot claim on does exactly what `Session` says: outcome, trace and lock table |
| Guarantees.SetupOutcome | pkgs/devenv-harness-runner/runner.py:174-180 | the setup goes through exactly when neither the work-tree removal nor the copy nor the start raises, and neither the copy nor the start exits non-zero; it has then removed, copied and started, in that order; it only starts subprocesses |
| Guarantees.RsyncFailureRunsNothing | pkgs/devenv-harness-runner/runner.py:113-115 | a non-zero rsync exit raises before the container is started, so no command runs, and the message carries the status |
| Guarantees.StartFailureRunsNothing | pkgs/devenv-harness-runner/runner.py:119-121 | a non-zero `nixos-container start` raises before any command runs |
| Guarantees.RunsAreExecs | pkgs/devenv-harness-runner/runner.py:182-184 | running commands only starts subprocesses |
| Guarantees.LoopLeavesLocksAlone | pkgs/devenv-harness-runner/runner.py:182-192 | the command loop only starts subprocesses and writes markers |
| Guarantees.BodyOutcome | pkgs/devenv-harness-runner/runner.py:173-192 | the `try` block returns 0 exactly when the setup goes through and every command exits 0, and has then run every command and written `OK`; it never touches a lock and never fails for want of a slot |
| Guarantees.FinishReleasesLast | pkgs/devenv-harness-runner/runner.py:194-198 | when no cleanup step raises, the lock is taken first and released last, nothing between touches it, the lock table ends as it began, and the outcome is the `try` block's |
| Guarantees.FinishRaisingKeepsLock | pkgs/devenv-harness-runner/runner.py:194-198 | when a cleanup step raises, that exception is the outcome, the lock stays held and no unlock is recorded |
| Guarantees.NoFreeSlotsExactlyWhenFull | pkgs/devenv-harness-runner/runner.py:134-142 | a run fails for want of a slot exactly when every slot's lock is held, and has then done nothing |
| Guarantees.SecondRunGetsAnotherSlot | pkgs/devenv-harness-runner/runner.py:134-140 | a run started while another holds its slot gets a later slot, and so a different container, work tree and lock file |
| Guarantees.CleanupFollowsEveryExit | pkgs/devenv-harness-runner/runner.py:173-198 | however the `try` block ends, the run stops the container, removes the work tree unless it is kept, and releases the lock last; the lock table ends as it began and the outcome is the `try` block's, unless a cleanup step raises |
| Guarantees.CleanupExceptionKeepsTheLock | pkgs/devenv-harness-runner/runner.py:194-198 | when the stop or the removal raises, the run ends with that exception and never releases its lock |
| Guarantees.SuccessExactlyWhenEveryCommandPasses | pkgs/devenv-harness-runner/runner.py:182-192 | a run returns 0 exactly when it gets a slot, the setup goes through, every command exits 0 and no cleanup step raises; every command has then run, in order, followed by `OK` |
| Guarantees.FirstFailingCommandIsReported | pkgs/devenv-harness-runner/runner.py:182-189 | when command `k` is the first to exit non-zero, the run returns that status; exactly commands `0..k` ran, in order; `FAILED` names command `k + 1` with its text and status |
| Guarantees.BlocksIgnoreStatus | pkgs/devenv-harness-runner/runner.py:174-175 | neither the setup nor the `finally` block depends on the exit status of the work-tree removals or of the container stop |
| Guarantees.CleanupExitCodesIgnored | pkgs/devenv-harness-runner/runner.py:124-125 | two runs whose answers differ only in those exit statuses are the same run |

## Left out

- Streaming a subprocess's output line by line into its log file or to
  standard output (runner.py lines 85-95) is left out. A subprocess is only its
  answer (`ProcResult`), and the trace records which log it was given.
- What `rsync`, `rm -rf` and `nixos-container` do to the file system and to
  the container is left out. Only their command lines and answers are modelled.
- The `mkdir` calls are not modelled, and neither are a failure of them or of
  writing a marker file. This covers the lock file's parent, the rsync target,
  the work tree and the output directory. The output directory is created at
  line 168, after the lock is taken but before the `try`, so a failure there
  would leave the lock held until the process exits.
- Opening the lock file and the real `flock` are modelled by a set of held
  lock files. Different processes, crashes, and the kernel dropping a lock
  when its process exits are left out.
- Waiting for a slot (`wait=True`: `asyncio.sleep` and retry) is left out.
  `AcquireSlot` is the single pass that `--no-wait` makes.
- Argument parsing, reading the JSON file, `Path.resolve()`, `run_id()` (clock
  and process id) and `os.geteuid()` are inputs. `Invocation` carries the
  resolved project and artifacts paths, the run id, the commands, the
  `--keep-workdir` flag and whether the runner is root. Its artifacts path
  stands for `Config.ArtifactsRoot` of the flag and the configuration after
  `resolve()`, which turns it into an absolute path outside the model.
- `Locks.SlotLock.TryLock` requires a handle that holds no descriptor yet.
  The runner only calls `try_lock` on a new `SlotLock` (lines 138-139).
  Calling it again on a handle that already holds the lock is not modelled.
  In CPython, the rebinding at line 58 would free the old file object and
  release its flock.
- `Config.AsInt`: Python's `int()` also accepts surrounding whitespace,
  underscores between digits, non-ASCII Unicode decimal digits (`int("٣") == 3`),
  and floats and booleans from the JSON. The model accepts JSON integers and
  strings of an optional sign and ASCII digits. JSON values
  other than integers and strings are not modelled.
- `Paths.Parse`: pathlib keeps a leading `//` as a distinct root. The model
  treats it as `/`.
- When stopping the container or removing the work tree raises inside
  `finally`, the runner abandons the rest of the block, including the unlock.
  The model follows that: `Guarantees.CleanupExceptionKeepsTheLock`. The lock
  is then only released when the process exits, which is outside the model.
- Several harness processes running at once are modelled only as the lock
  table one run starts from (`Guarantees.SecondRunGetsAnotherSlot`). Their
  interleaving is left out.
