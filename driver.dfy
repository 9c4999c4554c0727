/**
 * One run of the harness: claim a slot, copy the project into the slot's
 * work tree, start the slot's container, run the user's commands in order,
 * and, whatever happened, stop the container, remove the work tree and
 * release the slot.
 *
 * Every subprocess is abstract: the outside world's answer to each step is
 * an input (`Env`), and what the runner does is recorded in the host's
 * trace.
 */
module Driver {
  import opened Wrappers
  import opened Paths
  import opened Config
  import opened Slots
  import opened Commands
  import opened Effects
  import opened Locks

  /** What one awaited subprocess came to: an exit status, or an exception. */
  datatype ProcResult = Exited(code: int) | Raised

  /** The answers the outside world gives, step by step, during one session. */
  datatype Env = Env(
    wipe: Option<ProcResult>,  // None when the work tree did not exist, so nothing was removed before the copy
    rsync: ProcResult,
    start: ProcResult,
    runs: seq<ProcResult>,     // one answer per user command
    stop: ProcResult,
    remove: ProcResult)

  /** The command line, already resolved, and the facts read from the process. */
  datatype Invocation = Invocation(
    project: Path,
    artifactsRoot: Path,
    runId: string,
    cmds: seq<string>,
    keepWorkdir: bool,
    isRoot: bool)

  /** How a block of the runner ends: `return code`, or an exception. */
  datatype Completion = Return(code: int) | Throw(failure: Failure)

  datatype Steps = Steps(completion: Completion, events: seq<Event>)

  datatype Prepared = Prepared(failure: Option<Failure>, events: seq<Event>)

  datatype SessionResult = SessionResult(outcome: Completion, events: seq<Event>, held: set<Path>)

  /** What the command loop needs: who runs, in which container, logging where, and what. */
  datatype Batch = Batch(isRoot: bool, container: string, outDir: Path, cmds: seq<string>)

  // ---------------------------------------------------------------------
  // Where one session writes

  /**
   * The names `main` derives once it holds a slot: the container, the slot's
   * work tree, and `artifacts_root / name / rid`, where every log goes.
   */
  datatype Place = Place(name: string, workDir: Path, outDir: Path)

  function PlaceOf(cfg: HarnessConfig, inv: Invocation, slot: nat): Place {
    var layout := SlotPaths(cfg, slot);
    Place(layout.name, layout.workDir, Join(Join(inv.artifactsRoot, layout.name), inv.runId))
  }

  function LifecycleLog(p: Place): Path {
    Child(p.outDir, "lifecycle.log")
  }

  function RsyncLog(p: Place): Path {
    Child(p.outDir, "rsync.log")
  }

  /**
   * A run writes under `artifacts_root / name / rid`: the container and the
   * work tree are the slot's, and when the container name and the run id are
   * plain components, the output directory is the artifacts root extended by
   * exactly those two, with `lifecycle.log` and `rsync.log` directly in it.
   */
  lemma OutDirLayout(cfg: HarnessConfig, inv: Invocation, slot: nat)
    ensures var p, layout := PlaceOf(cfg, inv, slot), SlotPaths(cfg, slot);
      p.name == layout.name && p.workDir == layout.workDir
    ensures var p, root := PlaceOf(cfg, inv, slot), inv.artifactsRoot;
      Valid(root) ==> Valid(p.outDir)
    ensures var p, root := PlaceOf(cfg, inv, slot), inv.artifactsRoot;
      ValidPart(p.name) && ValidPart(inv.runId) ==>
        && p.outDir == Path(root.absolute, root.parts + [p.name, inv.runId])
        && LifecycleLog(p) == Path(root.absolute, root.parts + [p.name, inv.runId, "lifecycle.log"])
        && RsyncLog(p) == Path(root.absolute, root.parts + [p.name, inv.runId, "rsync.log"])
  {
    var p := PlaceOf(cfg, inv, slot);
    if ValidPart(p.name) && ValidPart(inv.runId) {
      JoinTwoParts(inv.artifactsRoot, p.name, inv.runId);
    }
  }

  /** Joining two plain components appends exactly those two. */
  lemma JoinTwoParts(root: Path, a: string, b: string)
    requires ValidPart(a) && ValidPart(b)
    ensures var out := Join(Join(root, a), b);
      && out == Path(root.absolute, root.parts + [a, b])
      && Child(out, "lifecycle.log") == Path(root.absolute, root.parts + [a, b, "lifecycle.log"])
      && Child(out, "rsync.log") == Path(root.absolute, root.parts + [a, b, "rsync.log"])
  {
    JoinPart(root, a);
    JoinPart(Join(root, a), b);
    assert root.parts + [a] + [b] == root.parts + [a, b];
    assert root.parts + [a, b] + ["lifecycle.log"] == root.parts + [a, b, "lifecycle.log"];
    assert root.parts + [a, b] + ["rsync.log"] == root.parts + [a, b, "rsync.log"];
  }

  function BatchOf(inv: Invocation, p: Place): Batch {
    Batch(inv.isRoot, p.name, p.outDir, inv.cmds)
  }

  // ---------------------------------------------------------------------
  // The command loop, as a specification

  /** Command `i` (0-based) run in the container, logging to `cmd-<i+1>.log`. */
  function RunEvent(b: Batch, i: nat): Event
    requires i < |b.cmds|
  {
    Exec(RunArgv(b.isRoot, b.container, b.cmds[i]), Child(b.outDir, CmdLogName(i + 1)))
  }

  /** Commands `lo..hi-1`, run one after another. */
  function RunsBetween(b: Batch, lo: nat, hi: nat): (r: seq<Event>)
    requires lo <= hi <= |b.cmds|
    decreases hi - lo
  {
    if lo == hi then [] else [RunEvent(b, lo)] + RunsBetween(b, lo + 1, hi)
  }

  function FailedMarker(b: Batch, i: nat, rc: int): Event
    requires i < |b.cmds|
  {
    Wrote(Child(b.outDir, "FAILED"), FailedReport(i + 1, b.cmds[i], rc))
  }

  function OkMarker(b: Batch): Event {
    Wrote(Child(b.outDir, "OK"), OkReport)
  }

  /**
   * The `for` loop from command `i` on: each command runs to completion; the
   * first non-zero exit writes `FAILED` and is returned, and when every
   * command exits 0, `OK` is written and 0 returned.
   */
  function LoopFrom(b: Batch, runs: seq<ProcResult>, i: nat): Steps
    requires |runs| == |b.cmds| && i <= |runs|
    decreases |runs| - i
  {
    if i == |runs| then Steps(Return(0), [OkMarker(b)])
    else
      match runs[i]
      case Raised => Steps(Throw(ProcessRaised), [RunEvent(b, i)])
      case Exited(rc) =>
        if rc != 0 then Steps(Return(rc), [RunEvent(b, i), FailedMarker(b, i, rc)])
        else
          var rest := LoopFrom(b, runs, i + 1);
          Steps(rest.completion, [RunEvent(b, i)] + rest.events)
  }

  /** The index of the first command that did not exit 0, or the number of commands. */
  function FirstFailure(runs: seq<ProcResult>): (k: nat)
    ensures k <= |runs|
    ensures forall j :: 0 <= j < k ==> runs[j] == Exited(0)
    ensures k < |runs| ==> runs[k] != Exited(0)
  {
    if runs == [] then 0
    else if runs[0] == Exited(0) then 1 + FirstFailure(runs[1..])
    else 0
  }

  lemma {:induction false} RunsBetweenSnoc(b: Batch, lo: nat, hi: nat)
    requires lo <= hi < |b.cmds|
    ensures RunsBetween(b, lo, hi + 1) == RunsBetween(b, lo, hi) + [RunEvent(b, hi)]
    decreases hi - lo
  {
    if lo < hi {
      RunsBetweenSnoc(b, lo + 1, hi);
    }
  }

  /** How the loop ends when command `k` is the first that does not exit 0, or `k` is past the last one. */
  function LoopEnd(b: Batch, runs: seq<ProcResult>, i: nat, k: nat): Steps
    requires |runs| == |b.cmds| && i <= k <= |runs|
  {
    if k == |runs| then Steps(Return(0), RunsBetween(b, i, k) + [OkMarker(b)])
    else match runs[k]
      case Raised => Steps(Throw(ProcessRaised), RunsBetween(b, i, k + 1))
      case Exited(rc) => Steps(Return(rc), RunsBetween(b, i, k + 1) + [FailedMarker(b, k, rc)])
  }

  /**
   * The whole loop: the commands up to the first one that does not exit 0
   * run, in order, and that one decides the result.
   */
  function CommandLoop(b: Batch, runs: seq<ProcResult>): Steps
    requires |runs| == |b.cmds|
  {
    LoopEnd(b, runs, 0, FirstFailure(runs))
  }

  /**
   * The loop, from any command before the first failure, runs exactly the
   * commands up to and including the first failure, in order, and ends as
   * that failure dictates.
   */
  lemma {:induction false} LoopStopsAtFirstFailure(b: Batch, runs: seq<ProcResult>, i: nat)
    requires |runs| == |b.cmds| && i <= FirstFailure(runs)
    ensures LoopFrom(b, runs, i) == LoopEnd(b, runs, i, FirstFailure(runs))
    decreases |runs| - i
  {
    var k := FirstFailure(runs);
    if i < k {
      assert runs[i] == Exited(0);
      LoopStopsAtFirstFailure(b, runs, i + 1);
      LoopEndStep(b, runs, i, k);
    } else if k < |runs| {
      assert RunsBetween(b, i, k + 1) == [RunEvent(b, i)];
    } else {
      assert RunsBetween(b, i, k) == [];
    }
  }

  /** Ending at `k` from command `i` is command `i`, then ending at `k` from command `i + 1`. */
  lemma LoopEndStep(b: Batch, runs: seq<ProcResult>, i: nat, k: nat)
    requires |runs| == |b.cmds| && i < k <= |runs|
    ensures LoopEnd(b, runs, i, k).completion == LoopEnd(b, runs, i + 1, k).completion
    ensures LoopEnd(b, runs, i, k).events == [RunEvent(b, i)] + LoopEnd(b, runs, i + 1, k).events
  {
    var e := RunEvent(b, i);
    if k == |runs| {
      var rest := RunsBetween(b, i + 1, k);
      assert RunsBetween(b, i, k) == [e] + rest;
      assert [e] + rest + [OkMarker(b)] == [e] + (rest + [OkMarker(b)]);
    } else {
      var rest := RunsBetween(b, i + 1, k + 1);
      assert RunsBetween(b, i, k + 1) == [e] + rest;
      if runs[k].Exited? {
        var m := FailedMarker(b, k, runs[k].code);
        assert [e] + rest + [m] == [e] + (rest + [m]);
      }
    }
  }

  /**
   * The loop's result is 0 exactly when every command exited 0, having then
   * run them all and written `OK`; it raises exactly when a command raised
   * after every earlier one exited 0.
   */
  lemma CommandLoopOutcome(b: Batch, runs: seq<ProcResult>)
    requires |runs| == |b.cmds|
    ensures var s := CommandLoop(b, runs);
      && (s.completion == Return(0) <==> forall j :: 0 <= j < |runs| ==> runs[j] == Exited(0))
      && (s.completion.Throw? <==> exists j :: 0 <= j < |runs| && runs[j] == Raised && forall i :: 0 <= i < j ==> runs[i] == Exited(0))
      && (s.completion.Throw? ==> s.completion.failure == ProcessRaised)
      && (s.completion == Return(0) ==> s.events == RunsBetween(b, 0, |runs|) + [OkMarker(b)])
  {
    var k := FirstFailure(runs);
    if k < |runs| && runs[k] == Raised {
      FirstFailureIsFirst(runs, k);
    }
    forall j | 0 <= j < |runs| && runs[j] == Raised && (forall i :: 0 <= i < j ==> runs[i] == Exited(0))
      ensures j == k
    {
      FirstFailureIsFirst(runs, j);
    }
    CommandLoopCases(b, runs);
  }

  /**
   * When command `k` is the first to exit non-zero, the loop returns that
   * status after running commands `0..k`, and `FAILED` names it by its
   * 1-based index.
   */
  lemma CommandLoopFailure(b: Batch, runs: seq<ProcResult>, k: nat)
    requires |runs| == |b.cmds| && k < |runs|
    requires runs[k].Exited? && runs[k].code != 0
    requires forall j :: 0 <= j < k ==> runs[j] == Exited(0)
    ensures CommandLoop(b, runs).completion == Return(runs[k].code)
    ensures CommandLoop(b, runs).events == RunsBetween(b, 0, k + 1) + [FailedMarker(b, k, runs[k].code)]
  {
    FirstFailureIsFirst(runs, k);
    CommandLoopCases(b, runs);
  }

  /** The loop's result, case by case on the first failure `k`. */
  lemma CommandLoopCases(b: Batch, runs: seq<ProcResult>)
    requires |runs| == |b.cmds|
    ensures var k, s := FirstFailure(runs), CommandLoop(b, runs);
      && (k == |runs| ==> s == Steps(Return(0), RunsBetween(b, 0, k) + [OkMarker(b)]))
      && (k < |runs| && runs[k].Raised? ==> s == Steps(Throw(ProcessRaised), RunsBetween(b, 0, k + 1)))
      && (k < |runs| && runs[k].Exited? ==>
            runs[k].code != 0 && s == Steps(Return(runs[k].code), RunsBetween(b, 0, k + 1) + [FailedMarker(b, k, runs[k].code)]))
  {
  }

  /** A command that does not exit 0 after every earlier one did is the first failure. */
  lemma FirstFailureIsFirst(runs: seq<ProcResult>, j: nat)
    requires j < |runs| && runs[j] != Exited(0)
    requires forall i :: 0 <= i < j ==> runs[i] == Exited(0)
    ensures FirstFailure(runs) == j
  {
  }

  // ---------------------------------------------------------------------
  // The whole session, as a specification

  function WipeEvents(inv: Invocation, env: Env, p: Place): seq<Event> {
    if env.wipe.Some? then [RemoveEvent(inv, p)] else []
  }

  function SyncEvent(inv: Invocation, p: Place): Event {
    Exec(RsyncArgv(inv.isRoot, inv.project, p.workDir), RsyncLog(p))
  }

  function StartEvent(inv: Invocation, p: Place): Event {
    Exec(StartArgv(inv.isRoot, p.name), LifecycleLog(p))
  }

  function StopEvent(inv: Invocation, p: Place): Event {
    Exec(StopArgv(inv.isRoot, p.name), LifecycleLog(p))
  }

  function RemoveEvent(inv: Invocation, p: Place): Event {
    Exec(RemoveArgv(inv.isRoot, p.workDir), LifecycleLog(p))
  }

  /**
   * The first part of the `try` block: clear a leftover work tree, copy the
   * project, start the container.  `failure` is the exception that ends the
   * block early, if any.
   */
  function Setup(inv: Invocation, env: Env, p: Place): Prepared {
    var wiped := WipeEvents(inv, env, p);
    if env.wipe == Some(Raised) then Prepared(Some(ProcessRaised), wiped)
    else
      var synced := wiped + [SyncEvent(inv, p)];
      match env.rsync
      case Raised => Prepared(Some(ProcessRaised), synced)
      case Exited(rc) =>
        if rc != 0 then Prepared(Some(RsyncFailed(rc)), synced)
        else
          var started := synced + [StartEvent(inv, p)];
          match env.start
          case Raised => Prepared(Some(ProcessRaised), started)
          case Exited(rc) =>
            if rc != 0 then Prepared(Some(StartFailed(p.name)), started)
            else Prepared(None, started)
  }

  /** The `try` block: the setup, then, if it went through, the command loop. */
  function Body(inv: Invocation, env: Env, p: Place): Steps
    requires |env.runs| == |inv.cmds|
  {
    var setup := Setup(inv, env, p);
    if setup.failure.Some? then Steps(Throw(setup.failure.value), setup.events)
    else
      var loop := CommandLoop(BatchOf(inv, p), env.runs);
      Steps(loop.completion, setup.events + loop.events)
  }

  /** Whether a step of the `finally` block raises, which abandons the rest of it. */
  predicate CleanupRaises(inv: Invocation, env: Env) {
    env.stop.Raised? || (!inv.keepWorkdir && env.remove.Raised?)
  }

  /** The subprocesses the `finally` block starts before it releases the lock. */
  function CleanupEvents(inv: Invocation, env: Env, p: Place): seq<Event> {
    if env.stop.Raised? || inv.keepWorkdir then [StopEvent(inv, p)]
    else [StopEvent(inv, p), RemoveEvent(inv, p)]
  }

  /**
   * How `main` ends once it holds `lock`: the `try` block, then the `finally`
   * block's subprocesses, then the unlock, unless a cleanup step raised, in
   * which case that exception is the outcome and the unlock never happens.
   */
  function Finish(lock: Path, body: Steps, cleanup: seq<Event>, raises: bool, held: set<Path>): SessionResult {
    var events := [Locked(lock)] + body.events + cleanup;
    if raises then SessionResult(Throw(ProcessRaised), events, held + {lock})
    else SessionResult(body.completion, events + [Unlocked(lock)], held + {lock} - {lock})
  }

  /**
   * `main` from the slot claim on: the outcome, what the runner did, and the
   * locks held afterwards, starting from the locks in `held`.
   */
  function Session(cfg: HarnessConfig, inv: Invocation, env: Env, held: set<Path>): SessionResult
    requires |env.runs| == |inv.cmds|
  {
    match FirstFree(cfg, held)
    case None => SessionResult(Throw(NoFreeSlots), [], held)
    case Some(slot) =>
      var p := PlaceOf(cfg, inv, slot);
      Finish(LockPath(cfg, slot), Body(inv, env, p), CleanupEvents(inv, env, p), CleanupRaises(inv, env), held)
  }

  /** `Session` once a slot is claimed, spelled out part by part. */
  lemma SessionClaimed(cfg: HarnessConfig, inv: Invocation, env: Env, held: set<Path>, slot: nat)
    requires |env.runs| == |inv.cmds| && FirstFree(cfg, held) == Some(slot)
    ensures var p := PlaceOf(cfg, inv, slot);
      Session(cfg, inv, env, held)
        == Finish(LockPath(cfg, slot), Body(inv, env, p), CleanupEvents(inv, env, p), CleanupRaises(inv, env), held)
    ensures var s := Session(cfg, inv, env, held);
      var lock := LockPath(cfg, slot);
      var p := PlaceOf(cfg, inv, slot);
      && s.events == [Locked(lock)] + Body(inv, env, p).events + CleanupEvents(inv, env, p)
                     + (if CleanupRaises(inv, env) then [] else [Unlocked(lock)])
      && s.outcome == (if CleanupRaises(inv, env) then Throw(ProcessRaised) else Body(inv, env, p).completion)
      && s.held == (if CleanupRaises(inv, env) then held + {lock} else held + {lock} - {lock})
  {
  }

  lemma Associative(a: seq<Event>, b: seq<Event>, c: seq<Event>, d: seq<Event>, e: seq<Event>)
    ensures a + b + c + d + e == a + (b + c + d + e)
  {
  }

  // ---------------------------------------------------------------------
  // The runner's steps, as methods on the host

  /** `run_cmd`: start the subprocess, then await its exit status or an exception. */
  method RunCmd(host: Host, argv: seq<string>, log: Path, answer: ProcResult) returns (r: Result<int, Failure>)
    modifies host
    ensures host.held == old(host.held) && host.trace == old(host.trace) + [Exec(argv, log)]
    ensures r == if answer.Raised? then Failure(ProcessRaised) else Success(answer.code)
  {
    host.trace := host.trace + [Exec(argv, log)];
    if answer.Raised? {
      return Failure(ProcessRaised);
    }
    return Success(answer.code);
  }

  /** `rsync_project`: a non-zero exit raises. */
  method RsyncProject(host: Host, isRoot: bool, src: Path, dst: Path, log: Path, answer: ProcResult)
    returns (err: Option<Failure>)
    modifies host
    ensures host.held == old(host.held) && host.trace == old(host.trace) + [Exec(RsyncArgv(isRoot, src, dst), log)]
    ensures err == match answer
                   case Raised => Some(ProcessRaised)
                   case Exited(rc) => if rc != 0 then Some(RsyncFailed(rc)) else None
  {
    var rc := RunCmd(host, RsyncArgv(isRoot, src, dst), log, answer);
    if rc.Failure? {
      return Some(rc.error);
    }
    if rc.value != 0 {
      return Some(RsyncFailed(rc.value));
    }
    return None;
  }

  /** `container_start`: a non-zero exit raises. */
  method ContainerStart(host: Host, isRoot: bool, name: string, log: Path, answer: ProcResult)
    returns (err: Option<Failure>)
    modifies host
    ensures host.held == old(host.held) && host.trace == old(host.trace) + [Exec(StartArgv(isRoot, name), log)]
    ensures err == match answer
                   case Raised => Some(ProcessRaised)
                   case Exited(rc) => if rc != 0 then Some(StartFailed(name)) else None
  {
    var rc := RunCmd(host, StartArgv(isRoot, name), log, answer);
    if rc.Failure? {
      return Some(rc.error);
    }
    if rc.value != 0 {
      return Some(StartFailed(name));
    }
    return None;
  }

  /** `container_stop`: the exit status is ignored. */
  method ContainerStop(host: Host, isRoot: bool, name: string, log: Path, answer: ProcResult)
    returns (err: Option<Failure>)
    modifies host
    ensures host.held == old(host.held) && host.trace == old(host.trace) + [Exec(StopArgv(isRoot, name), log)]
    ensures err == if answer.Raised? then Some(ProcessRaised) else None
  {
    var rc := RunCmd(host, StopArgv(isRoot, name), log, answer);
    if rc.Failure? {
      return Some(rc.error);
    }
    return None;
  }

  /** `container_run`: the command's exit status is returned as it is. */
  method ContainerRun(host: Host, isRoot: bool, name: string, shellCmd: string, log: Path, answer: ProcResult)
    returns (r: Result<int, Failure>)
    modifies host
    ensures host.held == old(host.held) && host.trace == old(host.trace) + [Exec(RunArgv(isRoot, name, shellCmd), log)]
    ensures r == if answer.Raised? then Failure(ProcessRaised) else Success(answer.code)
  {
    r := RunCmd(host, RunArgv(isRoot, name, shellCmd), log, answer);
  }

  /** One turn of the command loop: command `i` runs in the container, logging to its own file. */
  method RunOne(host: Host, b: Batch, i: nat, answer: ProcResult) returns (r: Result<int, Failure>)
    requires i < |b.cmds|
    modifies host
    ensures host.held == old(host.held) && host.trace == old(host.trace) + [RunEvent(b, i)]
    ensures r == if answer.Raised? then Failure(ProcessRaised) else Success(answer.code)
  {
    var log := Child(b.outDir, CmdLogName(i + 1));
    r := ContainerRun(host, b.isRoot, b.container, b.cmds[i], log, answer);
  }

  /**
   * The commands of the `for` loop, run in order until one does not exit 0:
   * `k` is that command's index (or the number of commands), `last` its answer.
   */
  method RunUntilFailure(host: Host, b: Batch, runs: seq<ProcResult>) returns (k: nat, last: Result<int, Failure>)
    requires |runs| == |b.cmds|
    modifies host
    ensures k == FirstFailure(runs)
    ensures k < |runs| ==> last == if runs[k].Raised? then Failure(ProcessRaised) else Success(runs[k].code)
    ensures host.held == old(host.held)
    ensures host.trace == old(host.trace) + RunsBetween(b, 0, if k < |runs| then k + 1 else k)
  {
    k := 0;
    while k < |b.cmds|
      invariant k <= FirstFailure(runs)
      invariant host.held == old(host.held)
      invariant host.trace == old(host.trace) + RunsBetween(b, 0, k)
    {
      RunsBetweenSnoc(b, 0, k);
      last := RunOne(host, b, k, runs[k]);
      if last.Failure? || last.value != 0 {
        FirstFailureIsFirst(runs, k);
        return;
      }
      k := k + 1;
    }
    last := Success(0);
  }

  /** The `for idx, cmd in enumerate(args.cmd, start=1)` loop of `main`, with its `FAILED` and `OK` markers. */
  method RunCommands(host: Host, b: Batch, runs: seq<ProcResult>) returns (c: Completion)
    requires |runs| == |b.cmds|
    modifies host
    ensures host.held == old(host.held)
    ensures c == CommandLoop(b, runs).completion
    ensures host.trace == old(host.trace) + CommandLoop(b, runs).events
  {
    var k, last := RunUntilFailure(host, b, runs);
    if k == |b.cmds| {
      host.trace := host.trace + [OkMarker(b)];
      return Return(0);
    }
    if last.Failure? {
      return Throw(last.error);
    }
    host.trace := host.trace + [FailedMarker(b, k, last.value)];
    return Return(last.value);
  }

  // The steps of `main`, each logging where `main` sends it

  /** `rm -rf` of the slot's work tree, logged to `lifecycle.log`. */
  method RemoveWorkTree(host: Host, inv: Invocation, p: Place, answer: ProcResult)
    returns (r: Result<int, Failure>)
    modifies host
    ensures host.held == old(host.held) && host.trace == old(host.trace) + [RemoveEvent(inv, p)]
    ensures r == if answer.Raised? then Failure(ProcessRaised) else Success(answer.code)
  {
    r := RunCmd(host, RemoveArgv(inv.isRoot, p.workDir), LifecycleLog(p), answer);
  }

  /** The project copied into the slot's work tree, logged to `rsync.log`. */
  method SyncWorkTree(host: Host, inv: Invocation, p: Place, answer: ProcResult)
    returns (err: Option<Failure>)
    modifies host
    ensures host.held == old(host.held) && host.trace == old(host.trace) + [SyncEvent(inv, p)]
    ensures err == match answer
                   case Raised => Some(ProcessRaised)
                   case Exited(rc) => if rc != 0 then Some(RsyncFailed(rc)) else None
  {
    err := RsyncProject(host, inv.isRoot, inv.project, p.workDir, RsyncLog(p), answer);
  }

  /** The slot's container started, logged to `lifecycle.log`. */
  method StartSlot(host: Host, inv: Invocation, p: Place, answer: ProcResult)
    returns (err: Option<Failure>)
    modifies host
    ensures host.held == old(host.held) && host.trace == old(host.trace) + [StartEvent(inv, p)]
    ensures err == match answer
                   case Raised => Some(ProcessRaised)
                   case Exited(rc) => if rc != 0 then Some(StartFailed(p.name)) else None
  {
    err := ContainerStart(host, inv.isRoot, p.name, LifecycleLog(p), answer);
  }

  /** The slot's container stopped, logged to `lifecycle.log`. */
  method StopSlot(host: Host, inv: Invocation, p: Place, answer: ProcResult)
    returns (err: Option<Failure>)
    modifies host
    ensures host.held == old(host.held) && host.trace == old(host.trace) + [StopEvent(inv, p)]
    ensures err == if answer.Raised? then Some(ProcessRaised) else None
  {
    err := ContainerStop(host, inv.isRoot, p.name, LifecycleLog(p), answer);
  }

  /** The `try` block up to the command loop. */
  method Prepare(inv: Invocation, env: Env, p: Place, host: Host) returns (err: Option<Failure>)
    modifies host
    ensures host.held == old(host.held)
    ensures err == Setup(inv, env, p).failure
    ensures host.trace == old(host.trace) + Setup(inv, env, p).events
  {
    ghost var before := host.trace;
    if env.wipe.Some? {
      var r := RemoveWorkTree(host, inv, p, env.wipe.value);
      if r.Failure? {
        return Some(r.error);
      }
    }
    ghost var wiped := WipeEvents(inv, env, p);
    assert host.trace == before + wiped;
    err := SyncWorkTree(host, inv, p, env.rsync);
    if err.Some? {
      return;
    }
    err := StartSlot(host, inv, p, env.start);
  }

  /** The `try` block of `main`. */
  method TryBlock(inv: Invocation, env: Env, p: Place, host: Host) returns (c: Completion)
    requires |env.runs| == |inv.cmds|
    modifies host
    ensures host.held == old(host.held)
    ensures c == Body(inv, env, p).completion
    ensures host.trace == old(host.trace) + Body(inv, env, p).events
  {
    var err := Prepare(inv, env, p, host);
    if err.Some? {
      return Throw(err.value);
    }
    c := RunCommands(host, BatchOf(inv, p), env.runs);
  }

  /**
   * The `finally` block of `main`: stop the container, remove the work tree
   * unless it is to be kept, then release the slot's lock.  A step that
   * raises abandons the rest of the block, the unlock included.
   */
  method Cleanup(inv: Invocation, env: Env, p: Place, lk: SlotLock, host: Host) returns (err: Option<Failure>)
    requires lk.hasFd
    modifies host, lk
    ensures err == if CleanupRaises(inv, env) then Some(ProcessRaised) else None
    ensures lk.hasFd == CleanupRaises(inv, env)
    ensures CleanupRaises(inv, env) ==>
              host.held == old(host.held) && host.trace == old(host.trace) + CleanupEvents(inv, env, p)
    ensures !CleanupRaises(inv, env) ==>
              && host.held == old(host.held) - {lk.lockPath}
              && host.trace == old(host.trace) + CleanupEvents(inv, env, p) + [Unlocked(lk.lockPath)]
  {
    err := StopSlot(host, inv, p, env.stop);
    if err.Some? {
      return;
    }
    if !inv.keepWorkdir {
      var removed := RemoveWorkTree(host, inv, p, env.remove);
      if removed.Failure? {
        return Some(removed.error);
      }
    }
    lk.Unlock(host);
  }

  /**
   * `main` from `acquire_slot` on, with `--no-wait`: claim a slot, run the
   * `try` block, then the `finally` block; an exception from the `finally`
   * block replaces the `try` block's outcome.
   */
  method RunSession(cfg: HarnessConfig, inv: Invocation, env: Env, host: Host) returns (outcome: Completion)
    requires |env.runs| == |inv.cmds|
    modifies host
    ensures var s := Session(cfg, inv, env, old(host.held));
      outcome == s.outcome && host.trace == old(host.trace) + s.events && host.held == s.held
  {
    var acquired := AcquireSlot(cfg, host);
    if acquired.Failure? {
      return Throw(acquired.error);
    }
    var slot, lk := acquired.value.slot, acquired.value.lock;
    var p := PlaceOf(cfg, inv, slot);
    ghost var before := old(host.trace);
    ghost var locked := [Locked(lk.lockPath)];
    ghost var tried := Body(inv, env, p).events;
    ghost var cleaned := CleanupEvents(inv, env, p);
    SessionClaimed(cfg, inv, env, old(host.held), slot);
    var body := TryBlock(inv, env, p, host);
    var err := Cleanup(inv, env, p, lk, host);
    if err.Some? {
      Associative(before, locked, tried, cleaned, []);
      return Throw(err.value);
    }
    Associative(before, locked, tried, cleaned, [Unlocked(lk.lockPath)]);
    outcome := body;
  }
}
