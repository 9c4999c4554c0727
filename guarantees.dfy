/**
 * What one run of the harness promises, stated over the `Session`
 * specification that `RunSession` is proved to follow: which slot it takes,
 * which steps it runs and in what order, how it ends, and that it gives the
 * slot back.
 */
module Guarantees {
  import opened Wrappers
  import opened Decimal
  import opened Paths
  import opened Config
  import opened Slots
  import opened Commands
  import opened Effects
  import opened Locks
  import opened Driver

  /** Whether an event takes or drops a lock. */
  predicate TouchesLock(e: Event) {
    e.Locked? || e.Unlocked?
  }

  // ---------------------------------------------------------------------
  // The try block

  /** Whether the leftover-tree removal, the copy and the container start all go through. */
  predicate SetupSucceeds(env: Env) {
    env.wipe != Some(Raised) && env.rsync == Exited(0) && env.start == Exited(0)
  }

  /**
   * The setup goes through exactly when none of its steps raises or exits
   * non-zero (the removal's exit status aside), and has then removed any
   * leftover tree, copied the project and started the container, in that
   * order.  Either way it only starts subprocesses.
   */
  lemma SetupOutcome(inv: Invocation, env: Env, p: Place)
    ensures Setup(inv, env, p).failure.None? <==> SetupSucceeds(env)
    ensures SetupSucceeds(env) ==>
      Setup(inv, env, p).events == WipeEvents(inv, env, p) + [SyncEvent(inv, p), StartEvent(inv, p)]
    ensures forall e :: e in Setup(inv, env, p).events ==> e.Exec?
  {
    var setup := Setup(inv, env, p);
    var wiped := WipeEvents(inv, env, p);
    assert forall e :: e in wiped ==> e.Exec?;
    assert wiped + [SyncEvent(inv, p)] + [StartEvent(inv, p)] == wiped + [SyncEvent(inv, p), StartEvent(inv, p)];
  }

  /** A copy that exits non-zero raises before the container starts, so no command runs; its message carries the status. */
  lemma RsyncFailureRunsNothing(inv: Invocation, env: Env, p: Place)
    requires |env.runs| == |inv.cmds|
    requires env.wipe != Some(Raised) && env.rsync.Exited? && env.rsync.code != 0
    ensures Body(inv, env, p) ==
      Steps(Throw(RsyncFailed(env.rsync.code)), WipeEvents(inv, env, p) + [SyncEvent(inv, p)])
    ensures var m := ErrorMessage(Body(inv, env, p).completion.failure);
      |RsyncFailedPrefix| <= |m| && m[..|RsyncFailedPrefix|] == RsyncFailedPrefix
      && ParseInt(m[|RsyncFailedPrefix|..]) == Some(env.rsync.code)
  {
    RsyncMessageCarriesCode(env.rsync.code);
  }

  /** A container start that exits non-zero raises before any command runs. */
  lemma StartFailureRunsNothing(inv: Invocation, env: Env, p: Place)
    requires |env.runs| == |inv.cmds|
    requires env.wipe != Some(Raised) && env.rsync == Exited(0)
    requires env.start.Exited? && env.start.code != 0
    ensures Body(inv, env, p) ==
      Steps(Throw(StartFailed(p.name)), WipeEvents(inv, env, p) + [SyncEvent(inv, p), StartEvent(inv, p)])
  {
    assert WipeEvents(inv, env, p) + [SyncEvent(inv, p)] + [StartEvent(inv, p)]
        == WipeEvents(inv, env, p) + [SyncEvent(inv, p), StartEvent(inv, p)];
  }

  /** Running commands only starts subprocesses. */
  lemma {:induction false} RunsAreExecs(b: Batch, lo: nat, hi: nat)
    requires lo <= hi <= |b.cmds|
    ensures forall e :: e in RunsBetween(b, lo, hi) ==> e.Exec?
    decreases hi - lo
  {
    if lo < hi {
      RunsAreExecs(b, lo + 1, hi);
      assert RunsBetween(b, lo, hi) == [RunEvent(b, lo)] + RunsBetween(b, lo + 1, hi);
    }
  }

  /** The command loop starts subprocesses and writes a marker, and nothing else. */
  lemma LoopLeavesLocksAlone(b: Batch, runs: seq<ProcResult>)
    requires |runs| == |b.cmds|
    ensures forall e :: e in CommandLoop(b, runs).events ==> e.Exec? || e.Wrote?
  {
    var k := FirstFailure(runs);
    if k == |runs| {
      RunsAreExecs(b, 0, k);
    } else {
      RunsAreExecs(b, 0, k + 1);
    }
  }

  /**
   * The `try` block returns 0 exactly when the setup goes through and every
   * command exits 0, and has then run every command, in order, and written
   * `OK`; it never takes or drops a lock, and never fails for want of a slot.
   */
  lemma BodyOutcome(inv: Invocation, env: Env, p: Place)
    requires |env.runs| == |inv.cmds|
    ensures var body := Body(inv, env, p);
      body.completion == Return(0) <==> SetupSucceeds(env) && forall j :: 0 <= j < |env.runs| ==> env.runs[j] == Exited(0)
    ensures var body := Body(inv, env, p);
      var b := BatchOf(inv, p);
      body.completion == Return(0) ==>
        body.events == Setup(inv, env, p).events + (RunsBetween(b, 0, |inv.cmds|) + [OkMarker(b)])
    ensures Body(inv, env, p).completion != Throw(NoFreeSlots)
    ensures forall e :: e in Body(inv, env, p).events ==> !TouchesLock(e)
  {
    var b := BatchOf(inv, p);
    SetupOutcome(inv, env, p);
    CommandLoopOutcome(b, env.runs);
    LoopLeavesLocksAlone(b, env.runs);
  }

  // ---------------------------------------------------------------------
  // The finally block, over any try block and any cleanup steps

  /**
   * When no cleanup step raises, the lock is taken first and released last,
   * nothing in between touches it, the lock table ends as it began, and the
   * outcome is the `try` block's.
   */
  lemma FinishReleasesLast(lock: Path, body: Steps, cleanup: seq<Event>, held: set<Path>)
    requires lock !in held
    requires forall e :: e in body.events ==> !TouchesLock(e)
    requires forall e :: e in cleanup ==> !TouchesLock(e)
    ensures var r := Finish(lock, body, cleanup, false, held);
      && r.outcome == body.completion
      && r.held == held
      && r.events == [Locked(lock)] + body.events + cleanup + [Unlocked(lock)]
      && r.events[0] == Locked(lock)
      && r.events[|r.events| - 1] == Unlocked(lock)
      && forall i :: 0 < i < |r.events| - 1 ==> !TouchesLock(r.events[i])
  {
    var r := Finish(lock, body, cleanup, false, held);
    var middle := body.events + cleanup;
    assert r.events == [Locked(lock)] + middle + [Unlocked(lock)];
    forall i | 0 < i < |r.events| - 1
      ensures !TouchesLock(r.events[i])
    {
      assert r.events[i] == middle[i - 1];
      assert middle[i - 1] in middle;
    }
  }

  /**
   * When a cleanup step raises, the outcome is that exception, the lock is
   * still held, and no unlock appears in the trace.
   */
  lemma FinishRaisingKeepsLock(lock: Path, body: Steps, cleanup: seq<Event>, held: set<Path>)
    requires forall e :: e in body.events ==> !TouchesLock(e)
    requires forall e :: e in cleanup ==> !TouchesLock(e)
    ensures var r := Finish(lock, body, cleanup, true, held);
      && r.outcome == Throw(ProcessRaised)
      && lock in r.held && r.held == held + {lock}
      && Unlocked(lock) !in r.events
  {
  }

  /** The `finally` block's subprocesses: the stop, then the removal unless the tree is kept or the stop raised. */
  lemma CleanupEventsShape(inv: Invocation, env: Env, p: Place)
    ensures forall e :: e in CleanupEvents(inv, env, p) ==> e.Exec?
    ensures !CleanupRaises(inv, env) ==>
      CleanupEvents(inv, env, p) == [StopEvent(inv, p)] + (if inv.keepWorkdir then [] else [RemoveEvent(inv, p)])
  {
  }

  // ---------------------------------------------------------------------
  // A whole run

  /**
   * A run fails for want of a slot exactly when every slot's lock is already
   * held, and then it has done nothing and taken no lock.
   */
  lemma NoFreeSlotsExactlyWhenFull(cfg: HarnessConfig, inv: Invocation, env: Env, held: set<Path>)
    requires |env.runs| == |inv.cmds|
    ensures var s := Session(cfg, inv, env, held);
      s.outcome == Throw(NoFreeSlots) <==> forall k :: 1 <= k <= cfg.slots ==> LockPath(cfg, k) in held
    ensures var s := Session(cfg, inv, env, held);
      s.outcome == Throw(NoFreeSlots) ==> s.events == [] && s.held == held
  {
    match FirstFree(cfg, held)
    case None =>
    case Some(slot) =>
      SessionClaimed(cfg, inv, env, held, slot);
      BodyOutcome(inv, env, PlaceOf(cfg, inv, slot));
      assert !(1 <= slot <= cfg.slots ==> LockPath(cfg, slot) in held);
  }

  /**
   * A second run started while a first one holds its slot gets a later slot,
   * and so another container, work tree and lock file.
   */
  lemma SecondRunGetsAnotherSlot(cfg: HarnessConfig, held: set<Path>, a: nat)
    requires FirstFree(cfg, held) == Some(a)
    ensures match FirstFree(cfg, held + {LockPath(cfg, a)})
      case None => true
      case Some(b) =>
        && a < b
        && SlotPaths(cfg, a).name != SlotPaths(cfg, b).name
        && SlotPaths(cfg, a).workDir != SlotPaths(cfg, b).workDir
        && SlotPaths(cfg, a).lockPath != SlotPaths(cfg, b).lockPath
  {
    match FirstFree(cfg, held + {LockPath(cfg, a)})
    case None =>
    case Some(b) =>
      assert LockPath(cfg, b) != LockPath(cfg, a);
      SlotPathsDistinct(cfg, a, b);
  }

  /**
   * Once a slot is claimed, however the `try` block ends (a copy or start
   * failure, a failing command, an exception, or success), the run stops the
   * container, removes the work tree unless it is kept, and releases the
   * lock last, after which the lock table is as it was; the lock is taken
   * first and nothing in between touches it; the outcome is the `try`
   * block's.  This holds whenever no cleanup step raises.
   */
  lemma CleanupFollowsEveryExit(cfg: HarnessConfig, inv: Invocation, env: Env, held: set<Path>, slot: nat)
    requires |env.runs| == |inv.cmds| && FirstFree(cfg, held) == Some(slot) && !CleanupRaises(inv, env)
    ensures var s := Session(cfg, inv, env, held);
      var p := PlaceOf(cfg, inv, slot);
      var lock := LockPath(cfg, slot);
      && s.events == [Locked(lock)] + Body(inv, env, p).events + [StopEvent(inv, p)]
                     + (if inv.keepWorkdir then [] else [RemoveEvent(inv, p)]) + [Unlocked(lock)]
      && s.outcome == Body(inv, env, p).completion
      && s.held == held
      && s.events[0] == Locked(lock)
      && s.events[|s.events| - 1] == Unlocked(lock)
      && forall i :: 0 < i < |s.events| - 1 ==> !TouchesLock(s.events[i])
  {
    var p := PlaceOf(cfg, inv, slot);
    SessionClaimed(cfg, inv, env, held, slot);
    BodyOutcome(inv, env, p);
    CleanupEventsShape(inv, env, p);
    FinishReleasesLast(LockPath(cfg, slot), Body(inv, env, p), CleanupEvents(inv, env, p), held);
  }

  /**
   * When stopping the container or removing the work tree raises, the rest
   * of the `finally` block is skipped: the run ends with that exception, the
   * runner never releases the slot's lock, and the trace holds no unlock.
   */
  lemma CleanupExceptionKeepsTheLock(cfg: HarnessConfig, inv: Invocation, env: Env, held: set<Path>, slot: nat)
    requires |env.runs| == |inv.cmds| && FirstFree(cfg, held) == Some(slot) && CleanupRaises(inv, env)
    ensures var s := Session(cfg, inv, env, held);
      var lock := LockPath(cfg, slot);
      && s.outcome == Throw(ProcessRaised)
      && lock in s.held && s.held == held + {lock}
      && Unlocked(lock) !in s.events
  {
    var p := PlaceOf(cfg, inv, slot);
    SessionClaimed(cfg, inv, env, held, slot);
    BodyOutcome(inv, env, p);
    CleanupEventsShape(inv, env, p);
    FinishRaisingKeepsLock(LockPath(cfg, slot), Body(inv, env, p), CleanupEvents(inv, env, p), held);
  }

  /**
   * A run returns 0 exactly when it claims a slot, the setup goes through,
   * every command exits 0 and no cleanup step raises; it has then run every
   * command, in order, and written `OK` before cleaning up.
   */
  lemma SuccessExactlyWhenEveryCommandPasses(cfg: HarnessConfig, inv: Invocation, env: Env, held: set<Path>)
    requires |env.runs| == |inv.cmds|
    ensures var s := Session(cfg, inv, env, held);
      s.outcome == Return(0) <==>
        && FirstFree(cfg, held).Some?
        && SetupSucceeds(env)
        && (forall j :: 0 <= j < |env.runs| ==> env.runs[j] == Exited(0))
        && !CleanupRaises(inv, env)
    ensures var s := Session(cfg, inv, env, held);
      s.outcome == Return(0) ==>
        var slot := FirstFree(cfg, held).value;
        var p := PlaceOf(cfg, inv, slot);
        var b := BatchOf(inv, p);
        s.events == [Locked(LockPath(cfg, slot))] + Setup(inv, env, p).events
                    + RunsBetween(b, 0, |inv.cmds|) + [OkMarker(b)]
                    + CleanupEvents(inv, env, p) + [Unlocked(LockPath(cfg, slot))]
  {
    match FirstFree(cfg, held)
    case None =>
    case Some(slot) =>
      var p := PlaceOf(cfg, inv, slot);
      var b := BatchOf(inv, p);
      SessionClaimed(cfg, inv, env, held, slot);
      BodyOutcome(inv, env, p);
      Regroup([Locked(LockPath(cfg, slot))], Setup(inv, env, p).events, RunsBetween(b, 0, |inv.cmds|), [OkMarker(b)],
              CleanupEvents(inv, env, p), if CleanupRaises(inv, env) then [] else [Unlocked(LockPath(cfg, slot))]);
  }

  lemma Regroup(a: seq<Event>, b: seq<Event>, c: seq<Event>, d: seq<Event>, e: seq<Event>, f: seq<Event>)
    ensures a + (b + (c + d)) + e + f == a + b + c + d + e + f
  {
  }

  /**
   * When command `k` (0-based) is the first to exit non-zero, the run
   * returns its exit status, commands `0..k` and no others have run, in
   * order, and `FAILED` names it as command `k + 1` with its text and status.
   */
  lemma FirstFailingCommandIsReported(cfg: HarnessConfig, inv: Invocation, env: Env, held: set<Path>, k: nat)
    requires |env.runs| == |inv.cmds| && FirstFree(cfg, held).Some? && SetupSucceeds(env) && !CleanupRaises(inv, env)
    requires k < |env.runs| && env.runs[k].Exited? && env.runs[k].code != 0
    requires forall j :: 0 <= j < k ==> env.runs[j] == Exited(0)
    ensures var slot := FirstFree(cfg, held).value;
      var s := Session(cfg, inv, env, held);
      var p := PlaceOf(cfg, inv, slot);
      var b := BatchOf(inv, p);
      var rc := env.runs[k].code;
      && s.outcome == Return(rc)
      && s.events == [Locked(LockPath(cfg, slot))] + Setup(inv, env, p).events
                     + RunsBetween(b, 0, k + 1) + [Wrote(Child(p.outDir, "FAILED"), FailedReport(k + 1, inv.cmds[k], rc))]
                     + CleanupEvents(inv, env, p) + [Unlocked(LockPath(cfg, slot))]
  {
    var slot := FirstFree(cfg, held).value;
    var p := PlaceOf(cfg, inv, slot);
    var b := BatchOf(inv, p);
    var rc := env.runs[k].code;
    SessionClaimed(cfg, inv, env, held, slot);
    SetupOutcome(inv, env, p);
    CommandLoopFailure(b, env.runs, k);
    Regroup([Locked(LockPath(cfg, slot))], Setup(inv, env, p).events, RunsBetween(b, 0, k + 1), [FailedMarker(b, k, rc)],
            CleanupEvents(inv, env, p), [Unlocked(LockPath(cfg, slot))]);
  }

  /** The steps whose exit status the runner does not look at. */
  datatype CleanupStep = Wipe | Stop | Remove

  /** Two answers from the outside world that differ at most in the exit status of `step`. */
  predicate SameButStatus(env1: Env, env2: Env, step: CleanupStep)
  {
    match step
    case Wipe => env1.(wipe := env2.wipe) == env2 && env1.wipe.Some? && env2.wipe.Some?
                 && env1.wipe.value.Exited? && env2.wipe.value.Exited?
    case Stop => env1.(stop := env2.stop) == env2 && env1.stop.Exited? && env2.stop.Exited?
    case Remove => env1.(remove := env2.remove) == env2 && env1.remove.Exited? && env2.remove.Exited?
  }

  /** Neither the `try` block nor the `finally` block looks at those exit statuses. */
  lemma BlocksIgnoreStatus(inv: Invocation, env1: Env, env2: Env, p: Place, step: CleanupStep)
    requires SameButStatus(env1, env2, step)
    ensures Setup(inv, env1, p) == Setup(inv, env2, p)
    ensures CleanupEvents(inv, env1, p) == CleanupEvents(inv, env2, p)
    ensures CleanupRaises(inv, env1) == CleanupRaises(inv, env2)
  {
  }

  /**
   * The exit statuses of the leftover-tree removal, of the container stop
   * and of the work-tree removal are ignored: two runs whose answers differ
   * only there are the same run.
   */
  lemma CleanupExitCodesIgnored(cfg: HarnessConfig, inv: Invocation, env1: Env, env2: Env, held: set<Path>, step: CleanupStep)
    requires |env1.runs| == |inv.cmds| && SameButStatus(env1, env2, step)
    ensures |env2.runs| == |inv.cmds|
    ensures Session(cfg, inv, env1, held) == Session(cfg, inv, env2, held)
  {
    match FirstFree(cfg, held)
    case None =>
    case Some(slot) =>
      var p := PlaceOf(cfg, inv, slot);
      BlocksIgnoreStatus(inv, env1, env2, p, step);
      assert env1.runs == env2.runs;
      assert Body(inv, env1, p) == Body(inv, env2, p);
      SessionClaimed(cfg, inv, env1, held, slot);
      SessionClaimed(cfg, inv, env2, held, slot);
  }
}
