/** The per-slot lock and the allocator that claims the lowest free slot. */
module Locks {
  import opened Wrappers
  import opened Paths
  import opened Config
  import opened Slots
  import opened Commands
  import opened Effects

  /** `SlotLock`: a lock file and, while the lock is held, the descriptor holding it. */
  class SlotLock {
    const lockPath: Path
    /** `fd is not None`. */
    var hasFd: bool

    constructor (lockPath: Path)
      ensures this.lockPath == lockPath && !hasFd
    {
      this.lockPath := lockPath;
      hasFd := false;
    }

    /**
     * `try_lock`: a non-blocking exclusive flock.  It succeeds exactly when no
     * descriptor holds the file; on failure the descriptor is closed again and
     * nothing else changes.  The runner only calls it on a new handle, which
     * holds no descriptor yet.
     */
    method TryLock(host: Host) returns (ok: bool)
      requires !hasFd
      modifies this, host
      ensures ok <==> lockPath !in old(host.held)
      ensures hasFd == ok
      ensures ok ==> host.held == old(host.held) + {lockPath} && host.trace == old(host.trace) + [Locked(lockPath)]
      ensures !ok ==> host.held == old(host.held) && host.trace == old(host.trace)
    {
      if lockPath in host.held {
        hasFd := false;
        ok := false;
      } else {
        host.held := host.held + {lockPath};
        host.trace := host.trace + [Locked(lockPath)];
        hasFd := true;
        ok := true;
      }
    }

    /**
     * `unlock`: with no descriptor it does nothing; otherwise it drops this
     * file's lock, and only that one, and forgets the descriptor.
     */
    method Unlock(host: Host)
      modifies this, host
      ensures !hasFd
      ensures old(hasFd) ==> host.held == old(host.held) - {lockPath} && host.trace == old(host.trace) + [Unlocked(lockPath)]
      ensures !old(hasFd) ==> host.held == old(host.held) && host.trace == old(host.trace)
    {
      if hasFd {
        host.held := host.held - {lockPath};
        host.trace := host.trace + [Unlocked(lockPath)];
        hasFd := false;
      }
    }

    /** Unlocking twice leaves the host as unlocking once does. */
    method UnlockTwice(host: Host)
      modifies this, host
      ensures !hasFd
      ensures old(hasFd) ==> host.held == old(host.held) - {lockPath} && host.trace == old(host.trace) + [Unlocked(lockPath)]
      ensures !old(hasFd) ==> host.held == old(host.held) && host.trace == old(host.trace)
    {
      Unlock(host);
      Unlock(host);
    }
  }

  /**
   * The first slot, from `from` up to `cfg.slots`, whose lock file no
   * descriptor holds.
   */
  function FirstFreeFrom(cfg: HarnessConfig, held: set<Path>, from: nat): (r: Option<nat>)
    ensures r.Some? ==> from <= r.value <= cfg.slots && LockPath(cfg, r.value) !in held
    ensures r.Some? ==> forall s :: from <= s < r.value ==> LockPath(cfg, s) in held
    ensures r.None? ==> forall s :: from <= s <= cfg.slots ==> LockPath(cfg, s) in held
    decreases cfg.slots + 1 - from
  {
    if from > cfg.slots then None
    else if LockPath(cfg, from) !in held then Some(from)
    else FirstFreeFrom(cfg, held, from + 1)
  }

  /** The lowest-numbered free slot in `1..cfg.slots`, if any. */
  function FirstFree(cfg: HarnessConfig, held: set<Path>): Option<nat> {
    FirstFreeFrom(cfg, held, 1)
  }

  /** A claimed slot and the lock that holds it. */
  datatype Lease = Lease(slot: nat, lock: SlotLock)

  /**
   * One pass of `acquire_slot` with `wait=False`: try the slots in ascending
   * order and keep the first lock obtained; if every lock is held, raise
   * "no free slots available" and change nothing.
   */
  method AcquireSlot(cfg: HarnessConfig, host: Host) returns (r: Result<Lease, Failure>)
    modifies host
    ensures FirstFree(cfg, old(host.held)).None? ==>
              r == Failure(NoFreeSlots) && host.held == old(host.held) && host.trace == old(host.trace)
    ensures FirstFree(cfg, old(host.held)).Some? ==>
              var slot := FirstFree(cfg, old(host.held)).value;
              && r.Success? && r.value.slot == slot
              && fresh(r.value.lock) && r.value.lock.lockPath == LockPath(cfg, slot) && r.value.lock.hasFd
              && host.held == old(host.held) + {LockPath(cfg, slot)}
              && host.trace == old(host.trace) + [Locked(LockPath(cfg, slot))]
  {
    var slot := 1;
    while slot <= cfg.slots
      invariant 1 <= slot
      invariant FirstFree(cfg, old(host.held)) == FirstFreeFrom(cfg, old(host.held), slot)
      invariant host.held == old(host.held) && host.trace == old(host.trace)
      decreases cfg.slots + 1 - slot
    {
      var lk := new SlotLock(LockPath(cfg, slot));
      var ok := lk.TryLock(host);
      if ok {
        return Success(Lease(slot, lk));
      }
      slot := slot + 1;
    }
    return Failure(NoFreeSlots);
  }

  /** The lock files of slots `1..count`. */
  function LocksOfFirst(cfg: HarnessConfig, count: nat): set<Path> {
    set s: nat | 1 <= s <= count :: LockPath(cfg, s)
  }

  lemma {:induction false} SkipHeld(cfg: HarnessConfig, held: set<Path>, from: nat, upto: nat)
    requires 1 <= from <= upto <= cfg.slots + 1
    requires forall s :: from <= s < upto ==> LockPath(cfg, s) in held
    ensures FirstFreeFrom(cfg, held, from) == FirstFreeFrom(cfg, held, upto)
    decreases upto - from
  {
    if from < upto {
      SkipHeld(cfg, held, from + 1, upto);
    }
  }

  /**
   * Mutual exclusion over the whole pool: while slots `1..count` are held,
   * the next claim gets slot `count + 1`, and once all `cfg.slots` are held
   * no claim succeeds.
   */
  lemma PoolFillsInOrder(cfg: HarnessConfig, count: nat)
    requires count <= cfg.slots
    ensures FirstFree(cfg, LocksOfFirst(cfg, count)) == if count < cfg.slots then Some(count + 1) else None
  {
    var held := LocksOfFirst(cfg, count);
    forall s | 1 <= s <= count ensures LockPath(cfg, s) in held {
      assert LockPath(cfg, s) in held;
    }
    SkipHeld(cfg, held, 1, count + 1);
    if count < cfg.slots {
      forall s: nat | 1 <= s <= count ensures LockPath(cfg, s) != LockPath(cfg, count + 1) {
        SlotPathsDistinct(cfg, s, count + 1);
      }
    }
  }
}
