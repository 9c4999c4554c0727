/** Where each slot keeps its container name, work tree and lock file. */
module Slots {
  import opened Decimal
  import opened Paths
  import opened Config

  datatype SlotLayout = SlotLayout(name: string, slotDir: Path, workDir: Path, lockPath: Path)

  lemma NumeralIsPart(s: string)
    requires |s| >= 1 && AllDigits(s)
    ensures ValidPart(s)
  {
    assert IsDigit(s[0]);
    assert s != ".";
    assert '/' !in s by {
      forall i | 0 <= i < |s| ensures s[i] != '/' { assert IsDigit(s[i]); }
    }
  }

  /** `<stateDir>/slots/<slot>`, the directory that belongs to one slot. */
  function SlotDir(cfg: HarnessConfig, slot: nat): (d: Path)
    ensures d == Path(cfg.stateDir.absolute, cfg.stateDir.parts + ["slots", NatToString(slot)])
    ensures Valid(cfg.stateDir) ==> Valid(d)
  {
    var digits := NatToString(slot);
    NumeralIsPart(digits);
    assert ValidPart("slots");
    assert cfg.stateDir.parts + ["slots"] + [digits] == cfg.stateDir.parts + ["slots", digits];
    Child(Child(cfg.stateDir, "slots"), digits)
  }

  /** `SlotDir` is what `state_dir / "slots" / str(slot)` gives. */
  lemma SlotDirIsJoin(cfg: HarnessConfig, slot: nat)
    ensures SlotDir(cfg, slot) == Join(Join(cfg.stateDir, "slots"), NatToString(slot))
  {
    NumeralIsPart(NatToString(slot));
    assert ValidPart("slots");
    JoinPart(cfg.stateDir, "slots");
    JoinPart(Join(cfg.stateDir, "slots"), NatToString(slot));
  }

  /** `prefix + str(slot)`: the slot number can be read back after the prefix. */
  function ContainerName(prefix: string, slot: nat): (name: string)
    ensures |name| > |prefix| && name[..|prefix|] == prefix
    ensures AllDigits(name[|prefix|..]) && ParseNat(name[|prefix|..]) == slot
  {
    ParseNatToString(slot);
    assert (prefix + NatToString(slot))[|prefix|..] == NatToString(slot);
    prefix + NatToString(slot)
  }

  /**
   * `slot_paths`: the container name, the slot's directory, and inside that
   * directory the work tree `work` and the lock file `slot.lock`.
   */
  function SlotPaths(cfg: HarnessConfig, slot: nat): (r: SlotLayout)
    ensures r.name == ContainerName(cfg.containerPrefix, slot)
    ensures r.slotDir == SlotDir(cfg, slot)
    ensures IsChild(r.workDir, r.slotDir) && r.workDir.parts[|r.workDir.parts| - 1] == "work"
    ensures IsChild(r.lockPath, r.slotDir) && r.lockPath.parts[|r.lockPath.parts| - 1] == "slot.lock"
    ensures r.lockPath == LockPath(cfg, slot)
    ensures Valid(cfg.stateDir) ==> Valid(r.workDir) && Valid(r.lockPath)
  {
    var slotDir := SlotDir(cfg, slot);
    assert ValidPart("work") && ValidPart("slot.lock");
    assert (slotDir.parts + ["work"])[..|slotDir.parts|] == slotDir.parts;
    assert (slotDir.parts + ["slot.lock"])[..|slotDir.parts|] == slotDir.parts;
    assert slotDir.parts + ["slot.lock"] == cfg.stateDir.parts + ["slots", NatToString(slot), "slot.lock"];
    SlotLayout(ContainerName(cfg.containerPrefix, slot), slotDir, Child(slotDir, "work"), Child(slotDir, "slot.lock"))
  }

  /** The work tree and the lock file are what the `/` operator gives. */
  lemma SlotPathsAreJoins(cfg: HarnessConfig, slot: nat)
    ensures SlotPaths(cfg, slot).workDir == Join(SlotDir(cfg, slot), "work")
    ensures SlotPaths(cfg, slot).lockPath == Join(SlotDir(cfg, slot), "slot.lock")
  {
    assert ValidPart("work") && ValidPart("slot.lock");
    JoinPart(SlotDir(cfg, slot), "work");
    JoinPart(SlotDir(cfg, slot), "slot.lock");
  }

  /** `<stateDir>/slots/<slot>/slot.lock`, the file whose flock guards the slot. */
  function LockPath(cfg: HarnessConfig, slot: nat): Path {
    Path(cfg.stateDir.absolute, cfg.stateDir.parts + ["slots", NatToString(slot), "slot.lock"])
  }

  /** Two different slots share no name, directory or lock file. */
  lemma SlotPathsDistinct(cfg: HarnessConfig, a: nat, b: nat)
    requires a != b
    ensures SlotPaths(cfg, a).name != SlotPaths(cfg, b).name
    ensures SlotPaths(cfg, a).slotDir != SlotPaths(cfg, b).slotDir
    ensures SlotPaths(cfg, a).workDir != SlotPaths(cfg, b).workDir
    ensures SlotPaths(cfg, a).lockPath != SlotPaths(cfg, b).lockPath
  {
    NatToStringInjective(a, b);
    var la, lb := SlotPaths(cfg, a), SlotPaths(cfg, b);
    var n := |cfg.stateDir.parts|;
    assert la.slotDir.parts[n + 1] == NatToString(a);
    assert lb.slotDir.parts[n + 1] == NatToString(b);
    assert la.workDir.parts[n + 1] == la.slotDir.parts[n + 1];
    assert lb.workDir.parts[n + 1] == lb.slotDir.parts[n + 1];
    assert la.lockPath.parts[n + 1] == la.slotDir.parts[n + 1];
    assert lb.lockPath.parts[n + 1] == lb.slotDir.parts[n + 1];
  }
}
