/**
 * The command lines the runner hands to its subprocesses, the names of its
 * log files, the texts it writes, and the errors it raises.
 */
module Commands {
  import opened Wrappers
  import opened Decimal
  import opened Paths

  /** `with_root`: prefix `sudo --` unless the runner already runs as root. */
  function WithRoot(isRoot: bool, cmd: seq<string>): seq<string> {
    if isRoot then cmd else ["sudo", "--"] + cmd
  }

  /**
   * The wrapped command always ends with the original one and is at most two
   * words longer; it is the original exactly when running as root, and
   * otherwise starts with `sudo --`.
   */
  lemma WithRootShape(isRoot: bool, cmd: seq<string>)
    ensures var r := WithRoot(isRoot, cmd);
      && |cmd| <= |r| <= |cmd| + 2
      && r[|r| - |cmd|..] == cmd
      && (r == cmd <==> isRoot)
      && (!isRoot ==> |r| == |cmd| + 2 && r[..2] == ["sudo", "--"])
  {
    var r := WithRoot(isRoot, cmd);
    if !isRoot {
      assert r[2..] == cmd;
      assert |r| != |cmd|;
    }
  }

  /** The trees rsync never copies into the work tree. */
  const RsyncExcludes: seq<string> := ["--exclude", ".direnv/", "--exclude", "result", "--exclude", ".git/objects/"]

  /** `rsync_project`'s command: mirror `src` onto `dst`, deleting extraneous files. */
  function RsyncArgv(isRoot: bool, src: Path, dst: Path): seq<string> {
    WithRoot(isRoot, ["rsync", "-a", "--delete", "--safe-links"] + RsyncExcludes + [Render(src) + "/", Render(dst) + "/"])
  }

  function StartArgv(isRoot: bool, name: string): seq<string> {
    WithRoot(isRoot, ["nixos-container", "start", name])
  }

  function StopArgv(isRoot: bool, name: string): seq<string> {
    WithRoot(isRoot, ["nixos-container", "stop", name])
  }

  function RemoveArgv(isRoot: bool, dir: Path): seq<string> {
    WithRoot(isRoot, ["rm", "-rf", Render(dir)])
  }

  const WorkPrefix: string := "cd /work && "

  /** `container_run`'s command: a login bash inside the container runs the user's command from `/work`. */
  function RunArgv(isRoot: bool, name: string, shellCmd: string): seq<string> {
    WithRoot(isRoot, ["nixos-container", "run", name, "--", "bash", "-lc", WorkPrefix + shellCmd])
  }

  /**
   * The user's command reaches the container unchanged, as the last argument,
   * after `cd /work && `, for `bash -lc` in the named container.
   */
  lemma RunArgvCarriesCommand(isRoot: bool, name: string, shellCmd: string)
    ensures var r := RunArgv(isRoot, name, shellCmd);
      && |r| >= 7
      && r[|r| - 7..|r| - 1] == ["nixos-container", "run", name, "--", "bash", "-lc"]
      && var inner := r[|r| - 1];
         |inner| == |WorkPrefix| + |shellCmd| && inner[..|WorkPrefix|] == WorkPrefix && inner[|WorkPrefix|..] == shellCmd
  {
    var inner := WorkPrefix + shellCmd;
    assert inner[|WorkPrefix|..] == shellCmd;
    var base := ["nixos-container", "run", name, "--", "bash", "-lc", inner];
    var r := RunArgv(isRoot, name, shellCmd);
    WithRootShape(isRoot, base);
    assert r[|r| - 7..] == base;
    assert r[|r| - 7..|r| - 1] == base[..6];
  }

  /** `f"cmd-{idx:02d}.log"`, the log of the `idx`-th command. */
  function CmdLogName(idx: nat): string {
    "cmd-" + ZeroPad2(idx) + ".log"
  }

  /**
   * A command log's name is a single path component, ten characters long up
   * to index 99, from which the index can be read back.
   */
  lemma CmdLogNameShape(idx: nat)
    ensures var r := CmdLogName(idx);
      && ValidPart(r)
      && (idx < 100 ==> |r| == 10)
      && |r| >= 10 && r[..4] == "cmd-" && r[|r| - 4..] == ".log"
      && AllDigits(r[4..|r| - 4]) && ParseNat(r[4..|r| - 4]) == idx
  {
    var digits := ZeroPad2(idx);
    var r := CmdLogName(idx);
    assert r[4..|r| - 4] == digits;
    assert '/' !in r by {
      forall i | 0 <= i < |r| ensures r[i] != '/' {
        if 4 <= i < |r| - 4 {
          assert r[i] == digits[i - 4];
          assert IsDigit(digits[i - 4]);
        }
      }
    }
  }

  /** Distinct commands log to distinct files. */
  lemma CmdLogNamesDistinct(a: nat, b: nat)
    requires a != b
    ensures CmdLogName(a) != CmdLogName(b)
  {
    CmdLogNameShape(a);
    CmdLogNameShape(b);
  }

  /** The text of the `FAILED` marker: the 1-based index, the command and its exit code. */
  function FailedReport(idx: nat, cmd: string, rc: int): string {
    "Command " + NatToString(idx) + " failed: " + cmd + "\nexit=" + IntToString(rc) + "\n"
  }

  const OkReport: string := "success\n"

  /** Why a session ends by raising instead of returning an exit code. */
  datatype Failure =
    | NoFreeSlots              // every slot's lock was held
    | RsyncFailed(code: int)   // rsync exited non-zero
    | StartFailed(container: string)  // `nixos-container start` exited non-zero
    | ProcessRaised            // spawning or awaiting a subprocess raised

  /** The message of the RuntimeError the runner raises for each of its own failures. */
  function ErrorMessage(f: Failure): string
    requires !f.ProcessRaised?
  {
    match f
    case NoFreeSlots => "no free slots available"
    case RsyncFailed(code) => RsyncFailedPrefix + IntToString(code)
    case StartFailed(name) => "failed to start container " + name
  }

  const RsyncFailedPrefix: string := "rsync failed with exit code "

  /** The rsync error message carries the exit code, readable back with `int()`. */
  lemma RsyncMessageCarriesCode(code: int)
    ensures var m := ErrorMessage(RsyncFailed(code));
      |m| > |RsyncFailedPrefix| && ParseInt(m[|RsyncFailedPrefix|..]) == Some(code)
  {
    var m := ErrorMessage(RsyncFailed(code));
    assert m[|RsyncFailedPrefix|..] == IntToString(code);
    ParseIntToString(code);
  }
}
