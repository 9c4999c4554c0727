/**
 * The harness configuration file, read once at start-up, and the choice of
 * the artifacts root.
 */
module Config {
  import opened Wrappers
  import opened Decimal
  import opened Paths

  /** The JSON values the configuration holds: numbers and strings. */
  datatype Json = JInt(i: int) | JStr(s: string)

  datatype HarnessConfig = HarnessConfig(
    slots: int,
    containerPrefix: string,
    stateDir: Path,
    artifactsDirDefault: string)

  datatype ConfigError = MissingKey(key: string) | NotAnInteger(key: string) | NotAPath(key: string)

  const DefaultArtifactsDir: string := "./artifacts"

  /** `int(v)`; `None` where Python raises ValueError. */
  function AsInt(v: Json): Option<int> {
    match v
    case JInt(i) => Some(i)
    case JStr(s) => ParseInt(s)
  }

  /** `str(v)`. */
  function AsStr(v: Json): string {
    match v
    case JInt(i) => IntToString(i)
    case JStr(s) => s
  }

  /** Whether the configuration object holds every required key, each of a usable kind. */
  predicate WellFormed(data: map<string, Json>) {
    && "slots" in data && AsInt(data["slots"]).Some?
    && "containerPrefix" in data
    && "stateDir" in data && data["stateDir"].JStr?
  }

  /**
   * `load_config` on the parsed JSON object.  Keys are read in the order the
   * source reads them, so the first problem met is the one reported.
   */
  function LoadConfig(data: map<string, Json>): (r: Result<HarnessConfig, ConfigError>)
    ensures r.Success? <==> WellFormed(data)
    ensures r.Success? ==> Valid(r.value.stateDir)
    ensures r.Success? ==> r.value.slots == AsInt(data["slots"]).value
    ensures r.Success? ==> r.value.containerPrefix == AsStr(data["containerPrefix"])
    ensures r.Success? ==> r.value.stateDir == Parse(data["stateDir"].s)
    ensures r.Success? ==> r.value.artifactsDirDefault ==
                             (if "artifactsDirDefault" in data then AsStr(data["artifactsDirDefault"])
                              else DefaultArtifactsDir)
    ensures r.Failure? && "slots" !in data ==> r.error == MissingKey("slots")
  {
    if "slots" !in data then Failure(MissingKey("slots"))
    else if AsInt(data["slots"]).None? then Failure(NotAnInteger("slots"))
    else if "containerPrefix" !in data then Failure(MissingKey("containerPrefix"))
    else if "stateDir" !in data then Failure(MissingKey("stateDir"))
    else if !data["stateDir"].JStr? then Failure(NotAPath("stateDir"))
    else
      var artifacts := if "artifactsDirDefault" in data then data["artifactsDirDefault"] else JStr(DefaultArtifactsDir);
      Success(HarnessConfig(
        AsInt(data["slots"]).value,
        AsStr(data["containerPrefix"]),
        Parse(data["stateDir"].s),
        AsStr(artifacts)))
  }

  /**
   * `Path(args.artifacts or cfg.artifacts_dir_default)`: an absent or empty
   * `--artifacts` falls back to the configured default.
   */
  function ArtifactsRoot(cli: Option<string>, cfg: HarnessConfig): (p: Path)
    ensures Valid(p)
  {
    if cli.Some? && cli.value != "" then Parse(cli.value) else Parse(cfg.artifactsDirDefault)
  }

  /**
   * `args.artifacts or cfg.artifacts_dir_default`: an empty flag is falsy and
   * counts as absent; any other flag value wins over the configured default.
   */
  lemma ArtifactsRootChoice(cfg: HarnessConfig, flag: string)
    ensures ArtifactsRoot(Some(""), cfg) == ArtifactsRoot(None, cfg) == Parse(cfg.artifactsDirDefault)
    ensures flag != "" ==> ArtifactsRoot(Some(flag), cfg) == Parse(flag)
  {
  }

  lemma ParseDefaultArtifactsDir()
    ensures Parse(DefaultArtifactsDir) == Path(false, ["artifacts"])
  {
    var name := "artifacts";
    assert ValidPart(name);
    ParseDotSlash(name);
    assert DefaultArtifactsDir == "./" + name;
  }

  /**
   * With no `artifactsDirDefault` key and no `--artifacts` flag, artifacts go
   * under the relative directory `artifacts`.
   */
  lemma DefaultArtifactsRootIsRelative(data: map<string, Json>)
    requires WellFormed(data) && "artifactsDirDefault" !in data
    ensures LoadConfig(data).Success?
    ensures ArtifactsRoot(None, LoadConfig(data).value) == Path(false, ["artifacts"])
  {
    ParseDefaultArtifactsDir();
  }
}
