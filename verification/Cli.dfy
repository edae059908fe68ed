/** internal/cli/deploy_service.go: what `decloud deploy service` checks before it deploys. */
module Cli {
  import opened Text
  import opened Types
  import opened Orchestrator
  import opened DeployLaws
  import Mounts
  import DockerArgv

  datatype Flags = Flags(
    name: string,
    hosts: seq<string>,
    port: int,
    envFile: string,
    mounts: seq<string>,
    readinessPath: string,
    readinessMs: int,
    strategy: string,
    noCompression: bool)

  /** What stat says of a path. */
  datatype Stat = Exists | Absent | Denied

  datatype Answer = Accepted(req: Request) | BadMount | BadStrategy | NoPort | EnvScriptMissing | EnvScriptUnreadable

  datatype EnvFile = Use(path: string) | NotThere | NotReadable

  /** An explicitly named script must exist; otherwise env.sh beside the sources is used if it
      is there. */
  function ResolveEnvFile(flag: string, candidate: string, stat: string -> Stat): EnvFile {
    if flag != "" then
      match stat(flag)
      case Exists => Use(flag)
      case Absent => NotThere
      case Denied => NotReadable
    else if stat(candidate).Exists? then Use(candidate)
    else Use("")
  }

  /** The `--mount` strings print valid colon-free mounts with distinct targets. */
  ghost predicate MountsParse(raw: seq<string>) {
    exists ms :: Mounts.ValidMounts(ms) && (forall m :: m in ms ==> Mounts.ColonFree(m)) && Mounts.Formatted(Mounts.Volumes(ms)) == raw
  }

  /** sourceDir, dockerfile and candidate are the resolved paths. The request is built exactly
      when the mounts parse and do not collide, the strategy is `recreate`, a port is given and
      a named script can be stat'ed; of several faults the first in this order is reported. The
      request carries every flag unchanged, meets everything the deploy's theorems ask, and
      docker receives the `--mount` strings as they were given. */
  method RunDeployService(f: Flags, sourceDir: string, dockerfile: string, candidate: string, stat: string -> Stat,
                          deployID: string, sourced: Env) returns (r: Answer)
    ensures r.BadMount? <==> !MountsParse(f.mounts)
    ensures r.BadStrategy? <==> MountsParse(f.mounts) && f.strategy != "recreate"
    ensures r.NoPort? <==> MountsParse(f.mounts) && f.strategy == "recreate" && f.port == 0
    ensures r.EnvScriptMissing? <==>
      MountsParse(f.mounts) && f.strategy == "recreate" && f.port != 0 && f.envFile != "" && stat(f.envFile) == Absent
    ensures r.EnvScriptUnreadable? <==>
      MountsParse(f.mounts) && f.strategy == "recreate" && f.port != 0 && f.envFile != "" && stat(f.envFile) == Denied
    ensures r.Accepted? ==>
      && r.req.name == f.name && r.req.sourceDir == sourceDir && r.req.dockerfile == dockerfile
      && r.req.hosts == f.hosts && r.req.port == f.port && r.req.strategy == f.strategy
      && r.req.readinessPath == f.readinessPath && r.req.readinessMs == f.readinessMs
      && r.req.disableCompression == f.noCompression
      && r.req.deployID == deployID && r.req.sourced == sourced
    ensures r.Accepted? ==> Mounts.ValidMounts(r.req.mounts) && Mounts.Formatted(Mounts.Volumes(r.req.mounts)) == f.mounts
    ensures r.Accepted? && f.envFile != "" ==> r.req.envFile == f.envFile
    ensures r.Accepted? && f.envFile == "" && stat(candidate) == Exists ==> r.req.envFile == candidate
    ensures r.Accepted? && f.envFile == "" && stat(candidate) != Exists ==> r.req.envFile == ""
    ensures r.Accepted? && ValidName(f.name) ==> CliRequest(r.req)
    ensures r.Accepted? && ValidName(f.name) && DockerArgv.PlainKeys(Captured(r.req)) ==>
      var argv := DockerArgv.RunArgv(DeployRun(r.req));
      argv.Argv? && DockerArgv.Decode(argv.args).Some? && DockerArgv.Decode(argv.args).value.volumes == f.mounts
  {
    var mounts := Mounts.ParseMountFlags(f.mounts);
    if mounts.Bad? { return BadMount; }
    if f.strategy != RECREATE { return BadStrategy; }
    if f.port == 0 { return NoPort; }
    var envFile := ResolveEnvFile(f.envFile, candidate, stat);
    if envFile.NotThere? { return EnvScriptMissing; }
    if envFile.NotReadable? { return EnvScriptUnreadable; }
    var req := Request(f.name, sourceDir, dockerfile, f.hosts, f.port, envFile.path, mounts.value, f.readinessPath,
                       f.readinessMs, f.strategy, f.noCompression, deployID, sourced);
    if ValidName(f.name) && DockerArgv.PlainKeys(Captured(req)) { VolumesReachDocker(req); }
    return Accepted(req);
  }

  /** Docker reads the formatted mounts of a request from the command line of its container. */
  lemma VolumesReachDocker(req: Request)
    requires ValidName(req.name) && DockerArgv.PlainKeys(Captured(req))
    ensures var argv := DockerArgv.RunArgv(DeployRun(req));
      argv.Argv? && DockerArgv.Decode(argv.args).Some?
      && DockerArgv.Decode(argv.args).value.volumes == Mounts.Formatted(Mounts.Volumes(req.mounts))
  {
    hide DockerArgv.Decode;
    ValidNameHasNoSlash(req.name);
    DockerArgv.RunMeaning(DeployRun(req));
  }
}
