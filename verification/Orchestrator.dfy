/** internal/deploy/service.go and lifecycle.go: the deploy, its compensation, the publication
    of the Caddyfile, and the lifecycle commands. */
module Orchestrator {
  import opened Text
  import opened Types
  import opened Host
  import opened Registry
  import Mounts
  import Caddyfile
  import Readiness

  const LIVE := "Caddyfile"
  const NEXT := "Caddyfile.tmp"
  const CADDY_TEMP := ".caddyfile-"

  datatype CaddyStep = Generating | ValidatingStep | Renaming | ReloadingStep

  datatype Error = ErrRun | ErrEnvCapture | ErrBuild | ErrReadiness | ErrInterrupted | ErrLoad(cause: LoadError)
                 | ErrSave | ErrDelete | ErrList | ErrNotFound | ErrCaddyReload(step: CaddyStep)

  datatype Reply = Success | Failure(error: Error)

  /** deployID is the fresh identifier of this attempt, sourced what sourcing envFile yields. */
  datatype Request = Request(
    name: string,
    sourceDir: string,
    dockerfile: string,
    hosts: seq<string>,
    port: int,
    envFile: string,
    mounts: seq<Mount>,
    readinessPath: string,
    readinessMs: int,
    strategy: string,
    disableCompression: bool,
    deployID: string,
    sourced: Env)

  // ---------------------------------------------------------------- what is asked of docker and the registry

  function Captured(req: Request): Env { if req.envFile == "" then map[] else req.sourced }

  /** The container a deploy runs. */
  function DeployRun(req: Request): RunRequest {
    RunRequest(ContainerName(req.name), req.name, ImageRef(req.name, req.deployID), NETWORK, Captured(req), RESTART,
               req.port, Mounts.Volumes(req.mounts))
  }

  /** The container a rollback brings back. */
  function RestoreRun(prev: Service): RunRequest {
    RunRequest(ContainerName(prev.config.name), prev.config.name, prev.config.imageRef, NETWORK, prev.secrets.env,
               prev.config.restart, prev.config.port, Mounts.Volumes(prev.config.mounts))
  }

  /** The container `decloud start` runs when there is none. */
  function StartRun(name: string, prev: Service): RunRequest {
    RunRequest(ContainerName(name), name, prev.config.imageRef, "decloud", prev.secrets.env, prev.config.restart,
               prev.config.port, Mounts.Volumes(prev.config.mounts))
  }

  /** What a deploy saves. */
  function ServiceOf(req: Request): Service {
    Service(
      ServiceConfig(SCHEMA_VERSION, req.name, req.sourceDir, req.dockerfile, ImageRef(req.name, req.deployID), NETWORK,
                    req.port, RESTART, req.mounts, req.hosts, req.strategy, req.disableCompression,
                    Readiness.DeploySpec(req.readinessPath, req.readinessMs), req.deployID, ContainerName(req.name)),
      ServiceSecrets(SCHEMA_VERSION, req.name, Captured(req)))
  }

  function Cancelled(inContext: bool, error: Error): Error { if inContext then ErrInterrupted else error }

  // ---------------------------------------------------------------- publishing the Caddyfile

  /** A plain write creates its file with the mode the umask leaves. */
  function StubNode(os: Platform, doc: Doc): Node { File(Masked(M0644, os.umask), doc) }

  /** `os.WriteFile` of the stub: it writes in place, so it can be cut short. */
  function FillingStub(os: Platform, s: Sys): Sys {
    var (f, s1) := Draw(s);
    if EffectOf(f).Nothing? then s1
    else
      var doc := if EffectOf(f).Done? then TextDoc(Caddyfile.STUB) else Torn;
      s1.(w := s1.w.(caddy := s1.w.caddy[LIVE := StubNode(os, doc)]))
  }

  /** `WriteStubIfMissing`; its caller only logs a failure. */
  function WritingStub(os: Platform, s: Sys): Sys {
    var (s1, stat) := Call(s);
    if !stat.Ok? || LIVE in s.w.caddy then s1
    else
      var (s2, made) := Call(s1);
      if !made.Ok? then s2 else FillingStub(os, s2)
  }

  method WriteStubIfMissing(os: Platform, p: Process)
    modifies p
    ensures p.sys == WritingStub(os, old(p.sys))
  {
    var o := p.Do();
    if !o.Ok? || LIVE in p.sys.w.caddy { return; }
    o := p.Do();
    if !o.Ok? { return; }
    p.sys := FillingStub(os, p.sys);
  }

  /** The generator's writer: the directory is made, then the file is written whole. */
  function Staging(os: Platform, s: Sys, text: string): (Sys, bool) {
    var (s1, made) := Call(s);
    if !made.Ok? then (s1, false) else WriteAtomic(os, s1, Caddy, CADDY_TEMP, NEXT, M0644, TextDoc(text), false)
  }

  predicate AcceptedFile(os: Platform, d: Dir, f: string) {
    f in d && d[f].File? && d[f].doc.TextDoc? && os.accepts(d[f].doc.text)
  }

  function Validating(os: Platform, s: Sys): (Sys, bool) {
    var (s1, o) := Call(s);
    (s1, o.Ok? && AcceptedFile(os, s.w.caddy, NEXT))
  }

  function Reloading(os: Platform, s: Sys): (Sys, bool) {
    var (f, s1) := Draw(s);
    if !AcceptedFile(os, s.w.caddy, LIVE) then (s1, false)
    else if EffectOf(f).Done? then (s1.(w := s1.w.(loaded := Some(s.w.caddy[LIVE].doc.text))), f.Fine?)
    else (s1, false)
  }

  /** From the staged file to Caddy's running configuration. */
  function Installing(os: Platform, s: Sys): (Sys, Reply) {
    var (s1, valid) := Validating(os, s);
    if !valid then (Remove(s1, Caddy, NEXT).0, Failure(ErrCaddyReload(ValidatingStep)))
    else
      var (s2, renamed) := Rename(s1, Caddy, NEXT, LIVE);
      if !renamed then (s2, Failure(ErrCaddyReload(Renaming)))
      else
        var (s3, reloaded) := Reloading(os, s2);
        (s3, if reloaded then Success else Failure(ErrCaddyReload(ReloadingStep)))
  }

  /** `regenerateAndReload`. */
  function Publishing(os: Platform, s: Sys): (Sys, Reply) {
    var (s1, services) := Listing(s);
    if services.None? then (s1, Failure(ErrList))
    else
      var (s2, generated) := Staging(os, WritingStub(os, s1), Caddyfile.Render(services.value));
      if !generated then (s2, Failure(ErrCaddyReload(Generating))) else Installing(os, s2)
  }

  method RegenerateAndReload(os: Platform, p: Process) returns (r: Reply)
    modifies p
    ensures (p.sys, r) == Publishing(os, old(p.sys))
  {
    hide WriteAtomic, Listing, WritingStub, Call, Rename, Remove, Reloading, Validating, Caddyfile.Render;
    ghost var w := p.sys.w;
    var services := List(p);
    if services.None? { return Failure(ErrList); }
    WriteStubIfMissing(os, p);
    ListedNamesDiffer(old(p.sys));
    var text := Caddyfile.Generate(services.value);
    var made := p.Do();
    if !made.Ok? { return Failure(ErrCaddyReload(Generating)); }
    var generated := p.WriteWhole(os, Caddy, CADDY_TEMP, NEXT, M0644, TextDoc(text), false);
    if !generated { return Failure(ErrCaddyReload(Generating)); }
    var v := Validating(os, p.sys);
    p.sys := v.0;
    if !v.1 {
      var _ := p.Unlink(Caddy, NEXT);
      return Failure(ErrCaddyReload(ValidatingStep));
    }
    var renamed := p.Move(Caddy, NEXT, LIVE);
    if !renamed { return Failure(ErrCaddyReload(Renaming)); }
    v := Reloading(os, p.sys);
    p.sys := v.0;
    if !v.1 { return Failure(ErrCaddyReload(ReloadingStep)); }
    return Success;
  }

  lemma {:induction false} ScanNames(s: Sys, names: seq<string>)
    requires NoRepeats(names)
    ensures Caddyfile.DistinctNames(Scan(s, names).1)
    ensures forall svc :: svc in Scan(s, names).1 ==> svc.config.name in names
    decreases |names|
  {
    hide Loading;
    if names != [] {
      var (s1, l) := Loading(s, names[0]);
      var rest := Scan(s1, names[1..]).1;
      ScanNames(s1, names[1..]);
      if l.Loaded? {
        LoadedName(s, names[0]);
        assert forall svc :: svc in rest ==> svc.config.name in names[1..];
      }
    }
  }

  lemma LoadedName(s: Sys, name: string)
    requires Loading(s, name).1.Loaded?
    ensures Loading(s, name).1.service.config.name == name
  {
  }

  lemma ListedNamesDiffer(s: Sys)
    requires Listing(s).1.Some?
    ensures Caddyfile.DistinctNames(Listing(s).1.value)
  {
    ScanNames(Call(s).0, Names(s.w.services));
  }

  // ---------------------------------------------------------------- the deploy, going forward

  datatype Prepared = Go(prev: Option<Service>) | Halt(error: Error)

  function Preparing(s: Sys, req: Request): (Sys, Prepared) {
    var (s1, network) := Call(s);
    if !network.Ok? then (s1, Halt(ErrRun))
    else
      var (s2, capture) := if req.envFile == "" then (s1, Ok) else Call(s1);
      if !capture.Ok? then (s2, Halt(ErrEnvCapture))
      else
        var (s3, l) := Loading(s2, req.name);
        if l.NotLoaded? && l.error != NotRegistered && l.error != SecretsMissing then (s3, Halt(ErrLoad(l.error)))
        else
          var (s4, build) := Call(s3);
          if !build.Ok? then (s4, Halt(ErrBuild))
          else (s4, Go(if l.Loaded? then Some(l.service) else None))
  }

  function Removing(s: Sys, name: string): (Sys, Option<Error>) {
    var (s1, o) := DockerRemove(s, ContainerName(name));
    (s1, if o.Failed? then Some(Cancelled(o.inContext, ErrRun)) else None)
  }

  /** Clearing the container of a known service. */
  function ClearingOld(s: Sys, name: string): (Sys, Option<Error>) {
    var (s1, o) := DockerStop(s, ContainerName(name));
    if o.Failed? then
      var (s2, i) := Inspect(s1, ContainerName(name));
      if i.Present? && i.status == Running then (s2, Some(Cancelled(o.inContext, ErrRun)))
      else Removing(s2, name)
    else Removing(s1, name)
  }

  /** Clearing a container nobody registered: only one that carries the service's label. */
  function ClearingOrphan(s: Sys, name: string): (Sys, Option<Error>) {
    var (s1, i) := Inspect(s, ContainerName(name));
    match i
    case Unknown(c) => (s1, Some(Cancelled(c, ErrRun)))
    case Absent => (s1, None)
    case Present(_, owner) =>
      if owner != name then (s1, Some(ErrRun))
      else
        var (s2, o) := DockerStop(s1, ContainerName(name));
        if o.Failed? then (s2, Some(Cancelled(o.inContext, ErrRun))) else Removing(s2, name)
  }

  datatype Stage = AtRun | AtReadiness | AtSave(partial: bool)

  /** How far the forward path got: everything but the Caddyfile is in place; or it stopped
      with nothing of its own to undo; or it broke after the old container was cleared. */
  datatype Attempt = Up(s: Sys) | Refused(s: Sys, error: Error)
                   | Broken(s: Sys, at: Stage, prev: Option<Service>, error: Error)

  function Launching(os: Platform, s: Sys, req: Request, prev: Option<Service>): Attempt {
    var (s1, o) := DockerRun(s, DeployRun(req));
    if !o.Ok? then Broken(s1, AtRun, prev, Cancelled(o.Failed? && o.inContext, ErrRun))
    else
      var (s2, probe) := Call(s1);
      if !probe.Ok? then Broken(s2, AtReadiness, prev, Cancelled(probe.Failed? && probe.inContext, ErrReadiness))
      else
        var (s3, r) := Saving(os, s2, ServiceOf(req));
        if r != Saved then Broken(s3, AtSave(r.PartialWrite?), prev, ErrSave) else Up(s3)
  }

  function Clearing(s: Sys, name: string, prev: Option<Service>): (Sys, Option<Error>) {
    if prev.Some? then ClearingOld(s, name) else ClearingOrphan(s, name)
  }

  function Attempting(os: Platform, s: Sys, req: Request): Attempt {
    var (s1, p) := Preparing(s, req);
    if p.Halt? then Refused(s1, p.error)
    else
      var (s2, e) := Clearing(s1, req.name, p.prev);
      if e.Some? then Refused(s2, e.value) else Launching(os, s2, req, p.prev)
  }

  // ---------------------------------------------------------------- the deploy, going back

  function Compensating(s: Sys, at: Stage, prev: Option<Service>, name: string): Sys {
    var s1 := if at == AtSave(true) then Remove(s, Services, ConfigFile(name)).0 else s;
    var s2 := if at == AtRun then s1
              else DockerRemove(DockerStop(s1, ContainerName(name)).0, ContainerName(name)).0;
    if prev.None? then s2 else DockerRun(s2, RestoreRun(prev.value)).0
  }

  function Deploying(os: Platform, s: Sys, req: Request): (Sys, Reply) {
    match Attempting(os, s, req)
    case Up(s1) => Publishing(os, s1)
    case Refused(s1, error) => (s1, Failure(error))
    case Broken(s1, at, prev, error) => (Compensating(s1, at, prev, req.name), Failure(error))
  }

  method RestoreOldContainer(p: Process, prev: Service)
    modifies p
    ensures p.sys == DockerRun(old(p.sys), RestoreRun(prev)).0
  {
    var volumes := Mounts.ToVolumeMounts(prev.config.mounts);
    var _ := p.Run(RunRequest(ContainerName(prev.config.name), prev.config.name, prev.config.imageRef, NETWORK,
                              prev.secrets.env, prev.config.restart, prev.config.port, volumes));
  }

  method DeployFrom(os: Platform, p: Process, req: Request, prev: Option<Service>) returns (r: Reply)
    modifies p
    ensures (p.sys, r) ==
      match Launching(os, old(p.sys), req, prev)
      case Up(s1) => Publishing(os, s1)
      case Refused(s1, error) => (s1, Failure(error))
      case Broken(s1, at, prev', error) => (Compensating(s1, at, prev', req.name), Failure(error))
  {
    hide DockerRun, DockerStop, DockerRemove, Call, Saving, Publishing, Remove;
    var container := ContainerName(req.name);
    var volumes := Mounts.ToVolumeMounts(req.mounts);
    var image := ImageRef(req.name, req.deployID);
    var env := if req.envFile == "" then map[] else req.sourced;
    var o := p.Run(RunRequest(container, req.name, image, NETWORK, env, RESTART, req.port, volumes));
    if !o.Ok? {
      if prev.Some? { RestoreOldContainer(p, prev.value); }
      return Failure(Cancelled(o.Failed? && o.inContext, ErrRun));
    }
    var spec := Readiness.DeploySpec(req.readinessPath, req.readinessMs);
    o := p.Do();
    if !o.Ok? {
      var _ := p.Stop(container);
      var _ := p.Rm(container);
      if prev.Some? { RestoreOldContainer(p, prev.value); }
      return Failure(Cancelled(o.Failed? && o.inContext, ErrReadiness));
    }
    var svc := Service(
      ServiceConfig(SCHEMA_VERSION, req.name, req.sourceDir, req.dockerfile, image, NETWORK, req.port, RESTART,
                    req.mounts, req.hosts, req.strategy, req.disableCompression, spec, req.deployID, container),
      ServiceSecrets(SCHEMA_VERSION, req.name, env));
    var saved := Save(os, p, svc);
    if saved != Saved {
      if saved.PartialWrite? {
        var _ := p.Unlink(Services, ConfigFile(req.name));
      }
      var _ := p.Stop(container);
      var _ := p.Rm(container);
      if prev.Some? { RestoreOldContainer(p, prev.value); }
      return Failure(ErrSave);
    }
    r := RegenerateAndReload(os, p);
  }

  method ClearOld(p: Process, name: string) returns (e: Option<Error>)
    modifies p
    ensures (p.sys, e) == ClearingOld(old(p.sys), name)
  {
    hide DockerStop, DockerRemove, Host.Inspect;
    var o := p.Stop(ContainerName(name));
    if o.Failed? {
      var i := p.Look(ContainerName(name));
      if i.Present? && i.status == Running { return Some(Cancelled(o.inContext, ErrRun)); }
    }
    o := p.Rm(ContainerName(name));
    if o.Failed? { return Some(Cancelled(o.inContext, ErrRun)); }
    return None;
  }

  method ClearOrphan(p: Process, name: string) returns (e: Option<Error>)
    modifies p
    ensures (p.sys, e) == ClearingOrphan(old(p.sys), name)
  {
    hide DockerStop, DockerRemove, Host.Inspect;
    var i := p.Look(ContainerName(name));
    if i.Unknown? { return Some(Cancelled(i.inContext, ErrRun)); }
    if i.Present? {
      if i.owner != name { return Some(ErrRun); }
      var o := p.Stop(ContainerName(name));
      if o.Failed? { return Some(Cancelled(o.inContext, ErrRun)); }
      o := p.Rm(ContainerName(name));
      if o.Failed? { return Some(Cancelled(o.inContext, ErrRun)); }
    }
    return None;
  }

  /** `Deploy`, statement by statement. */
  method Deploy(os: Platform, p: Process, req: Request) returns (r: Reply)
    modifies p
    ensures (p.sys, r) == Deploying(os, old(p.sys), req)
  {
    hide Call, Loading, ClearingOld, ClearingOrphan, Launching, Compensating, Publishing;
    var o := p.Do();
    if !o.Ok? { return Failure(ErrRun); }
    if req.envFile != "" {
      o := p.Do();
      if !o.Ok? { return Failure(ErrEnvCapture); }
    }
    var l := Loading(p.sys, req.name);
    p.sys := l.0;
    if l.1.NotLoaded? && l.1.error != NotRegistered && l.1.error != SecretsMissing {
      return Failure(ErrLoad(l.1.error));
    }
    var prev := if l.1.Loaded? then Some(l.1.service) else None;
    o := p.Do();
    if !o.Ok? { return Failure(ErrBuild); }
    var e: Option<Error>;
    if prev.Some? {
      e := ClearOld(p, req.name);
    } else {
      e := ClearOrphan(p, req.name);
    }
    if e.Some? { return Failure(e.value); }
    r := DeployFrom(os, p, req, prev);
  }

  // ---------------------------------------------------------------- the lifecycle commands

  function Unregistering(os: Platform, s: Sys, name: string): (Sys, Reply) {
    var (s1, l) := Loading(s, name);
    if l.NotLoaded? && l.error != SecretsMissing then (s1, Failure(ErrLoad(l.error)))
    else
      var s2 := DockerRemove(DockerStop(s1, ContainerName(name)).0, ContainerName(name)).0;
      var (s3, deleted) := Deleting(s2, name);
      if !deleted then (s3, Failure(ErrDelete)) else Publishing(os, s3)
  }

  method Unregister(os: Platform, p: Process, name: string) returns (r: Reply)
    modifies p
    ensures (p.sys, r) == Unregistering(os, old(p.sys), name)
  {
    hide DockerStop, DockerRemove, Deleting, Publishing, Loading;
    var l := Loading(p.sys, name);
    p.sys := l.0;
    if l.1.NotLoaded? && l.1.error != SecretsMissing { return Failure(ErrLoad(l.1.error)); }
    var _ := p.Stop(ContainerName(name));
    var _ := p.Rm(ContainerName(name));
    var deleted := Delete(p, name);
    if !deleted { return Failure(ErrDelete); }
    r := RegenerateAndReload(os, p);
  }

  function Stopping(s: Sys, name: string): (Sys, Reply) {
    var (s1, o) := DockerStop(s, ContainerName(name));
    (s1, match o case Ok => Success case NotFound => Failure(ErrNotFound) case Failed(_) => Failure(ErrRun))
  }

  /** Success means the container is there and no longer runs, not-found that there is none;
      the process meets any fault on the way. */
  method StopService(p: Process, name: string) returns (r: Reply)
    modifies p
    ensures (p.sys, r) == Stopping(old(p.sys), name)
    ensures OnlyContainer(old(p.sys).w, p.sys.w, ContainerName(name))
    ensures r.Success? ==> ContainerName(name) in p.sys.w.containers && Removable(p.sys.w.containers[ContainerName(name)])
    ensures r == Failure(ErrNotFound) ==> ContainerName(name) !in p.sys.w.containers && p.sys.w == old(p.sys).w
  {
    var o := p.Stop(ContainerName(name));
    if o.NotFound? { return Failure(ErrNotFound); }
    if o.Failed? { return Failure(ErrRun); }
    return Success;
  }

  function Starting(s: Sys, name: string): (Sys, Reply) {
    var (s1, l) := Loading(s, name);
    if l.NotLoaded? then (s1, Failure(ErrLoad(l.error)))
    else
      var (s2, i) := Inspect(s1, ContainerName(name));
      if i.Unknown? then (s2, Failure(ErrRun))
      else if i.Present? && i.status == Running then (s2, Success)
      else
        var (s3, o) := if i.Present? && i.status == Exited then DockerStart(s2, ContainerName(name))
                       else DockerRun(s2, StartRun(name, l.service));
        (s3, if o.Ok? then Success else Failure(ErrRun))
  }

  method StartService(p: Process, name: string) returns (r: Reply)
    modifies p
    ensures (p.sys, r) == Starting(old(p.sys), name)
  {
    hide Loading, DockerRun, DockerStart, Host.Inspect;
    var l := Loading(p.sys, name);
    p.sys := l.0;
    if l.1.NotLoaded? { return Failure(ErrLoad(l.1.error)); }
    var prev := l.1.service;
    var i := p.Look(ContainerName(name));
    if i.Unknown? { return Failure(ErrRun); }
    if i.Present? && i.status == Running { return Success; }
    var o: Outcome;
    if i.Present? && i.status == Exited {
      o := p.Start(ContainerName(name));
    } else {
      var volumes := Mounts.ToVolumeMounts(prev.config.mounts);
      o := p.Run(RunRequest(ContainerName(name), name, prev.config.imageRef, "decloud", prev.secrets.env,
                            prev.config.restart, prev.config.port, volumes));
    }
    if !o.Ok? { return Failure(ErrRun); }
    return Success;
  }

  function Restarting(s: Sys, name: string): (Sys, Reply) {
    var (s1, r) := Stopping(s, name);
    if r.Failure? && r.error != ErrNotFound then (s1, r) else Starting(s1, name)
  }

  method RestartService(p: Process, name: string) returns (r: Reply)
    modifies p
    ensures (p.sys, r) == Restarting(old(p.sys), name)
  {
    r := StopService(p, name);
    if r.Failure? && r.error != ErrNotFound { return; }
    r := StartService(p, name);
  }

  datatype State = IsRunning | IsStopped | IsAbsent | IsOther | ConfigOnly | InError

  datatype Row = Row(name: string, state: State, deployID: string)

  datatype StatusReply = Reported(row: Row) | Unreported(error: Error)

  function StateOf(i: Inspection): State
    requires !i.Unknown?
  {
    match i
    case Absent => IsAbsent
    case Present(Running, _) => IsRunning
    case Present(Exited, _) => IsStopped
    case Present(_, _) => IsOther
  }

  function Statusing(s: Sys, name: string): (Sys, StatusReply) {
    var (s1, l) := Loading(s, name);
    if l.NotLoaded? then
      (s1, if l.error == SecretsMissing then Reported(Row(name, ConfigOnly, "")) else Unreported(ErrLoad(l.error)))
    else
      var (s2, i) := Inspect(s1, ContainerName(name));
      (s2, if i.Unknown? then Unreported(ErrRun)
           else Reported(Row(l.service.config.name, StateOf(i), l.service.config.lastDeployID)))
  }

  /** The rows StatusAll adds for one name: none if it vanished, an error row if anything else
      went wrong. */
  function RowsFor(name: string, st: StatusReply): seq<Row> {
    match st
    case Reported(row) => [row]
    case Unreported(e) => if e == ErrLoad(NotRegistered) then [] else [Row(name, InError, "")]
  }

  lemma RowsForCases(name: string, st: StatusReply)
    ensures st.Reported? ==> RowsFor(name, st) == [st.row]
    ensures st.Unreported? ==> RowsFor(name, st) == if st.error == ErrLoad(NotRegistered) then [] else [Row(name, InError, "")]
  {
  }

  function StatusingEach(s: Sys, names: seq<string>): (Sys, seq<Row>)
    decreases |names|
  {
    if names == [] then (s, [])
    else
      var (s1, st) := Statusing(s, names[0]);
      var (s2, rest) := StatusingEach(s1, names[1..]);
      (s2, RowsFor(names[0], st) + rest)
  }

  function StatusingAll(s: Sys): (Sys, Option<seq<Row>>) {
    var (s1, read) := Call(s);
    if !read.Ok? then (s1, None)
    else
      var (s2, rows) := StatusingEach(s1, Names(s.w.services));
      (s2, Some(rows))
  }

  method StatusAll(p: Process) returns (r: Option<seq<Row>>)
    modifies p
    ensures (p.sys, r) == StatusingAll(old(p.sys))
  {
    hide Statusing, Call, Names, RowsFor;
    var names := ListNames(p);
    if names.None? { return None; }
    var out: seq<Row> := [];
    ghost var s1 := p.sys;
    assert names.value[0..] == names.value;
    for i := 0 to |names.value|
      invariant StatusingEach(s1, names.value).0 == StatusingEach(p.sys, names.value[i..]).0
      invariant StatusingEach(s1, names.value).1 == out + StatusingEach(p.sys, names.value[i..]).1
    {
      var name := names.value[i];
      assert names.value[i..][0] == name && names.value[i..][1..] == names.value[i + 1..];
      var st := Statusing(p.sys, name);
      ghost var rest := StatusingEach(st.0, names.value[i + 1..]).1;
      assert StatusingEach(p.sys, names.value[i..]).1 == RowsFor(name, st.1) + rest;
      assert out + (RowsFor(name, st.1) + rest) == out + RowsFor(name, st.1) + rest;
      RowsForCases(name, st.1);
      p.sys := st.0;
      if st.1.Unreported? {
        if st.1.error == ErrLoad(NotRegistered) { continue; }
        out := out + [Row(name, InError, "")];
        continue;
      }
      out := out + [st.1.row];
    }
    assert names.value[|names.value|..] == [];
    assert out + [] == out;
    return Some(out);
  }
}
