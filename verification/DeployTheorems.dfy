/** Where a deploy ends: rollback after a failure, refusal of foreign containers, convergence
    when nothing fails, and agreement of the stores on success. */
module DeployTheorems {
  import opened Text
  import opened Types
  import opened Host
  import opened Registry
  import opened RegistryLaws
  import opened Orchestrator
  import opened DeployLaws
  import Mounts
  import Caddyfile
  import Readiness

  // ---------------------------------------------------------------- one container, three builders

  /** The container under name is running and is what the registry now says it should be. */
  predicate InStep(w: World, name: string) {
    && Load(w, name).Loaded?
    && At(w.containers, ContainerName(name)) == Some(FromRequest(StartRun(name, Load(w, name).service), Running))
  }

  /** Once saved, a service is described alike to docker by `start`, by a rollback and by the
      deploy that created it, in every field of the request. */
  lemma ThreeBuildersOneContainer(os: Platform, s: Sys, req: Request)
    requires CliRequest(req)
    ensures var (s', r) := Saving(os, s, ServiceOf(req));
      var l := Load(s'.w, req.name);
      r == Saved ==>
        l.Loaded? && StartRun(req.name, l.service) == DeployRun(req) && RestoreRun(l.service) == DeployRun(req)
  {
    hide Saving, Load, CliRequest;
    CliServiceValid(req);
    SavedLoads(os, s, ServiceOf(req));
  }

  /** docker's `-v` values for a list of mounts. */
  predicate VolumesOf(volumes: seq<string>, ms: seq<Mount>) {
    && |volumes| == |ms|
    && forall i :: 0 <= i < |ms| ==>
        volumes[i] == ms[i].hostPath + ":" + ms[i].containerPath + (if ms[i].readOnly then ":ro" else "")
  }

  /** The container is what this registration describes, apart from whether it runs. */
  predicate AsRegistered(c: Container, svc: Service) {
    && c.owner == svc.config.name
    && c.image == svc.config.imageRef
    && c.network == "decloud"
    && c.restart == svc.config.restart
    && c.tag == "decloud/" + svc.config.name
    && c.env == svc.secrets.env
    && VolumesOf(c.volumes, svc.config.mounts)
  }

  /** `start` and a rollback run exactly the registered container. */
  lemma BuildersAsRegistered(svc: Service, status: Status, c: Container)
    ensures c == FromRequest(RestoreRun(svc), status) <==> c.status == status && AsRegistered(c, svc)
    ensures c == FromRequest(StartRun(svc.config.name, svc), status) <==> c.status == status && AsRegistered(c, svc)
    ensures RestoreRun(svc).name == "decloud-" + svc.config.name == StartRun(svc.config.name, svc).name
    ensures RestoreRun(svc).port == svc.config.port == StartRun(svc.config.name, svc).port
  {
    var volumes := Mounts.Formatted(Mounts.Volumes(svc.config.mounts));
    assert VolumesOf(volumes, svc.config.mounts);
    if VolumesOf(c.volumes, svc.config.mounts) { assert c.volumes == volumes; }
  }

  /** In step: the container under the service's name runs and is, in every field, what the
      loaded registration describes. */
  lemma InStepExactly(w: World, name: string)
    ensures InStep(w, name) <==>
      && Load(w, name).Loaded?
      && "decloud-" + name in w.containers
      && w.containers["decloud-" + name].status == Running
      && AsRegistered(w.containers["decloud-" + name], Load(w, name).service)
  {
    hide Load, FromRequest, StartRun, AsRegistered;
    LoadedIsNamed(w, name);
    if Load(w, name).Loaded? && ContainerName(name) in w.containers {
      BuildersAsRegistered(Load(w, name).service, Running, w.containers[ContainerName(name)]);
    }
  }

  // ---------------------------------------------------------------- foreign containers

  /** Nobody else's container stands under the service's name. */
  predicate Owned(w: World, name: string) {
    ContainerName(name) in w.containers ==> w.containers[ContainerName(name)].owner == name
  }

  /** The way into a deploy is open. */
  predicate Gate(w: World, name: string) { Load(w, name).Loaded? || Owned(w, name) }

  /** A deploy of a name that does not load, met by a container with another owner, changes
      nothing at all, whatever fails. */
  lemma ForeignContainerSafe(os: Platform, s: Sys, req: Request)
    requires !Gate(s.w, req.name)
    ensures Deploying(os, s, req).0.w == s.w && Deploying(os, s, req).1.Failure?
    ensures s.script == Calm && s.alive && !Corrupt(s.w, req.name) ==> Deploying(os, s, req).1 == Failure(ErrRun)
  {
    hide Preparing, Load;
    PreparingReads(s, req);
    var (s1, p) := Preparing(s, req);
    LoadAdmits(s.w, req.name);
    if p.Go? {
      assert ClearingOrphan(s1, req.name).1.Some? && ClearingOrphan(s1, req.name).0.w == s.w;
    }
    if s.script == Calm && s.alive && !Corrupt(s.w, req.name) { PreparesWithoutFaults(s, req); }
  }

  /** The answers of Load that let a deploy go on are those about files that are not corrupt. */
  lemma LoadAdmits(w: World, name: string)
    ensures !Corrupt(w, name) <==>
      Load(w, name).Loaded? || Load(w, name) == NotLoaded(NotRegistered) || Load(w, name) == NotLoaded(SecretsMissing)
  {
    hide Load, GoodConfig, WholeSecrets, LacksSecrets;
    LoadExactly(w, name);
  }

  /** A deploy onto corrupt files changes nothing, whatever fails; undisturbed it returns the error
      of its Load. */
  lemma CorruptRefused(os: Platform, s: Sys, req: Request)
    requires Corrupt(s.w, req.name)
    ensures Deploying(os, s, req).0.w == s.w && Deploying(os, s, req).1.Failure?
    ensures s.script == Calm && s.alive ==>
      Load(s.w, req.name).NotLoaded? && Deploying(os, s, req).1 == Failure(ErrLoad(Load(s.w, req.name).error))
  {
    hide Load, Corrupt, Launching, Clearing, Compensating, Publishing;
    LoadAdmits(s.w, req.name);
    PreparingReads(s, req);
    var (s1, p) := Preparing(s, req);
    assert p.Halt?;
    assert Attempting(os, s, req) == Refused(s1, p.error);
  }

  // ---------------------------------------------------------------- going forward without faults

  lemma ClearsWithoutFaults(s: Sys, name: string, prev: Option<Service>)
    requires s.script == Calm && s.alive
    requires prev.Some? || Owned(s.w, name)
    ensures var (s', e) := Clearing(s, name, prev);
      e.None? && s'.alive && s'.script == Calm && s'.w == s.w.(containers := s.w.containers - {ContainerName(name)})
  {
  }

  lemma PreparesWithoutFaults(s: Sys, req: Request)
    requires s.script == Calm && s.alive
    requires Load(s.w, req.name).Loaded? || Load(s.w, req.name).error == NotRegistered || Load(s.w, req.name).error == SecretsMissing
    ensures var (s', p) := Preparing(s, req);
      s' == s && p == Go(match Load(s.w, req.name) case Loaded(svc) => Some(svc) case NotLoaded(_) => None)
  {
  }

  /** The gate decides: open, the undisturbed forward path ends with the requested container
      running, registered and in step with its registration. */
  lemma ForwardSucceeds(os: Platform, s: Sys, req: Request)
    requires s.script == Calm && s.alive
    requires Sound(s.w) && CliRequest(req) && Gate(s.w, req.name)
    ensures var a := Attempting(os, s, req);
      && a.Up? && a.s.alive && a.s.script == Calm
      && a.s.w.containers == s.w.containers[ContainerName(req.name) := FromRequest(DeployRun(req), Running)]
      && Load(a.s.w, req.name) == Loaded(ServiceOf(req))
      && InStep(a.s.w, req.name)
      && a.s.w.caddy == s.w.caddy && a.s.w.loaded == s.w.loaded
  {
    hide Preparing, Clearing, Saving, Load, CliRequest, ValidService, Readable, ContainerName, Mounts.Formatted, Mounts.Volumes;
    var n := req.name;
    assert SoundName(s.w, n);
    SoundLoads(s.w, n);
    PreparesWithoutFaults(s, req);
    var (s1, p) := Preparing(s, req);
    ClearsWithoutFaults(s1, n, p.prev);
    var (s2, e) := Clearing(s1, n, p.prev);
    NameRuns(req);
    assert ContainerName(n) !in s2.w.containers;
    var (s3, o) := DockerRun(s2, DeployRun(req));
    assert o.Ok? && s3.script == Calm;
    assert s3.w.containers == s.w.containers[ContainerName(n) := FromRequest(DeployRun(req), Running)];
    var s4 := Call(s3).0;
    SaveSucceeds(os, s4, ServiceOf(req));
    SaveCrashSafe(os, s4, ServiceOf(req));
    CliServiceValid(req);
    SavedLoads(os, s4, ServiceOf(req));
    assert StartRun(n, ServiceOf(req)) == DeployRun(req);
  }

  lemma NameRuns(req: Request)
    requires CliRequest(req)
    ensures req.name != "" && '/' !in req.name
  {
  }

  /** The Caddy directory as decloud leaves it. */
  predicate CaddySound(os: Platform, w: World) {
    && At(w.caddy, NEXT) != Some(Folder)
    && (LiveAt(w) == None || StubLive(os, w)
        || (LiveAt(w).value.File? && LiveAt(w).value.mode == M0644 && LiveAt(w).value.doc.TextDoc?
            && os.accepts(LiveAt(w).value.doc.text)))
  }

  lemma PublishSucceedsExactly(os: Platform, s: Sys)
    requires s.script == Calm && s.alive && CaddySound(os, s.w)
    ensures var (s', r) := Publishing(os, s);
      var text := Caddyfile.Render(Loadable(s.w));
      (r.Success? <==> os.accepts(text)) && (r.Success? ==> Agrees(s'.w, text))
  {
    hide Staging, WritingStub, Installing, Loadable, Caddyfile.Render, Listing;
    ListingReads(s);
    PublishedSafely(os, s);
    PublishesWhat(os, s, Loadable(s.w));
  }

  /** An undisturbed publication, byte for byte: with a file Caddy accepts, it is live, readable by
      all, and loaded; with any other, validation's error is returned and nothing is changed, but
      for the stub where there was no file. No staged file is left. */
  lemma PublishesExactly(os: Platform, s: Sys)
    requires s.script == Calm && s.alive && CaddySound(os, s.w)
    ensures var (s', r) := Publishing(os, s);
      var text := Caddyfile.Render(Loadable(s.w));
      var live := At(s'.w.caddy, "Caddyfile");
      && "Caddyfile.tmp" !in s'.w.caddy
      && (os.accepts(text) ==>
          r == Success && live == Some(File(Octal(6, 4, 4), TextDoc(text))) && s'.w.loaded == Some(text))
      && (!os.accepts(text) ==>
          && r == Failure(ErrCaddyReload(ValidatingStep))
          && s'.w.loaded == s.w.loaded
          && live == if "Caddyfile" in s.w.caddy then At(s.w.caddy, "Caddyfile")
                     else Some(File(Masked(Octal(6, 4, 4), os.umask), TextDoc(
                       "# decloud Caddyfile stub — no services registered yet.\n:80 {\n    respond \"no services registered yet\" 404\n}\n"))))
  {
    hide Staging, WritingStub, Installing, Loadable, Caddyfile.Render, Listing;
    ListingReads(s);
    PublishedSafely(os, s);
    var text := Caddyfile.Render(Loadable(s.w));
    NoFolders(os, s.w);
    StagedSafely(os, s, text);
    InstalledSafely(os, Staging(os, WritingStub(os, s), text).0, text);
  }

  /** After an undisturbed rest of a publication that listed these services. */
  lemma PublishesWhat(os: Platform, s: Sys, services: seq<Service>)
    requires Listing(s).0.script == Calm && Listing(s).0.alive && Listing(s).1 == Some(services) && CaddySound(os, s.w)
    ensures Publishing(os, s).1.Success? <==> os.accepts(Caddyfile.Render(services))
  {
    hide Staging, WritingStub, Installing, Caddyfile.Render, Listing;
    ListingReads(s);
    var s1 := Listing(s).0;
    var text := Caddyfile.Render(services);
    NoFolders(os, s1.w);
    StagedSafely(os, s1, text);
    InstalledSafely(os, Staging(os, WritingStub(os, s1), text).0, text);
  }

  /** One undisturbed deploy from any sound state. With the gate open the service ends running
      and in step with what Load returns, whatever Caddy says; the command succeeds exactly when
      moreover Caddy accepts the new file, and then the live file and the running configuration
      are the rendering of everything that loads. With the gate shut nothing changes. */
  lemma Converges(os: Platform, s: Sys, req: Request)
    requires s.script == Calm && s.alive
    requires Sound(s.w) && CaddySound(os, s.w) && CliRequest(req)
    ensures var (s', r) := Deploying(os, s, req);
      var text := Caddyfile.Render(Loadable(s'.w));
      && (Gate(s.w, req.name) ==> InStep(s'.w, req.name) && Load(s'.w, req.name) == Loaded(ServiceOf(req)))
      && (r.Success? <==> Gate(s.w, req.name) && os.accepts(text))
      && (r.Success? ==> Agrees(s'.w, text))
      && (!Gate(s.w, req.name) ==> s'.w == s.w && r == Failure(ErrRun))
      && (r.Failure? && Gate(s.w, req.name) ==> r == Failure(ErrCaddyReload(ValidatingStep)))
  {
    hide Attempting, Publishing, Sound, CaddySound, CliRequest, Gate, Corrupt, InStep, Load, LoadEach, Caddyfile.Render;
    if Gate(s.w, req.name) {
      ForwardSucceeds(os, s, req);
      var s1 := Attempting(os, s, req).s;
      SameCaddy(os, s.w, s1.w);
      PublishSucceedsExactly(os, s1);
      PublishesExactly(os, s1);
      PublishKeepsRegistry(os, s1);
      CaddyIrrelevant(s1.w, Publishing(os, s1).0.w, req.name);
    } else {
      ForeignContainerSafe(os, s, req);
      SoundNotCorrupt(s.w, req.name);
    }
  }

  lemma SoundNotCorrupt(w: World, name: string)
    requires Sound(w)
    ensures !Corrupt(w, name)
  {
    hide Load;
    assert SoundName(w, name);
    SoundLoads(w, name);
    LoadAdmits(w, name);
  }

  lemma SameCaddy(os: Platform, w: World, w': World)
    requires w'.caddy == w.caddy && CaddySound(os, w)
    ensures CaddySound(os, w')
  {
  }

  /** Neither the registry nor the containers show what Caddy's side holds. */
  lemma CaddyIrrelevant(w: World, w': World, name: string)
    requires w' == w.(caddy := w'.caddy, loaded := w'.loaded)
    ensures Load(w', name) == Load(w, name)
    ensures InStep(w', name) == InStep(w, name)
    ensures Loadable(w') == Loadable(w)
  {
    hide Load, Names, LoadEach, ContainerName, FromRequest;
    SameFilesSameLoad(w, w', name);
    SameLoads(w, w', Names(w.services));
  }

  lemma {:induction false} SameLoads(w: World, w': World, names: seq<string>)
    requires w'.services == w.services && w'.secrets == w.secrets
    ensures LoadEach(w', names) == LoadEach(w, names)
  {
    if names != [] { SameLoads(w, w', names[1..]); }
  }

  // ---------------------------------------------------------------- rollback

  /** What a failed Run can leave: the requested container, never started or running. */
  predicate LeftByRun(c: Container, req: Request) {
    c == FromRequest(DeployRun(req), Created) || c == FromRequest(DeployRun(req), Running)
  }

  /** What stands under the name when the forward path breaks. */
  predicate LeftAtBreak(at: Stage, left: Option<Container>, req: Request) {
    if at.AtRun? then left.Some? ==> LeftByRun(left.value, req)
    else left == Some(FromRequest(DeployRun(req), Running))
  }

  /** How far each cleanup call of a rollback gets, in the order they are made: removing the
      config after a partial write, stop, rm, and running the previous container. */
  datatype Cleanup = Cleanup(unlink: bool, stop: bool, rm: bool, run: Effect)

  function CleanupOf(s: Sys, at: Stage, name: string): Cleanup {
    var c := ContainerName(name);
    var s1 := if at == AtSave(true) then Remove(s, Services, ConfigFile(name)).0 else s;
    var s2 := DockerStop(s1, c).0;
    var s3 := if at == AtRun then s1 else DockerRemove(s2, c).0;
    Cleanup(Effective(Draw(s).0), EffectOf(Draw(s1).0).Done?, EffectOf(Draw(s2).0).Done?, EffectOf(Draw(s3).0))
  }

  /** The cleanup frees the name: nothing stands there, or what does is stopped and removed. A
      failed Run's container is never removed. */
  predicate Frees(at: Stage, e: Cleanup, left: Option<Container>) {
    if at.AtRun? then left.None? else e.stop && e.rm
  }

  /** What a run request leaves under a free name. */
  function RunLeaves(req: RunRequest, e: Effect): Option<Container> {
    match e
    case Nothing => None
    case Half => Some(FromRequest(req, Created))
    case Done => Some(FromRequest(req, Running))
  }

  /** What a rollback leaves under the name. */
  function Survivor(at: Stage, e: Cleanup, left: Option<Container>, prev: Option<Service>): Option<Container> {
    if Frees(at, e, left) then (if prev.Some? then RunLeaves(RestoreRun(prev.value), e.run) else None)
    else if left.Some? && !at.AtRun? && e.stop then Some(Stopped(left.value))
    else left
  }

  function Undisturbed(): Cleanup { Cleanup(true, true, true, Done) }

  /** Where a launch can break and what it leaves. */
  lemma LaunchingBreaks(os: Platform, s: Sys, req: Request, prev: Option<Service>)
    requires ContainerName(req.name) !in s.w.containers
    ensures var a := Launching(os, s, req, prev);
      a.Broken? ==>
        && OnlyContainer(s.w, a.s.w.(services := s.w.services, secrets := s.w.secrets), ContainerName(req.name))
        && LeftAtBreak(a.at, At(a.s.w.containers, ContainerName(req.name)), req)
        && (!a.at.AtSave? ==> a.s.w.services == s.w.services && a.s.w.secrets == s.w.secrets)
        && (a.s.alive ==> SavedSoFar(os, s.w, a.s.w, a.at, req))
  {
    hide Saving, ContainerName, FromRequest, SavedSoFar;
    var s1 := DockerRun(s, DeployRun(req)).0;
    var s2 := Call(s1).0;
    NothingSaved(os, s.w, s1.w, AtRun, req);
    NothingSaved(os, s.w, s2.w, AtReadiness, req);
    SaveBreaks(os, s2, req);
    var (s3, r) := Saving(os, s2, ServiceOf(req));
    if r != Saved && s3.alive { SavedFrom(os, s.w, s2.w, s3.w, AtSave(r.PartialWrite?), req); }
  }

  lemma NothingSaved(os: Platform, w: World, w': World, at: Stage, req: Request)
    requires w'.services == w.services && w'.secrets == w.secrets && at != AtSave(true)
    ensures SavedSoFar(os, w, w', at, req)
  {
  }

  lemma SaveBreaks(os: Platform, s: Sys, req: Request)
    ensures var (s', r) := Saving(os, s, ServiceOf(req));
      && s'.w == s.w.(services := s'.w.services, secrets := s'.w.secrets)
      && (r != Saved && s'.alive ==> SavedSoFar(os, s.w, s'.w, AtSave(r.PartialWrite?), req))
  {
    hide Saving, PublishedPart;
    SavedNameOf(req);
    SaveCrashSafe(os, s, ServiceOf(req));
  }

  /** The registration of a living deploy that broke: as before, or after a partial write the
      new config with the old secrets. */
  predicate SavedSoFar(os: Platform, w: World, w': World, at: Stage, req: Request) {
    && SecretsAt(w', req.name) == SecretsAt(w, req.name)
    && (at != AtSave(true) ==> ConfigAt(w', req.name) == ConfigAt(w, req.name) && w'.secrets == w.secrets)
    && (at == AtSave(true) ==>
        && ConfigAt(w', req.name) == Some(ConfigNode(ServiceOf(req)))
        && DirModeAfter(os, w, w', req.name))
  }

  lemma SavedNameOf(req: Request)
    ensures ServiceOf(req).config.name == req.name
  {
  }

  lemma StopEnds(s: Sys, c: string)
    ensures var e := EffectOf(Draw(s).0);
      At(DockerStop(s, c).0.w.containers, c) ==
        if c in s.w.containers && e.Done? then Some(Stopped(s.w.containers[c])) else At(s.w.containers, c)
  {
  }

  lemma RemoveEnds(s: Sys, c: string)
    ensures var e := EffectOf(Draw(s).0);
      At(DockerRemove(s, c).0.w.containers, c) ==
        if c in s.w.containers && e.Done? && Removable(s.w.containers[c]) then None else At(s.w.containers, c)
  {
  }

  lemma RunEnds(s: Sys, req: RunRequest)
    requires req.service != "" && '/' !in req.service
    ensures var e := EffectOf(Draw(s).0);
      At(DockerRun(s, req).0.w.containers, req.name) ==
        if req.name in s.w.containers then At(s.w.containers, req.name) else RunLeaves(req, e)
  {
    hide FromRequest;
  }

  lemma UnlinkEnds(s: Sys, name: string)
    ensures var w' := Remove(s, Services, ConfigFile(name)).0.w;
      w' == s.w.(services := if Effective(Draw(s).0) then s.w.services - {ConfigFile(name)} else s.w.services)
  {
  }

  /** The compensation, whatever fails in it: what ends up under the name, and the config. */
  lemma CompensatesExactly(s: Sys, at: Stage, prev: Option<Service>, name: string)
    requires !at.AtRun? ==> ContainerName(name) in s.w.containers && s.w.containers[ContainerName(name)].status == Running
    requires prev.Some? ==> prev.value.config.name == name && name != "" && '/' !in name
    ensures var w' := Compensating(s, at, prev, name).w;
      var c := ContainerName(name);
      var e := CleanupOf(s, at, name);
      && w'.containers - {c} == s.w.containers - {c}
      && At(w'.containers, c) == Survivor(at, e, At(s.w.containers, c), prev)
      && w' == s.w.(containers := w'.containers, services := w'.services)
      && w'.services == (if at == AtSave(true) && e.unlink then s.w.services - {ConfigFile(name)} else s.w.services)
      && (s.script == Calm && s.alive ==> e == Undisturbed())
      && (!s.alive ==> w' == s.w)
  {
    hide DockerStop, DockerRemove, DockerRun, Remove, ContainerName, FromRequest, ConfigFile;
    var c := ContainerName(name);
    var s1 := if at == AtSave(true) then Remove(s, Services, ConfigFile(name)).0 else s;
    UnlinkEnds(s, name);
    StopEnds(s1, c);
    var s2 := DockerStop(s1, c).0;
    RemoveEnds(s2, c);
    var s3 := if at == AtRun then s1 else DockerRemove(s2, c).0;
    if prev.Some? { RunEnds(s3, RestoreRun(prev.value)); }
    if s.script == Calm && s.alive { CalmCleanup(s, at, name); }
  }

  lemma CalmCleanup(s: Sys, at: Stage, name: string)
    requires s.script == Calm && s.alive
    ensures CleanupOf(s, at, name) == Undisturbed()
  {
    hide ContainerName, ConfigFile;
  }

  /** Which error a broken stage is reported as. */
  predicate ReportsStage(at: Stage, error: Error) {
    match at
    case AtRun => error == ErrRun || error == ErrInterrupted
    case AtReadiness => error == ErrReadiness || error == ErrInterrupted
    case AtSave(_) => error == ErrSave
  }

  lemma BrokenReply(os: Platform, s: Sys, req: Request, prev: Option<Service>)
    ensures var a := Launching(os, s, req, prev); !a.Refused? && (a.Broken? ==> ReportsStage(a.at, a.error) && !PublicationError(a.error))
  {
    hide DockerRun, Saving;
  }

  /** A deploy that breaks after clearing: where its forward path and its compensation leave it. */
  lemma BrokenEnds(os: Platform, s: Sys, req: Request)
    requires Attempting(os, s, req).Broken?
    requires Load(s.w, req.name).Loaded? ==> ValidName(req.name)
    ensures var a := Attempting(os, s, req);
      var w' := Compensating(a.s, a.at, a.prev, req.name).w;
      var c := ContainerName(req.name);
      var e := CleanupOf(a.s, a.at, req.name);
      var left := At(a.s.w.containers, c);
      && Deploying(os, s, req) == (Compensating(a.s, a.at, a.prev, req.name), Failure(a.error))
      && a.prev == (match Load(s.w, req.name) case Loaded(svc) => Some(svc) case NotLoaded(_) => None)
      && w'.containers - {c} == s.w.containers - {c}
      && LeftAtBreak(a.at, left, req)
      && ReportsStage(a.at, a.error)
      && At(w'.containers, c) == Survivor(a.at, e, left, a.prev)
      && (a.s.alive ==> SavedSoFar(os, s.w, a.s.w, a.at, req))
      && w'.secrets == a.s.w.secrets
      && w'.services == (if a.at == AtSave(true) && e.unlink then a.s.w.services - {ConfigFile(req.name)} else a.s.w.services)
      && (a.s.alive && a.s.script == Calm ==> e == Undisturbed())
      && (!a.s.alive ==> w' == a.s.w)
  {
    hide Preparing, Clearing, Launching, Compensating, Load, ContainerName, FromRequest, PublishedPart, CleanupOf, ServiceOf, Survivor,
      SavedSoFar, ValidName;
    var n := req.name;
    if Load(s.w, n).Loaded? { ValidNameHasNoSlash(n); }
    AttemptParts(os, s, req);
    var (s1, p) := Preparing(s, req);
    var (s2, e) := Clearing(s1, n, p.prev);
    var a := Attempting(os, s, req);
    LaunchingPrev(os, s2, req, p.prev);
    LaunchingBreaks(os, s2, req, p.prev);
    BrokenReply(os, s2, req, p.prev);
    LoadedIsNamed(s.w, n);
    RunsAs(DeployRun(req));
    CompensatesExactly(a.s, a.at, a.prev, n);
    if a.s.alive { SavedFrom(os, s.w, s2.w, a.s.w, a.at, req); }
  }

  lemma SavedFrom(os: Platform, w: World, w1: World, w2: World, at: Stage, req: Request)
    requires w1.services == w.services && w1.secrets == w.secrets && SavedSoFar(os, w1, w2, at, req)
    ensures SavedSoFar(os, w, w2, at, req)
  {
  }

  /** A redeploy that breaks in running the container, in readiness or in Save, whatever fails
      before and during its rollback. No other container changes. The previous container runs
      again, as its registration says, exactly when the rollback frees the name and its run goes
      through; Survivor says what stands there otherwise, and the next deploy is let in. The
      registration is as it was, unless Save got halfway: then the old secrets stay, and the
      config is gone or, if its removal failed, new. Undisturbed, the rollback fails only to free
      the name of what a failed Run left. */
  lemma RedeployRollsBack(os: Platform, s: Sys, req: Request)
    requires Attempting(os, s, req).Broken?
    requires Load(s.w, req.name).Loaded? && ValidName(req.name)
    ensures var (s', r) := Deploying(os, s, req);
      var a := Attempting(os, s, req);
      var prev := Load(s.w, req.name).service;
      var c := ContainerName(req.name);
      var e := CleanupOf(a.s, a.at, req.name);
      var left, after := At(a.s.w.containers, c), At(s'.w.containers, c);
      var restored := Some(FromRequest(RestoreRun(prev), Running));
      && r.Failure? && ReportsStage(a.at, r.error)
      && s'.w.containers - {c} == s.w.containers - {c}
      && LeftAtBreak(a.at, left, req)
      && after == Survivor(a.at, e, left, Some(prev))
      && (ImageRef(req.name, req.deployID) != prev.config.imageRef ==>
          (after == restored <==> Frees(a.at, e, left) && e.run.Done?))
      && Gate(s'.w, req.name)
      && (a.s.alive && a.at != AtSave(true) ==> Load(s'.w, req.name) == Loaded(prev) && (InStep(s'.w, req.name) <==> after == restored))
      && (a.s.alive && a.at == AtSave(true) ==>
          && SecretsAt(s'.w, req.name) == SecretsAt(s.w, req.name)
          && ConfigAt(s'.w, req.name) == (if e.unlink then None else Some(ConfigNode(ServiceOf(req)))))
      && (a.s.alive && a.s.script == Calm ==> e == Undisturbed())
      && (!a.s.alive ==> s'.w == a.s.w)
  {
    hide Attempting, Deploying, Compensating, Load, ContainerName, FromRequest, InStep, CleanupOf, ServiceOf, ValidName;
    var n := req.name;
    BrokenEnds(os, s, req);
    var a := Attempting(os, s, req);
    LoadedIsNamed(s.w, n);
    RunsAs(DeployRun(req));
    RunsAs(RestoreRun(a.prev.value));
    RequestsDiffer(RestoreRun(a.prev.value), DeployRun(req));
    if a.s.alive && a.at != AtSave(true) {
      var w' := Compensating(a.s, a.at, a.prev, n).w;
      SameFilesSameLoad(s.w, w', n);
      StepOf(w', n);
      RestoreIsStart(a.prev.value, n);
    }
  }

  lemma RunsAs(req: RunRequest)
    ensures forall status :: FromRequest(req, status).status == status && FromRequest(req, status).owner == req.service
    ensures forall status :: status != Created ==> Stopped(FromRequest(req, status)) == FromRequest(req, Exited)
  {
  }

  /** A partial write in a redeploy splits the stores unless the rollback itself fails twice: its
      end is in step exactly when neither the removal of the config nor the stop took effect
      and the environment did not change. With only the removal failing, the previous container
      runs under the new config and the old secrets, and the failure is merely logged. */
  lemma PartialWriteInStepExactly(os: Platform, s: Sys, req: Request)
    requires CliRequest(req)
    ensures var a := Attempting(os, s, req);
      BrokeInSave(a) && Load(s.w, req.name).Loaded?
      && ImageRef(req.name, req.deployID) != Load(s.w, req.name).service.config.imageRef ==>
        var w' := Deploying(os, s, req).0.w;
        var prev := Load(s.w, req.name).service;
        var e := CleanupOf(a.s, AtSave(true), req.name);
        && Load(w', req.name) ==
            (if e.unlink then NotLoaded(NotRegistered) else Loaded(Service(ServiceOf(req).config, prev.secrets)))
        && (InStep(w', req.name) <==> !e.unlink && !e.stop && Captured(req) == prev.secrets.env)
        && (!e.unlink && e.stop && e.rm && e.run.Done? ==>
            At(w'.containers, ContainerName(req.name)) == Some(FromRequest(RestoreRun(prev), Running)))
  {
    hide Attempting, Compensating, Load, ContainerName, PublishedPart, CleanupOf, CliRequest, ServiceOf, ConfigNode, Mounts.Formatted,
      Mounts.Volumes;
    var n := req.name;
    NamedValidly(req);
    if BrokeInSave(Attempting(os, s, req)) && Load(s.w, n).Loaded? {
      RedeployRollsBack(os, s, req);
      var w' := Deploying(os, s, req).0.w;
      PartialWriteDir(os, s, req);
      if ConfigAt(w', n) == None {
        NotRegisteredWithout(w', n);
      } else {
        MixedLoads(os, s.w, w', req);
        MixedStart(req, Load(s.w, n).service.secrets);
      }
    }
  }

  /** Save got halfway, and the process lives. */
  predicate BrokeInSave(a: Attempt) { a.Broken? && a.at == AtSave(true) && a.s.alive }

  lemma RequestsDiffer(a: RunRequest, b: RunRequest)
    ensures a.image != b.image ==> forall s, t :: FromRequest(a, s) != FromRequest(b, t)
  {
  }

  lemma NamedValidly(req: Request)
    requires CliRequest(req)
    ensures ValidName(req.name)
  {
  }

  lemma PartialWriteDir(os: Platform, s: Sys, req: Request)
    requires ValidName(req.name)
    ensures BrokeInSave(Attempting(os, s, req)) ==> DirModeAfter(os, s.w, Deploying(os, s, req).0.w, req.name)
  {
    hide Attempting, Deploying, Compensating, Load, ContainerName, FromRequest, ServiceOf, Survivor, CleanupOf, LeftAtBreak;
    if BrokeInSave(Attempting(os, s, req)) { BrokenEnds(os, s, req); }
  }

  /** The new config with the old secrets is a registration. */
  lemma MixedLoads(os: Platform, w: World, w': World, req: Request)
    requires Load(w, req.name).Loaded? && CliRequest(req)
    requires ConfigAt(w', req.name) == Some(ConfigNode(ServiceOf(req))) && SecretsAt(w', req.name) == SecretsAt(w, req.name)
    requires DirModeAfter(os, w, w', req.name)
    ensures Load(w', req.name) == Loaded(Service(ServiceOf(req).config, Load(w, req.name).service.secrets))
  {
    hide Mounts.ValidMounts;
    CliServiceValid(req);
  }

  lemma MixedStart(req: Request, secrets: ServiceSecrets)
    ensures StartRun(req.name, Service(ServiceOf(req).config, secrets)) == DeployRun(req).(env := secrets.env)
  {
  }

  /** A broken attempt got through preparation and clearing. */
  lemma AttemptParts(os: Platform, s: Sys, req: Request)
    requires Attempting(os, s, req).Broken?
    ensures var (s1, p) := Preparing(s, req);
      && p.Go? && s1.w == s.w
      && p.prev == (match Load(s.w, req.name) case Loaded(svc) => Some(svc) case NotLoaded(_) => None)
      && var (s2, e) := Clearing(s1, req.name, p.prev);
      && e.None? && OnlyContainer(s.w, s2.w, ContainerName(req.name)) && ContainerName(req.name) !in s2.w.containers
      && Attempting(os, s, req) == Launching(os, s2, req, p.prev)
  {
    hide Preparing, Clearing, Launching, Load;
    PreparingReads(s, req);
    var (s1, p) := Preparing(s, req);
    assert p.Go?;
    ClearingClears(s1, req.name, p.prev);
    var (s2, e) := Clearing(s1, req.name, p.prev);
    assert e.None?;
    assert Attempting(os, s, req) == Launching(os, s2, req, p.prev);
  }

  lemma RestoreIsStart(prev: Service, name: string)
    requires prev.config.name == name
    ensures RestoreRun(prev) == StartRun(name, prev)
  {
  }

  lemma StepOf(w: World, name: string)
    requires Load(w, name).Loaded?
    ensures InStep(w, name) <==>
      At(w.containers, ContainerName(name)) == Some(FromRequest(StartRun(name, Load(w, name).service), Running))
  {
  }

  lemma NotRegisteredWithout(w: World, name: string)
    requires ConfigAt(w, name) == None
    ensures Load(w, name) == NotLoaded(NotRegistered)
  {
  }

  /** A first deploy that breaks likewise, whatever fails before and during its cleanup: its
      container is gone exactly when the cleanup frees the name; one that is left lets the next
      deploy in. The registry is as before, but for a config that a failed removal after a
      partial write leaves behind. */
  lemma FirstDeployCleansUp(os: Platform, s: Sys, req: Request)
    requires Attempting(os, s, req).Broken?
    requires Load(s.w, req.name).NotLoaded?
    ensures var (s', r) := Deploying(os, s, req);
      var a := Attempting(os, s, req);
      var c := ContainerName(req.name);
      var e := CleanupOf(a.s, a.at, req.name);
      var left, after := At(a.s.w.containers, c), At(s'.w.containers, c);
      && r.Failure? && ReportsStage(a.at, r.error)
      && s'.w.containers - {c} == s.w.containers - {c}
      && LeftAtBreak(a.at, left, req)
      && after == Survivor(a.at, e, left, None)
      && (after.None? <==> Frees(a.at, e, left))
      && Gate(s'.w, req.name)
      && (a.s.alive ==>
          && SecretsAt(s'.w, req.name) == SecretsAt(s.w, req.name)
          && ConfigAt(s'.w, req.name) ==
              (if a.at != AtSave(true) then ConfigAt(s.w, req.name) else if e.unlink then None else Some(ConfigNode(ServiceOf(req)))))
      && (a.s.alive && a.s.script == Calm ==> e == Undisturbed())
      && (!a.s.alive ==> s'.w == a.s.w)
  {
    hide Attempting, Deploying, Compensating, Load, ContainerName, FromRequest, CleanupOf, ServiceOf;
    BrokenEnds(os, s, req);
    RunsAs(DeployRun(req));
  }

  // ---------------------------------------------------------------- other endings

  /** A deploy that gives up before running the new container starts nothing and leaves the
      registry and Caddy alone; the container under its name is as it was, stopped, or gone. */
  lemma RefusalLeaves(os: Platform, s: Sys, req: Request)
    requires Attempting(os, s, req).Refused?
    ensures var w' := Deploying(os, s, req).0.w;
      OnlyContainer(s.w, w', ContainerName(req.name)) && AtMostStopped(s.w, w', ContainerName(req.name))
  {
    hide Preparing, Launching, Clearing, Load, ContainerName;
    PreparingReads(s, req);
    var (s1, p) := Preparing(s, req);
    if p.Go? {
      LaunchingPrev(os, Clearing(s1, req.name, p.prev).0, req, p.prev);
      ClearingStops(s1, req.name, p.prev);
    }
  }

  /** A container as it was, stopped, or gone. */
  predicate AtMostStopped(w: World, w': World, c: string) {
    || At(w'.containers, c) == At(w.containers, c)
    || At(w'.containers, c) == None
    || (c in w.containers && At(w'.containers, c) == Some(Stopped(w.containers[c])))
  }

  lemma StopThenRemove(s: Sys, s1: Sys, s2: Sys, c: string)
    requires s1 == DockerStop(s, c).0 && s2.w == s1.w
    ensures AtMostStopped(s.w, s1.w, c) && AtMostStopped(s.w, DockerRemove(s2, c).0.w, c)
  {
  }

  lemma ClearingStops(s: Sys, name: string, prev: Option<Service>)
    ensures var (s', e) := Clearing(s, name, prev);
      OnlyContainer(s.w, s'.w, ContainerName(name)) && AtMostStopped(s.w, s'.w, ContainerName(name))
  {
    hide ContainerName, DockerStop, DockerRemove, Host.Inspect;
    ClearingClears(s, name, prev);
    var c := ContainerName(name);
    var i := Host.Inspect(s, c).0;
    var s0 := if prev.Some? then s else i;
    var s1 := DockerStop(s0, c).0;
    StopThenRemove(s0, s1, s1, c);
    StopThenRemove(s0, s1, Host.Inspect(s1, c).0, c);
  }

  /** A redeploy of a running service that gives up while clearing it, its process alive, leaves
      it running exactly when the stop took no effect; nothing brings it back otherwise. */
  lemma RefusedRedeployStaysUpExactly(os: Platform, s: Sys, req: Request)
    requires Attempting(os, s, req).Refused? && Preparing(s, req).1.Go? && Load(s.w, req.name).Loaded?
    requires ContainerName(req.name) in s.w.containers && s.w.containers[ContainerName(req.name)].status == Running
    requires SysOf(Attempting(os, s, req)).alive
    ensures var c := ContainerName(req.name);
      var after := At(Deploying(os, s, req).0.w.containers, c);
      var stop := Draw(Preparing(s, req).0).0;
      && (after == At(s.w.containers, c) <==> !EffectOf(stop).Done?)
      && (EffectOf(stop).Done? ==> after == None || after == Some(Stopped(s.w.containers[c])))
  {
    hide Preparing, Launching, Load, ContainerName;
    PreparingReads(s, req);
    var (s1, p) := Preparing(s, req);
    LaunchingPrev(os, Clearing(s1, req.name, p.prev).0, req, p.prev);
  }

  /** The errors of the last step. */
  predicate PublicationError(e: Error) { e.ErrList? || e.ErrCaddyReload? }

  /** Under any faults: when a deploy succeeds, or fails only in the Caddyfile step, the service
      is registered and running, in step with what Load returns. */
  lemma RegisteredAndRunning(os: Platform, s: Sys, req: Request)
    requires CliRequest(req)
    ensures var (s', r) := Deploying(os, s, req);
      r.Success? || PublicationError(r.error) ==>
        InStep(s'.w, req.name) && Load(s'.w, req.name) == Loaded(ServiceOf(req))
  {
    hide Preparing, Clearing, Launching, Compensating, Publishing, Load, CliRequest, InStep;
    var (s1, p) := Preparing(s, req);
    PreparingErrors(s, req);
    if p.Go? {
      var (s2, e) := Clearing(s1, req.name, p.prev);
      ClearingErrors(s1, req.name, p.prev);
      if e.None? {
        LaunchingErrors(os, s2, req, p.prev);
        var s3 := Launching(os, s2, req, p.prev).s;
        PublishKeepsRegistry(os, s3);
        CaddyIrrelevant(s3.w, Publishing(os, s3).0.w, req.name);
      }
    }
  }

  /** A deploy that gets past its Save leaves a sound registry sound, whatever the umask. */
  lemma SuccessKeepsSound(os: Platform, s: Sys, req: Request)
    requires Sound(s.w) && CliRequest(req)
    ensures Deploying(os, s, req).1.Success? ==> Sound(Deploying(os, s, req).0.w)
  {
    hide Preparing, Clearing, DockerRun, Saving, Compensating, Publishing, Sound, Load, CliRequest, ValidService;
    PreparingReads(s, req);
    var (s1, p) := Preparing(s, req);
    if p.Go? {
      ClearingClears(s1, req.name, p.prev);
      var (s2, e) := Clearing(s1, req.name, p.prev);
      ContainersAside(s1.w, s2.w);
      var s3 := DockerRun(s2, DeployRun(req)).0;
      ContainersAside(s2.w, s3.w);
      var s4 := Call(s3).0;
      CliServiceValid(req);
      SavedKeepsSound(os, s4, ServiceOf(req));
      var s5 := Saving(os, s4, ServiceOf(req)).0;
      PublishKeepsRegistry(os, s5);
      ContainersAside(s5.w, Publishing(os, s5).0.w);
    }
  }

  lemma ContainersAside(w: World, w': World)
    requires w'.services == w.services && w'.secrets == w.secrets
    ensures Sound(w) ==> Sound(w')
  {
    if Sound(w) {
      forall m ensures SoundName(w', m) { assert SoundName(w, m); }
    }
  }

  lemma PreparingErrors(s: Sys, req: Request)
    ensures var p := Preparing(s, req).1; p.Halt? ==> !PublicationError(p.error)
  {
  }

  lemma ClearingErrors(s: Sys, name: string, prev: Option<Service>)
    ensures var e := Clearing(s, name, prev).1; e.Some? ==> !PublicationError(e.value)
  {
  }

  lemma LaunchingErrors(os: Platform, s: Sys, req: Request, prev: Option<Service>)
    requires CliRequest(req)
    ensures var a := Launching(os, s, req, prev);
      && (a.Broken? ==> !PublicationError(a.error))
      && !a.Refused?
      && (a.Up? ==> InStep(a.s.w, req.name) && Load(a.s.w, req.name) == Loaded(ServiceOf(req)))
  {
    hide Saving, Load, ContainerName, FromRequest, CliRequest, ValidService, Readable, DockerRun, Mounts.Volumes;
    var (s1, o) := DockerRun(s, DeployRun(req));
    if o.Ok? {
      var s2 := Call(s1).0;
      if Saving(os, s2, ServiceOf(req)).1 == Saved {
        CliServiceValid(req);
        SaveCrashSafe(os, s2, ServiceOf(req));
        SavedLoads(os, s2, ServiceOf(req));
        assert StartRun(req.name, ServiceOf(req)) == DeployRun(req);
      }
    }
  }

  /** The container a deploy was asked for. */
  predicate AsRequested(c: Container, req: Request) {
    && c.status == Running
    && c.owner == req.name
    && c.image == "decloud-" + req.name + ":" + req.deployID
    && c.network == "decloud"
    && c.restart == "unless-stopped"
    && c.tag == "decloud/" + req.name
    && (req.envFile == "" ==> c.env == map[])
    && (req.envFile != "" ==> c.env == req.sourced)
    && VolumesOf(c.volumes, req.mounts)
  }

  /** The config a deploy was asked for. */
  predicate ConfigRequested(c: ServiceConfig, req: Request) {
    && c.schemaVersion == 1
    && c.name == req.name
    && c.sourceDir == req.sourceDir
    && c.dockerfile == req.dockerfile
    && c.imageRef == "decloud-" + req.name + ":" + req.deployID
    && c.network == "decloud"
    && c.port == req.port
    && c.restart == "unless-stopped"
    && c.mounts == req.mounts
    && c.routes == req.hosts
    && c.strategy == req.strategy
    && c.disableCompression == req.disableCompression
    && c.readiness.kind == "http"
    && c.readiness.httpPath == (if req.readinessPath == "" then "/healthz" else req.readinessPath)
    && (req.readinessMs >= 0 ==> 0 <= req.readinessMs - 1000 * c.readiness.timeoutSecs < 1000)
    && (req.readinessMs <= 0 ==> 0 <= 1000 * c.readiness.timeoutSecs - req.readinessMs < 1000)
    && c.readiness.intervalSecs == 1
    && c.lastDeployID == req.deployID
    && c.containerName == "decloud-" + req.name
  }

  predicate SecretsRequested(x: ServiceSecrets, req: Request) {
    && x.schemaVersion == 1
    && x.name == req.name
    && (req.envFile == "" ==> x.env == map[])
    && (req.envFile != "" ==> x.env == req.sourced)
  }

  /** Under any faults, a deploy that succeeds, or fails only in the Caddyfile step, leaves a
      running container, a config file, a secrets file and a Load answer that carry, field by
      field, what was asked for, the files with their modes. */
  lemma DeployedExactly(os: Platform, s: Sys, req: Request)
    requires CliRequest(req)
    ensures var (s', r) := Deploying(os, s, req);
      var file := req.name + ".toml";
      var w := s'.w;
      r.Success? || PublicationError(r.error) ==>
        && "decloud-" + req.name in w.containers && AsRequested(w.containers["decloud-" + req.name], req)
        && file in w.services && w.services[file].File? && w.services[file].mode == Octal(6, 4, 4)
        && w.services[file].doc.ConfigDoc? && ConfigRequested(w.services[file].doc.config, req)
        && WholeSecrets(w, req.name) && SecretsRequested(SecretsIn(w, req.name), req)
        && Load(w, req.name) == Loaded(Service(w.services[file].doc.config, SecretsIn(w, req.name)))
  {
    hide Deploying, Load, CliRequest, InStep, AsRegistered, AsRequested, ConfigRequested, SecretsRequested, ServiceOf;
    RegisteredAndRunning(os, s, req);
    var (s', r) := Deploying(os, s, req);
    if r.Success? || PublicationError(r.error) {
      InStepExactly(s'.w, req.name);
      LoadExactly(s'.w, req.name);
      Asked(req, s'.w.containers["decloud-" + req.name]);
      ConfigWritten(os, s, req);
    }
  }

  /** The registration of a request carries its fields. */
  lemma Asked(req: Request, c: Container)
    ensures ConfigRequested(ServiceOf(req).config, req) && SecretsRequested(ServiceOf(req).secrets, req)
    ensures c.status == Running && AsRegistered(c, ServiceOf(req)) ==> AsRequested(c, req)
  {
    hide VolumesOf;
    Readiness.DeployProbes(req.readinessPath, req.readinessMs);
    assert ImageRef(req.name, req.deployID) == "decloud-" + req.name + ":" + req.deployID;
  }

  lemma ConfigWritten(os: Platform, s: Sys, req: Request)
    ensures var (s', r) := Deploying(os, s, req);
      r.Success? || PublicationError(r.error) ==>
        At(s'.w.services, req.name + ".toml") == Some(File(Octal(6, 4, 4), ConfigDoc(ServiceOf(req).config)))
  {
    hide Preparing, Clearing, DockerRun, Saving, Compensating, Publishing, Load, Octal;
    PreparingErrors(s, req);
    var (s1, p) := Preparing(s, req);
    if p.Go? {
      var (s2, e) := Clearing(s1, req.name, p.prev);
      ClearingErrors(s1, req.name, p.prev);
      if e.None? {
        BrokenReply(os, s2, req, p.prev);
        var s3 := Call(DockerRun(s2, DeployRun(req)).0).0;
        SavedExactly(os, s3, ServiceOf(req));
        PublishKeepsRegistry(os, Saving(os, s3, ServiceOf(req)).0);
      }
    }
  }

  // ---------------------------------------------------------------- agreement of the stores

  /** Under any faults, when a deploy succeeds all stores agree: the service runs in step with
      its registration, and Caddy's running configuration and the live file are the rendering of
      the services List returned, all the loadable ones exactly when no read of one failed. */
  lemma DeployedStoresAgree(os: Platform, s: Sys, req: Request)
    requires CliRequest(req)
    ensures var (s', r) := Deploying(os, s, req);
      var s1 := SysOf(Attempting(os, s, req));
      var seen := Listing(s1).1;
      r.Success? ==>
        && InStep(s'.w, req.name) && Load(s'.w, req.name) == Loaded(ServiceOf(req))
        && seen.Some? && Agrees(s'.w, Caddyfile.Render(seen.value))
        && Subsequence(seen.value, Loadable(s'.w))
        && (seen.value == Loadable(s'.w) <==> ReadsHold(Call(s1).0, Names(s'.w.services)))
  {
    hide Attempting, Compensating, Publishing, Listing, Agrees, Load, Loadable, Names, ReadsHold, Subsequence, InStep,
      CliRequest, Caddyfile.Render;
    RegisteredAndRunning(os, s, req);
    StoresAgree(os, SysOf(Attempting(os, s, req)));
  }

  /** A command that ends in a successful publication leaves Caddy's running configuration and
      the live file equal to the rendering of the services List returned: some of the loadable
      ones, in name order, and all of them exactly when no read of a loadable one failed. */
  lemma StoresAgree(os: Platform, s: Sys)
    ensures var (s', r) := Publishing(os, s);
      var seen := Listing(s).1;
      r.Success? ==>
        && seen.Some? && Agrees(s'.w, Caddyfile.Render(seen.value))
        && Subsequence(seen.value, Loadable(s'.w))
        && (seen.value == Loadable(s'.w) <==> ReadsHold(Call(s).0, Names(s'.w.services)))
  {
    hide Publishing, Listing, Agrees, Load, Names, ReadsHold, Subsequence, Caddyfile.Render;
    PublishedSafely(os, s);
    ListingReads(s);
    SameLoads(s.w, Publishing(os, s).0.w, Names(s.w.services));
  }

  // ---------------------------------------------------------------- one read fails

  function Dropping<T>(xs: seq<T>, i: nat): seq<T>
    requires i < |xs|
  {
    xs[..i] + xs[i + 1..]
  }

  lemma {:induction false} ScanAllFine(w: World, names: seq<string>, rest: Script)
    ensures Scan(Sys(w, Fines(|names|, rest), true), names) == (Sys(w, rest, true), LoadEach(w, names))
    decreases |names|
  {
    hide Load;
    if names != [] {
      var s := Sys(w, Fines(|names|, rest), true);
      assert Loading(s, names[0]) == (Sys(w, Fines(|names| - 1, rest), true), Load(w, names[0]));
      ScanAllFine(w, names[1..], rest);
    }
  }

  lemma {:induction false} ScanDrops(w: World, names: seq<string>, i: nat, c: bool, e: Effect)
    requires i < |names|
    ensures Scan(Sys(w, Fines(i, Then(Fail(c, e), Calm)), true), names) == (Sys(w, Calm, true), LoadEach(w, Dropping(names, i)))
    decreases i
  {
    hide Load;
    var s := Sys(w, Fines(i, Then(Fail(c, e), Calm)), true);
    if i == 0 {
      assert Dropping(names, 0) == names[1..];
      assert Loading(s, names[0]).0 == Sys(w, Calm, true) && Loading(s, names[0]).1.NotLoaded?;
      ScanShows(Sys(w, Calm, true), names[1..]);
      assert [] + LoadEach(w, names[1..]) == LoadEach(w, names[1..]);
    } else {
      assert Loading(s, names[0]) == (Sys(w, Fines(i - 1, Then(Fail(c, e), Calm)), true), Load(w, names[0]));
      ScanDrops(w, names[1..], i - 1, c, e);
      assert Dropping(names, i)[1..] == Dropping(names[1..], i - 1);
    }
  }

  lemma {:induction false} LoadEachNamed(w: World, names: seq<string>)
    ensures forall svc :: svc in LoadEach(w, names) ==> svc.config.name in names
  {
    hide Load;
    if names != [] {
      LoadEachNamed(w, names[1..]);
      LoadedIsNamed(w, names[0]);
    }
  }

  /** One transient read error during List, at any registered service: the publication still
      succeeds exactly when Caddy accepts the file, and the file that goes live is the rendering
      of all the loadable services but that one. */
  lemma TransientReadDropsRoutes(os: Platform, w: World, i: nat, c: bool, e: Effect)
    requires CaddySound(os, w)
    ensures var names := Names(w.services);
      i < |names| ==>
        var seen := LoadEach(w, Dropping(names, i));
        var (s', r) := Publishing(os, Sys(w, Fines(i + 1, Then(Fail(c, e), Calm)), true));
        && (r.Success? <==> os.accepts(Caddyfile.Render(seen)))
        && (r.Success? ==> Agrees(s'.w, Caddyfile.Render(seen)))
        && (forall svc :: svc in seen ==> svc.config.name != names[i])
        && Loadable(s'.w) == Loadable(w)
  {
    hide Publishing, Load, Names, LoadEach, Caddyfile.Render, CaddySound, Agrees;
    var names := Names(w.services);
    if i < |names| {
      var s := Sys(w, Fines(i + 1, Then(Fail(c, e), Calm)), true);
      assert Call(s) == (Sys(w, Fines(i, Then(Fail(c, e), Calm)), true), Ok);
      ScanDrops(w, names, i, c, e);
      var seen := LoadEach(w, Dropping(names, i));
      assert Listing(s) == (Sys(w, Calm, true), Some(seen));
      PublishesWhat(os, s, seen);
      PublishedSafely(os, s);
      LoadEachNamed(w, Dropping(names, i));
      SameLoads(w, Publishing(os, s).0.w, names);
    }
  }

  // ---------------------------------------------------------------- the torn stub

  /** A publication can leave part of the stub as the live Caddyfile, by a kill in its first
      write, exactly when there is no live Caddyfile yet. */
  lemma StubTornExactly(os: Platform, w: World)
    requires !TornLive(os, w)
    ensures (exists script :: TornLive(os, Publishing(os, Sys(w, script, true)).0.w)) <==> LiveAt(w) == None
  {
    hide Publishing, Caddyfile.Render;
    if script :| TornLive(os, Publishing(os, Sys(w, script, true)).0.w) {
      PublishedSafely(os, Sys(w, script, true));
    }
    if LiveAt(w) == None {
      var script := Fines(|Names(w.services)| + 3, Then(Die(Half), Calm));
      KillTearsStub(os, w);
      assert TornLive(os, Publishing(os, Sys(w, script, true)).0.w);
    }
  }

  lemma KillTearsStub(os: Platform, w: World)
    requires LiveAt(w) == None
    ensures TornLive(os, Publishing(os, Sys(w, Fines(|Names(w.services)| + 3, Then(Die(Half), Calm)), true)).0.w)
  {
    hide Names, LoadEach, Scan, Installing, Caddyfile.Render;
    var names := Names(w.services);
    var s := Sys(w, Fines(|names| + 3, Then(Die(Half), Calm)), true);
    var end := Then(Die(Half), Calm);
    var before := Sys(w, Fines(2, end), true);
    FinesSplit(|names|, 2, end);
    assert Call(s) == (Sys(w, Fines(|names| + 2, end), true), Ok);
    ScanAllFine(w, names, Fines(2, end));
    assert Listing(s) == (before, Some(LoadEach(w, names)));
    assert Call(before) == (Sys(w, Fines(1, end), true), Ok);
    assert Call(Sys(w, Fines(1, end), true)) == (Sys(w, end, true), Ok);
    var torn := WritingStub(os, before);
    assert TornLive(os, torn.w) && !torn.alive;
    DeadStages(os, torn, Caddyfile.Render(LoadEach(w, names)));
  }

  lemma DeadStages(os: Platform, s: Sys, text: string)
    requires !s.alive
    ensures Staging(os, s, text) == (s, false)
  {
  }

  lemma {:induction false} FinesSplit(j: nat, k: nat, rest: Script)
    ensures Fines(j + k, rest) == Fines(j, Fines(k, rest))
  {
    if j > 0 { FinesSplit(j - 1, k, rest); }
  }

  lemma NoFolders(os: Platform, w: World)
    requires CaddySound(os, w)
    ensures At(w.caddy, NEXT) != Some(Folder) && LiveAt(w) != Some(Folder)
  {
  }
}
