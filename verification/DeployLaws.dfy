/** What one deploy does, whatever fails: whom it touches, what it refuses, how it rolls back
    and where it ends when nothing fails. */
module DeployLaws {
  import opened Text
  import opened Types
  import opened Host
  import opened Registry
  import opened RegistryLaws
  import opened Orchestrator
  import Mounts
  import Caddyfile

  /** What the command line guarantees about a request. */
  predicate CliRequest(req: Request) {
    && ValidName(req.name)
    && req.strategy == RECREATE
    && Mounts.ValidMounts(req.mounts)
    && req.port != 0
  }

  lemma CliServiceValid(req: Request)
    requires CliRequest(req)
    ensures ValidService(ServiceOf(req)) && Filled(ServiceOf(req)) == ServiceOf(req) && Readable(ServiceOf(req))
  {
  }

  // ---------------------------------------------------------------- whom a command touches

  /** From w to w' only the container, config and secrets of name may differ. */
  predicate OnlyService(w: World, w': World, name: string) {
    && w'.containers - {ContainerName(name)} == w.containers - {ContainerName(name)}
    && PublishedPart(w'.services) - {ConfigFile(name)} == PublishedPart(w.services) - {ConfigFile(name)}
    && w'.secrets - {name} == w.secrets - {name}
  }

  lemma OtherServiceUntouched(w: World, w': World, name: string, other: string)
    requires OnlyService(w, w', name) && other != name
    ensures At(w'.containers, ContainerName(other)) == At(w.containers, ContainerName(other))
    ensures ConfigAt(w', other) == ConfigAt(w, other)
    ensures At(w'.secrets, other) == At(w.secrets, other)
  {
    ContainerNameInjective(other, name);
    OthersUntouched(w, w.(services := w'.services, secrets := w'.secrets), name, other);
    OtherContainerUntouched(w, w', name, ContainerName(other));
  }

  lemma OtherContainerUntouched(w: World, w': World, name: string, container: string)
    requires OnlyService(w, w', name) && container != ContainerName(name)
    ensures At(w'.containers, container) == At(w.containers, container)
  {
    assert container in w.containers <==> container in w.containers - {ContainerName(name)};
    assert container in w'.containers <==> container in w'.containers - {ContainerName(name)};
    if container in w.containers { assert (w.containers - {ContainerName(name)})[container] == w.containers[container]; }
    if container in w'.containers { assert (w'.containers - {ContainerName(name)})[container] == w'.containers[container]; }
  }

  /** OnlyService, with Caddy's files and configuration unchanged, and, if keep, the registry
      sound if it was. */
  ghost predicate Local(w: World, w': World, name: string, keep: bool) {
    OnlyService(w, w', name) && w'.caddy == w.caddy && w'.loaded == w.loaded && (keep && Sound(w) ==> Sound(w'))
  }

  /** What a deploy needs to keep the registry sound. */
  predicate Keeps(os: Platform, req: Request) { OwnerBitsKept(os) && CliRequest(req) }

  lemma LocalChain(w: World, w1: World, w2: World, name: string, keep: bool)
    requires Local(w, w1, name, keep) && Local(w1, w2, name, keep)
    ensures Local(w, w2, name, keep)
  {
  }

  lemma ContainerLocal(w: World, w': World, name: string, keep: bool)
    requires OnlyContainer(w, w', ContainerName(name))
    ensures Local(w, w', name, keep)
  {
    if Sound(w) {
      forall m ensures SoundName(w', m) { assert SoundName(w, m); }
    }
  }

  lemma PreparingReads(s: Sys, req: Request)
    ensures var (s', p) := Preparing(s, req);
      && s'.w == s.w
      && (p.Go? ==> s'.alive)
      && (p.Go? ==> p.prev == match Load(s.w, req.name) case Loaded(svc) => Some(svc) case NotLoaded(_) => None)
      && (p.Go? ==> Load(s.w, req.name).Loaded? || Load(s.w, req.name).error == NotRegistered || Load(s.w, req.name).error == SecretsMissing)
      && (s'.alive ==> s.alive)
  {
  }

  lemma ClearingClears(s: Sys, name: string, prev: Option<Service>)
    ensures var (s', e) := Clearing(s, name, prev);
      && OnlyContainer(s.w, s'.w, ContainerName(name))
      && (e.None? ==> s'.alive && ContainerName(name) !in s'.w.containers)
      && (s'.alive ==> s.alive)
  {
  }

  lemma SavingLocal(os: Platform, s: Sys, svc: Service, keep: bool)
    requires keep ==> OwnerBitsKept(os) && ValidService(svc)
    ensures Local(s.w, Saving(os, s, svc).0.w, svc.config.name, keep)
  {
    hide Saving, Sound;
    SaveCrashSafe(os, s, svc);
    if keep && Sound(s.w) { SaveKeepsSound(os, s, svc); }
  }

  function SysOf(a: Attempt): Sys { a.s }

  lemma LaunchingLocal(os: Platform, s: Sys, req: Request, prev: Option<Service>)
    ensures Local(s.w, SysOf(Launching(os, s, req, prev)).w, req.name, Keeps(os, req))
  {
    hide DockerRun, Saving, Local;
    var keep := Keeps(os, req);
    var (s1, o) := DockerRun(s, DeployRun(req));
    ContainerLocal(s.w, s1.w, req.name, keep);
    var s2 := Call(s1).0;
    if keep { CliServiceValid(req); }
    SavingLocal(os, s2, ServiceOf(req), keep);
    LocalChain(s.w, s1.w, Saving(os, s2, ServiceOf(req)).0.w, req.name, keep);
  }

  lemma AttemptingLocal(os: Platform, s: Sys, req: Request)
    ensures var a := Attempting(os, s, req);
      && Local(s.w, SysOf(a).w, req.name, Keeps(os, req))
      && (a.Broken? ==> a.prev == match Load(s.w, req.name) case Loaded(svc) => Some(svc) case NotLoaded(_) => None)
  {
    hide Preparing, Clearing, Launching, Local, Load;
    PreparingReads(s, req);
    var keep := Keeps(os, req);
    var (s1, p) := Preparing(s, req);
    ContainerLocal(s.w, s1.w, req.name, keep);
    if p.Go? {
      ClearingClears(s1, req.name, p.prev);
      var (s2, e) := Clearing(s1, req.name, p.prev);
      ContainerLocal(s1.w, s2.w, req.name, keep);
      if e.None? {
        LaunchingLocal(os, s2, req, p.prev);
        LaunchingPrev(os, s2, req, p.prev);
        LocalChain(s1.w, s2.w, SysOf(Launching(os, s2, req, p.prev)).w, req.name, keep);
      }
    }
  }

  lemma LaunchingPrev(os: Platform, s: Sys, req: Request, prev: Option<Service>)
    ensures var a := Launching(os, s, req, prev); !a.Refused? && (a.Broken? ==> a.prev == prev)
  {
  }

  lemma RemoveConfigLocal(s: Sys, name: string, keep: bool)
    ensures Local(s.w, Remove(s, Services, ConfigFile(name)).0.w, name, keep)
  {
    hide PublishedPart, Remove;
    var w' := Remove(s, Services, ConfigFile(name)).0.w;
    RemovedElsewhere(s.w.services, w'.services, ConfigFile(name));
    if Sound(s.w) {
      assert SoundName(s.w, name);
      assert SoundName(w', name);
      ElsewhereSound(s.w, w', name);
    }
  }

  lemma CompensatingLocal(s: Sys, at: Stage, prev: Option<Service>, name: string, keep: bool)
    requires prev.Some? ==> prev.value.config.name == name
    ensures Local(s.w, Compensating(s, at, prev, name).w, name, keep)
  {
    hide DockerStop, DockerRemove, DockerRun, Remove, Local;
    var s1 := if at == AtSave(true) then Remove(s, Services, ConfigFile(name)).0 else s;
    RemoveConfigLocal(s, name, keep);
    ContainerLocal(s.w, s.w, name, keep);
    var s1' := DockerStop(s1, ContainerName(name)).0;
    ContainerLocal(s1.w, s1'.w, name, keep);
    var s1'' := DockerRemove(s1', ContainerName(name)).0;
    ContainerLocal(s1'.w, s1''.w, name, keep);
    LocalChain(s.w, s1.w, s1'.w, name, keep);
    LocalChain(s.w, s1'.w, s1''.w, name, keep);
    var s2 := if at == AtRun then s1 else s1'';
    if prev.Some? {
      var s3 := DockerRun(s2, RestoreRun(prev.value)).0;
      ContainerLocal(s2.w, s3.w, name, keep);
      LocalChain(s.w, s2.w, s3.w, name, keep);
    }
  }

  lemma LoadedIsNamed(w: World, name: string)
    ensures Load(w, name).Loaded? ==> Load(w, name).service.config.name == name
  {
  }

  // ---------------------------------------------------------------- the Caddyfile

  function LiveAt(w: World): Option<Node> { At(w.caddy, LIVE) }

  function Serving(text: string): Option<Node> { Some(File(M0644, TextDoc(text))) }

  /** The live file is the stub, or the part of it a cut-short write left. */
  predicate StubLive(os: Platform, w: World) {
    LiveAt(w) == Some(StubNode(os, TextDoc(Caddyfile.STUB))) || TornLive(os, w)
  }

  predicate TornLive(os: Platform, w: World) { LiveAt(w) == Some(StubNode(os, Torn)) }

  /** The live file is untouched, or was missing and is now the stub or part of it. */
  predicate StubAtMost(os: Platform, w: World, w': World) {
    LiveAt(w') == LiveAt(w) || (LiveAt(w) == None && StubLive(os, w'))
  }

  lemma StagedSafely(os: Platform, s: Sys, text: string)
    ensures var (s', generated) := Staging(os, WritingStub(os, s), text);
      && s'.w == s.w.(caddy := s'.w.caddy)
      && (s'.alive ==> s.alive)
      && StubAtMost(os, s.w, s'.w)
      && (generated ==> At(s'.w.caddy, NEXT) == Serving(text))
      && (At(s.w.caddy, NEXT) != Some(Folder) ==> At(s'.w.caddy, NEXT) != Some(Folder))
      && (s.script == Calm && s.alive && At(s.w.caddy, NEXT) != Some(Folder) ==>
          generated && s'.alive && s'.script == Calm && StubPresent(os, s.w, s'.w))
  {
    hide Staging, WritingStub, StubLive;
    StubWritten(os, s);
    var s2 := WritingStub(os, s);
    StageKeeps(os, s2, text);
    StubThenSame(os, s.w, s2.w, Staging(os, s2, text).0.w);
  }

  /** The staged file is written whole or not at all, and the live file is not touched. */
  lemma StageKeeps(os: Platform, s: Sys, text: string)
    ensures var (s', generated) := Staging(os, s, text);
      && s'.w == s.w.(caddy := s'.w.caddy)
      && (s'.alive ==> s.alive)
      && LiveAt(s'.w) == LiveAt(s.w)
      && (generated ==> At(s'.w.caddy, NEXT) == Serving(text))
      && (At(s.w.caddy, NEXT) != Some(Folder) ==> At(s'.w.caddy, NEXT) != Some(Folder))
      && (s.script == Calm && s.alive && At(s.w.caddy, NEXT) != Some(Folder) ==> generated && s'.alive && s'.script == Calm)
  {
    hide WriteAtomic, TempName, Call;
    var s2 := Call(s).0;
    WriteAtomicWhole(os, s2, Caddy, CADDY_TEMP, NEXT, M0644, TextDoc(text), false);
    var (s3, generated) := WriteAtomic(os, s2, Caddy, CADDY_TEMP, NEXT, M0644, TextDoc(text), false);
    LiveIsNoTemp();
    ExceptTwo(s2.w.caddy, s3.w.caddy, TempName(os, s2.w.caddy, CADDY_TEMP), NEXT, LIVE);
  }

  /** A live file as it was, or the whole stub where there was none. */
  predicate StubPresent(os: Platform, w: World, w': World) {
    LiveAt(w') == if LiveAt(w) == None then Some(StubNode(os, TextDoc(Caddyfile.STUB))) else LiveAt(w)
  }

  lemma StubWritten(os: Platform, s: Sys)
    ensures var s' := WritingStub(os, s);
      && s'.w == s.w.(caddy := s'.w.caddy)
      && (s'.alive ==> s.alive)
      && StubAtMost(os, s.w, s'.w)
      && At(s'.w.caddy, NEXT) == At(s.w.caddy, NEXT)
      && (s.script == Calm && s.alive ==> s'.script == Calm && s'.alive && StubPresent(os, s.w, s'.w))
  {
    LiveIsNoTemp();
  }

  /** Whatever fails, one publication leaves the live Caddyfile as it was, or writes the stub
      (possibly cut short) where there was no file, or renames in a rendering that Caddy
      accepted; before the rename an existing file is never altered. Success means the live
      file and Caddy's running configuration are both the rendering of the services read. */
  lemma PublishedSafely(os: Platform, s: Sys)
    ensures var (s', r) := Publishing(os, s);
      && s'.w == s.w.(caddy := s'.w.caddy, loaded := s'.w.loaded)
      && (s'.alive ==> s.alive)
      && (StubAtMost(os, s.w, s'.w) || (Listing(s).1.Some? && Replaced(os, s'.w, Caddyfile.Render(Listing(s).1.value))))
      && (s'.alive && r.Failure? && r.error != ErrCaddyReload(ReloadingStep) ==> StubAtMost(os, s.w, s'.w))
      && (r.Success? ==> Listing(s).1.Some? && Agrees(s'.w, Caddyfile.Render(Listing(s).1.value)) && s'.alive)
      && (At(s.w.caddy, NEXT) != Some(Folder) ==> At(s'.w.caddy, NEXT) != Some(Folder))
  {
    hide Listing, Staging, WritingStub, Caddyfile.Render, Installing, StubAtMost;
    ListingReads(s);
    var (s1, services) := Listing(s);
    if services.None? {
      StubReflexive(os, s.w, s1.w);
    } else {
      var text := Caddyfile.Render(services.value);
      StagedSafely(os, s1, text);
      var (s3, generated) := Staging(os, WritingStub(os, s1), text);
      if generated {
        InstalledSafely(os, s3, text);
        StubThenSame(os, s1.w, s3.w, Installing(os, s3).0.w);
      }
    }
  }

  lemma StubReflexive(os: Platform, w: World, w': World)
    requires w == w'
    ensures StubAtMost(os, w, w')
  {
  }

  lemma StubThenSame(os: Platform, w: World, w1: World, w2: World)
    requires StubAtMost(os, w, w1)
    ensures LiveAt(w2) == LiveAt(w1) ==> StubAtMost(os, w, w2)
  {
  }

  /** The live file is text, and Caddy accepted it. */
  predicate Replaced(os: Platform, w: World, text: string) { LiveAt(w) == Serving(text) && os.accepts(text) }

  /** The live file and Caddy's running configuration are both text. */
  predicate Agrees(w: World, text: string) { LiveAt(w) == Serving(text) && w.loaded == Some(text) }

  lemma LiveIsNoTemp()
    ensures Published(NEXT) && !IsTemp(LIVE, CADDY_TEMP) && LIVE != NEXT
  {
  }

  lemma ExceptTwo(d: Dir, d': Dir, a: string, b: string, f: string)
    requires d' - {a, b} == d - {a, b} && f != a && f != b
    ensures At(d', f) == At(d, f)
  {
    assert f in d <==> f in d - {a, b};
    assert f in d' <==> f in d' - {a, b};
    if f in d { assert (d - {a, b})[f] == d[f]; }
    if f in d' { assert (d' - {a, b})[f] == d'[f]; }
  }

  lemma InstalledSafely(os: Platform, s: Sys, text: string)
    requires At(s.w.caddy, NEXT) == Serving(text)
    ensures var (s', r) := Installing(os, s);
      && s'.w == s.w.(caddy := s'.w.caddy, loaded := s'.w.loaded)
      && (s'.alive ==> s.alive)
      && (LiveAt(s'.w) == LiveAt(s.w) || Replaced(os, s'.w, text))
      && (r.Failure? ==> r.error.ErrCaddyReload?)
      && (s'.alive && r.Failure? && r.error != ErrCaddyReload(ReloadingStep) ==> LiveAt(s'.w) == LiveAt(s.w))
      && (r.Success? ==> s'.alive && Agrees(s'.w, text))
      && At(s'.w.caddy, NEXT) != Some(Folder)
      && (s.script == Calm && s.alive && LiveAt(s.w) != Some(Folder) ==>
          && NEXT !in s'.w.caddy
          && (os.accepts(text) ==> r.Success?)
          && (!os.accepts(text) ==> r == Failure(ErrCaddyReload(ValidatingStep)) && LiveAt(s'.w) == LiveAt(s.w) && s'.w.loaded == s.w.loaded))
  {
    hide Remove, Rename;
    LiveIsNoTemp();
    var (s1, valid) := Validating(os, s);
    if !valid {
      var s2 := Remove(s1, Caddy, NEXT).0;
      assert s2.w.caddy - {NEXT, NEXT} == s2.w.caddy - {NEXT} && s1.w.caddy - {NEXT, NEXT} == s1.w.caddy - {NEXT};
      ExceptTwo(s1.w.caddy, s2.w.caddy, NEXT, NEXT, LIVE);
    }
  }

  // ---------------------------------------------------------------- what List shows

  ghost predicate Subsequence<T(!new)>(a: seq<T>, b: seq<T>) {
    a == [] || (b != [] && ((a[0] == b[0] && Subsequence(a[1..], b[1..])) || Subsequence(a, b[1..])))
  }

  /** No read of a loadable service fails while List scans names. */
  predicate ReadsHold(s: Sys, names: seq<string>)
    decreases |names|
  {
    names == [] || ((Load(s.w, names[0]).Loaded? ==> Loading(s, names[0]).1.Loaded?) && ReadsHold(Loading(s, names[0]).0, names[1..]))
  }

  /** List returns some of the loadable services in order, and all of them exactly when no
      read of a loadable one fails: a transient read error silently drops a service. */
  lemma {:induction false} ScanShows(s: Sys, names: seq<string>)
    ensures Scan(s, names).0.w == s.w
    ensures Scan(s, names).0.alive ==> s.alive
    ensures Subsequence(Scan(s, names).1, LoadEach(s.w, names))
    ensures |Scan(s, names).1| <= |LoadEach(s.w, names)|
    ensures Scan(s, names).1 == LoadEach(s.w, names) <==> ReadsHold(s, names)
    ensures s.script == Calm && s.alive ==> Scan(s, names) == (s, LoadEach(s.w, names))
    decreases |names|
  {
    hide Load, Loading;
    if names != [] {
      var (s1, l) := Loading(s, names[0]);
      ScanShows(s1, names[1..]);
      var seen, all := Scan(s, names).1, LoadEach(s.w, names);
      var rest := LoadEach(s.w, names[1..]);
      if l.Loaded? {
        assert seen[1..] == Scan(s1, names[1..]).1 && all[1..] == rest;
        assert seen == all <==> seen[1..] == all[1..];
      } else if Load(s.w, names[0]).Loaded? {
        assert all[1..] == rest && seen == Scan(s1, names[1..]).1;
        assert |seen| < |all|;
      } else {
        assert all == rest && seen == Scan(s1, names[1..]).1;
      }
    }
  }

  lemma ListingReads(s: Sys)
    ensures Listing(s).0.w == s.w
    ensures Listing(s).0.alive ==> s.alive
    ensures Listing(s).1.Some? ==> Subsequence(Listing(s).1.value, Loadable(s.w))
    ensures Listing(s).1.Some? ==>
      (Listing(s).1.value == Loadable(s.w) <==> ReadsHold(Call(s).0, Names(s.w.services)))
    ensures s.script == Calm && s.alive ==> Listing(s) == (s, Some(Loadable(s.w)))
  {
    hide Load, Loading, Names;
    ScanShows(Call(s).0, Names(s.w.services));
  }

  // ---------------------------------------------------------------- whole commands

  /** Isolation: a deploy, whatever fails and wherever it is killed, changes nothing of any
      other service; and one built by the command line leaves the registry sound. */
  lemma DeployIsolated(os: Platform, s: Sys, req: Request)
    ensures var w' := Deploying(os, s, req).0.w;
      OnlyService(s.w, w', req.name) && (Keeps(os, req) && Sound(s.w) ==> Sound(w'))
  {
    hide Attempting, Compensating, Publishing, OnlyService, Load, CliRequest;
    var keep := Keeps(os, req);
    AttemptingLocal(os, s, req);
    match Attempting(os, s, req) {
      case Up(s1) =>
        PublishKeepsRegistry(os, s1);
        SameParts(s.w, s1.w, Publishing(os, s1).0.w, req.name, keep);
      case Refused(_, _) =>
      case Broken(s1, at, prev, _) =>
        LoadedIsNamed(s.w, req.name);
        CompensatingLocal(s1, at, prev, req.name, keep);
        LocalChain(s.w, s1.w, Compensating(s1, at, prev, req.name).w, req.name, keep);
    }
  }

  lemma SameParts(w: World, w1: World, w2: World, name: string, keep: bool)
    requires Local(w, w1, name, keep) && w2 == w1.(caddy := w2.caddy, loaded := w2.loaded)
    ensures OnlyService(w, w2, name) && (keep && Sound(w) ==> Sound(w2))
  {
    if keep && Sound(w) {
      forall m ensures SoundName(w2, m) { assert SoundName(w1, m); }
    }
  }

  lemma PublishKeepsRegistry(os: Platform, s: Sys)
    ensures var w' := Publishing(os, s).0.w; w' == s.w.(caddy := w'.caddy, loaded := w'.loaded)
  {
    hide Publishing;
    PublishedSafely(os, s);
  }
}
