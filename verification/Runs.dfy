/** Whole histories: any sequence of commands, each disturbed by any faults and cut short
    anywhere, with anybody doing anything to docker's containers in between. */
module Runs {
  import opened Text
  import opened Types
  import opened Host
  import opened Registry
  import opened RegistryLaws
  import opened Orchestrator
  import opened DeployLaws
  import opened DeployTheorems
  import opened LifecycleLaws
  import Caddyfile
  import Mounts

  datatype Command = DeployCmd(req: Request) | UnregisterCmd(name: string) | StartCmd(name: string)
                   | StopCmd(name: string) | RestartCmd(name: string) | CaddyReloadCmd

  /** Outside replaces docker's containers by whatever others make of them. */
  datatype Event = Ran(cmd: Command, script: Script) | Outside(containers: map<string, Container>)

  function Executing(os: Platform, s: Sys, cmd: Command): Sys {
    match cmd
    case DeployCmd(req) => Deploying(os, s, req).0
    case UnregisterCmd(n) => Unregistering(os, s, n).0
    case StartCmd(n) => Starting(s, n).0
    case StopCmd(n) => Stopping(s, n).0
    case RestartCmd(n) => Restarting(s, n).0
    case CaddyReloadCmd => Publishing(os, s).0
  }

  /** Running a command is running the program's procedure of that name. */
  method Execute(os: Platform, p: Process, cmd: Command)
    modifies p
    ensures p.sys == Executing(os, old(p.sys), cmd)
  {
    hide Deploying, Unregistering, Starting, Stopping, Restarting, Publishing;
    match cmd {
      case DeployCmd(req) => var _ := Deploy(os, p, req);
      case UnregisterCmd(n) => var _ := Unregister(os, p, n);
      case StartCmd(n) => var _ := StartService(p, n);
      case StopCmd(n) => var _ := StopService(p, n);
      case RestartCmd(n) => var _ := RestartService(p, n);
      case CaddyReloadCmd => var _ := RegenerateAndReload(os, p);
    }
  }

  function Target(cmd: Command): Option<string> {
    match cmd
    case DeployCmd(req) => Some(req.name)
    case CaddyReloadCmd => None
    case _ => Some(cmd.name)
  }

  function After(os: Platform, w: World, events: seq<Event>): World
    decreases |events|
  {
    if events == [] then w
    else
      var last := |events| - 1;
      var before := After(os, w, events[..last]);
      match events[last]
      case Ran(cmd, script) => Executing(os, Sys(before, script, true), cmd).w
      case Outside(containers) => before.(containers := containers)
  }

  /** Deploys come from the command line. */
  predicate FromCommandLine(cmd: Command) { cmd.DeployCmd? ==> CliRequest(cmd.req) }

  predicate Possible(events: seq<Event>) {
    forall i :: 0 <= i < |events| ==> (events[i].Ran? ==> FromCommandLine(events[i].cmd))
  }

  // ---------------------------------------------------------------- isolation

  lemma RestartTouchesContainer(s: Sys, name: string)
    ensures OnlyContainer(s.w, Restarting(s, name).0.w, ContainerName(name))
    ensures OnlyContainer(s.w, Starting(s, name).0.w, ContainerName(name))
    ensures OnlyContainer(s.w, Stopping(s, name).0.w, ContainerName(name))
  {
    hide Loading, DockerRun, DockerStart, DockerStop, ContainerName;
    var s1 := Stopping(s, name).0;
    assert OnlyContainer(s1.w, Starting(s1, name).0.w, ContainerName(name));
  }

  /** Whatever fails and wherever it is cut, a command changes no other service's container,
      config or secrets, and no container but its own. */
  lemma CommandIsolated(os: Platform, s: Sys, cmd: Command, other: string, container: string)
    requires Target(cmd) != Some(other)
    requires Target(cmd).Some? ==> container != ContainerName(Target(cmd).value)
    ensures var w' := Executing(os, s, cmd).w;
      && At(w'.containers, container) == At(s.w.containers, container)
      && ConfigAt(w', other) == ConfigAt(s.w, other)
      && At(w'.secrets, other) == At(s.w.secrets, other)
      && At(w'.containers, ContainerName(other)) == At(s.w.containers, ContainerName(other))
  {
    hide Deploying, Unregistering, Starting, Stopping, Restarting, Publishing, OnlyService, ContainerName;
    var w' := Executing(os, s, cmd).w;
    match cmd {
      case DeployCmd(req) => DeployIsolated(os, s, req);
      case UnregisterCmd(n) => UnregisterKeeps(os, s, n);
      case CaddyReloadCmd => PublishKeepsRegistry(os, s);
      case _ => RestartTouchesContainer(s, cmd.name); ContainerLocal(s.w, w', cmd.name, true);
    }
    if Target(cmd).Some? {
      OtherServiceUntouched(s.w, w', Target(cmd).value, other);
      OtherContainerUntouched(s.w, w', Target(cmd).value, container);
    }
  }

  // ---------------------------------------------------------------- what every command keeps

  /** The registry's published files are sound and the live Caddyfile is missing, the stub, part
      of the stub, or a file Caddy accepted. */
  ghost predicate Inv(os: Platform, w: World) { Sound(w) && CaddySound(os, w) }

  lemma PublishKeepsCaddy(os: Platform, s: Sys)
    requires CaddySound(os, s.w)
    ensures CaddySound(os, Publishing(os, s).0.w)
  {
    hide Publishing, Listing, Caddyfile.Render;
    PublishedSafely(os, s);
  }

  lemma DeployKeepsCaddy(os: Platform, s: Sys, req: Request)
    requires CaddySound(os, s.w)
    ensures CaddySound(os, Deploying(os, s, req).0.w)
  {
    hide Attempting, Compensating, Publishing, CaddySound, OnlyService, Load;
    AttemptingLocal(os, s, req);
    match Attempting(os, s, req) {
      case Up(s1) => SameCaddy(os, s.w, s1.w); PublishKeepsCaddy(os, s1);
      case Refused(s1, _) => SameCaddy(os, s.w, s1.w);
      case Broken(s1, at, prev, _) =>
        LoadedIsNamed(s.w, req.name);
        CompensatingLocal(s1, at, prev, req.name, Keeps(os, req));
        SameCaddy(os, s.w, Compensating(s1, at, prev, req.name).w);
    }
  }

  lemma UnregisterKeepsCaddy(os: Platform, s: Sys, name: string)
    requires CaddySound(os, s.w)
    ensures CaddySound(os, Unregistering(os, s, name).0.w)
  {
    hide DockerStop, DockerRemove, Deleting, Publishing, CaddySound, Loading;
    var s1 := Loading(s, name).0;
    SameCaddy(os, s.w, s1.w);
    var s3 := DockerRemove(DockerStop(s1, ContainerName(name)).0, ContainerName(name)).0;
    var s4 := Deleting(s3, name).0;
    DeleteCrashSafe(s3, name);
    SameCaddy(os, s.w, s4.w);
    PublishKeepsCaddy(os, s4);
  }

  /** Whatever the umask and whoever asks for the deploy, every command keeps Caddy's directory
      sound. */
  lemma CommandKeepsCaddy(os: Platform, s: Sys, cmd: Command)
    requires CaddySound(os, s.w)
    ensures CaddySound(os, Executing(os, s, cmd).w)
  {
    hide Deploying, Unregistering, Starting, Stopping, Restarting, Publishing, CaddySound;
    match cmd {
      case DeployCmd(req) => DeployKeepsCaddy(os, s, req);
      case UnregisterCmd(n) => UnregisterKeepsCaddy(os, s, n);
      case CaddyReloadCmd => PublishKeepsCaddy(os, s);
      case _ => RestartTouchesContainer(s, cmd.name); SameCaddy(os, s.w, Executing(os, s, cmd).w);
    }
  }

  lemma {:induction false} CaddyAlwaysSound(os: Platform, events: seq<Event>)
    ensures CaddySound(os, After(os, EMPTY, events))
    decreases |events|
  {
    hide Executing, CaddySound;
    if events == [] {
      EmptyIsSound(os);
    } else {
      var last := |events| - 1;
      CaddyAlwaysSound(os, events[..last]);
      var before := After(os, EMPTY, events[..last]);
      match events[last] {
        case Ran(cmd, script) => CommandKeepsCaddy(os, Sys(before, script, true), cmd);
        case Outside(c) => SameCaddy(os, before, before.(containers := c));
      }
    }
  }

  lemma CommandKeepsInv(os: Platform, s: Sys, cmd: Command)
    requires OwnerBitsKept(os) && FromCommandLine(cmd) && Inv(os, s.w)
    ensures Inv(os, Executing(os, s, cmd).w)
  {
    hide Deploying, Unregistering, Starting, Stopping, Restarting, Publishing, CaddySound, Sound, CliRequest, OnlyService;
    var w' := Executing(os, s, cmd).w;
    CommandKeepsCaddy(os, s, cmd);
    match cmd {
      case DeployCmd(req) => DeployIsolated(os, s, req);
      case UnregisterCmd(n) => UnregisterKeeps(os, s, n);
      case CaddyReloadCmd => PublishKeepsRegistry(os, s); SoundBesides(s.w, w');
      case _ => RestartTouchesContainer(s, cmd.name); SoundBesides(s.w, w');
    }
  }

  lemma SoundBesides(w: World, w': World)
    requires w'.services == w.services && w'.secrets == w.secrets && Sound(w)
    ensures Sound(w')
  {
    forall m ensures SoundName(w', m) { assert SoundName(w, m); }
  }

  lemma {:induction false} InvAlways(os: Platform, events: seq<Event>)
    requires OwnerBitsKept(os) && Possible(events)
    ensures Inv(os, After(os, EMPTY, events))
    decreases |events|
  {
    hide Executing, Sound, CaddySound, CliRequest;
    if events == [] {
      EmptyIsSound(os);
    } else {
      var last := |events| - 1;
      InvAlways(os, events[..last]);
      var before := After(os, EMPTY, events[..last]);
      match events[last] {
        case Ran(cmd, script) => CommandKeepsInv(os, Sys(before, script, true), cmd);
        case Outside(c) =>
          SoundBesides(before, before.(containers := c));
          SameCaddy(os, before, before.(containers := c));
      }
    }
  }

  lemma EmptyIsSound(os: Platform)
    ensures Inv(os, EMPTY)
  {
  }

  // ---------------------------------------------------------------- never wedged

  /** Load's answers that let a deploy go on. */
  predicate Admitted(l: Loaded) {
    l.Loaded? || l == NotLoaded(NotRegistered) || l == NotLoaded(SecretsMissing)
  }

  ghost predicate NeverWedges(os: Platform) {
    forall events, name :: Possible(events) ==>
      Admitted(Load(After(os, EMPTY, events), name)) && !Corrupt(After(os, EMPTY, events), name)
  }

  const SAMPLE := Request("a", "/src", "/src/Dockerfile", [], 8080, "", [], "", 60000, RECREATE, false, "id", map[])

  /** Six calls bring the first deploy of SAMPLE to its Save. */
  lemma SampleArrives(s: Sys, rest: Script)
    requires s == Sys(EMPTY, Then(Fine, Then(Fine, Then(Fine, Then(Fine, rest)))), true)
    ensures Preparing(s, SAMPLE) == (Sys(EMPTY, Then(Fine, rest), true), Go(None))
    ensures Clearing(Preparing(s, SAMPLE).0, SAMPLE.name, None) == (Sys(EMPTY, rest, true), None)
  {
    hide Load;
    NotRegisteredWithout(EMPTY, SAMPLE.name);
  }

  lemma SampleReachesSave(s: Sys, rest: Script)
    requires s == Sys(EMPTY, Then(Fine, Then(Fine, rest)), true)
    ensures DockerRun(s, DeployRun(SAMPLE)).1 == Ok
    ensures var (s', o) := Call(DockerRun(s, DeployRun(SAMPLE)).0);
      o == Ok && s'.alive && s'.script == rest && s'.w.services == map[] && s'.w.secrets == map[]
  {
    hide FromRequest;
  }

  /** The first deploy of SAMPLE, up to its Save. */
  lemma SampleSaves(os: Platform, calls: Script) returns (s: Sys, s6: Sys, script: Script)
    ensures s == Sys(EMPTY, script, true) && s6.alive && s6.script == calls && s6.w.services == map[] && s6.w.secrets == map[]
    ensures CliRequest(SAMPLE)
    ensures Attempting(os, s, SAMPLE) ==
      var (s7, r) := Saving(os, s6, ServiceOf(SAMPLE));
      if r == Saved then Up(s7) else Broken(s7, AtSave(r.PartialWrite?), None, ErrSave)
  {
    hide Saving, Load, Preparing, Clearing, DockerRun, Call, CliRequest;
    var launch := Then(Fine, Then(Fine, calls));
    script := Then(Fine, Then(Fine, Then(Fine, Then(Fine, launch))));
    s := Sys(EMPTY, script, true);
    SampleIsCli();
    SampleArrives(s, launch);
    var s4 := Clearing(Preparing(s, SAMPLE).0, SAMPLE.name, None).0;
    SampleReachesSave(s4, calls);
    s6 := Call(DockerRun(s4, DeployRun(SAMPLE)).0).0;
  }

  lemma SampleWedges(os: Platform) returns (events: seq<Event>)
    requires !OwnerBitsKept(os)
    ensures Possible(events) && !Admitted(Load(After(os, EMPTY, events), SAMPLE.name))
  {
    hide Saving, Load, Preparing, Clearing, DockerRun, Call, CliRequest;
    var s, s6, script := SampleSaves(os, Fines(6, Then(Die(Done), Calm)));
    CliServiceValid(SAMPLE);
    MaskedOwnerWedges(os, s6, ServiceOf(SAMPLE));
    var s7 := Saving(os, s6, ServiceOf(SAMPLE)).0;
    assert Compensating(s7, AtSave(true), None, SAMPLE.name) == s7;
    events := [Ran(DeployCmd(SAMPLE), script)];
    assert events[..0] == [];
    assert After(os, EMPTY, events[..0]) == EMPTY;
    assert After(os, EMPTY, events) == Deploying(os, s, SAMPLE).0.w == s7.w;
  }

  lemma SampleIsCli()
    ensures CliRequest(SAMPLE)
  {
  }

  /** No history, however faulty or cut short, brings a service to a state whose Load error stops
      the next deploy, exactly when the umask keeps the owner's bits. */
  lemma NeverWedgedExactly(os: Platform)
    ensures NeverWedges(os) <==> OwnerBitsKept(os)
  {
    hide After, Load, Sound, CaddySound, Corrupt;
    if OwnerBitsKept(os) {
      forall events, name | Possible(events)
        ensures Admitted(Load(After(os, EMPTY, events), name)) && !Corrupt(After(os, EMPTY, events), name)
      {
        InvAlways(os, events);
        SoundNotCorrupt(After(os, EMPTY, events), name);
        LoadAdmits(After(os, EMPTY, events), name);
      }
    } else {
      var events := SampleWedges(os);
    }
  }

  // ---------------------------------------------------------------- only accepted Caddyfiles go live

  /** Over every history, whatever the umask and the requests, the live Caddyfile is missing, the
      stub, a stub whose first write was cut short, or a file that Caddy's validation accepted. */
  lemma LiveAlwaysAccepted(os: Platform, events: seq<Event>)
    ensures var w := After(os, EMPTY, events);
      || LiveAt(w) == None
      || LiveAt(w) == Some(StubNode(os, TextDoc(Caddyfile.STUB)))
      || TornLive(os, w)
      || exists text :: LiveAt(w) == Serving(text) && os.accepts(text)
  {
    hide After;
    CaddyAlwaysSound(os, events);
    var live := LiveAt(After(os, EMPTY, events));
    if live.Some? && live.value.File? && live.value.doc.TextDoc? {
      assert !StubLive(os, After(os, EMPTY, events)) ==> live == Serving(live.value.doc.text);
    }
  }

  // ---------------------------------------------------------------- a leftover blocks Unregister

  lemma DeployKeepsLeftover(os: Platform, s: Sys, req: Request, name: string, f: string)
    requires Leftover(s.w, name, f)
    ensures Leftover(Deploying(os, s, req).0.w, name, f)
  {
    hide Preparing, Clearing, Launching, Compensating, Publishing, Load;
    PreparingReads(s, req);
    LoadedIsNamed(s.w, req.name);
    var (s1, p) := Preparing(s, req);
    if p.Go? {
      ClearingClears(s1, req.name, p.prev);
      var (s2, e) := Clearing(s1, req.name, p.prev);
      if e.None? {
        LaunchingKeepsLeftover(os, s2, req, p.prev, name, f);
        LaunchingPrev(os, s2, req, p.prev);
        match Launching(os, s2, req, p.prev) {
          case Up(s3) => PublishKeepsRegistry(os, s3);
          case Broken(s3, at, prev, _) => CompensatingKeepsSecrets(s3, at, prev, req.name);
          case _ =>
        }
      }
    }
  }

  lemma LaunchingKeepsLeftover(os: Platform, s: Sys, req: Request, prev: Option<Service>, name: string, f: string)
    requires Leftover(s.w, name, f)
    ensures Leftover(SysOf(Launching(os, s, req, prev)).w, name, f)
  {
    hide DockerRun, Saving;
    var s2 := Call(DockerRun(s, DeployRun(req)).0).0;
    SaveKeepsLeftover(os, s2, ServiceOf(req), name, f);
  }

  lemma CompensatingKeepsSecrets(s: Sys, at: Stage, prev: Option<Service>, name: string)
    ensures Compensating(s, at, prev, name).w.secrets == s.w.secrets
  {
    hide DockerStop, DockerRemove, DockerRun;
  }

  /** A second file among a service's secrets makes every Unregister of it fail, whatever the
      faults, and stays there. */
  lemma UnregisterKeepsLeftover(os: Platform, s: Sys, n: string, name: string, f: string)
    requires Leftover(s.w, name, f)
    ensures Leftover(Unregistering(os, s, n).0.w, name, f)
    ensures n == name ==> Unregistering(os, s, n).1.Failure?
  {
    hide DockerStop, DockerRemove, Deleting, Publishing, Loading;
    var c := ContainerName(n);
    var s3 := DockerRemove(DockerStop(Loading(s, n).0, c).0, c).0;
    DeleteKeepsLeftover(s3, n, name, f);
    PublishKeepsRegistry(os, Deleting(s3, n).0);
  }

  lemma {:induction false} LeftoverStays(os: Platform, w: World, events: seq<Event>, name: string, f: string)
    requires Leftover(w, name, f)
    ensures Leftover(After(os, w, events), name, f)
    decreases |events|
  {
    hide Deploying, Unregistering, Starting, Stopping, Restarting, Publishing;
    if events != [] {
      var last := |events| - 1;
      LeftoverStays(os, w, events[..last], name, f);
      var before := After(os, w, events[..last]);
      if events[last].Ran? {
        var s := Sys(before, events[last].script, true);
        match events[last].cmd {
          case DeployCmd(req) => DeployKeepsLeftover(os, s, req, name, f);
          case UnregisterCmd(n) => UnregisterKeepsLeftover(os, s, n, name, f);
          case CaddyReloadCmd => PublishKeepsRegistry(os, s);
          case _ => RestartTouchesContainer(s, events[last].cmd.name);
        }
      }
    }
  }

  /** Corrupt files stop everything: no command, under any faults, ever changes that service's
      registration again, and Unregister, like a deploy, returns the error of its Load. */
  lemma CorruptCommand(os: Platform, s: Sys, cmd: Command, name: string)
    requires Corrupt(s.w, name)
    ensures SameRegistration(s.w, Executing(os, s, cmd).w, name)
  {
    hide Deploying, Unregistering, Starting, Stopping, Restarting, Publishing, Corrupt;
    CorruptUnregister(os, s, name);
    if Target(cmd) == Some(name) {
      match cmd {
        case DeployCmd(req) => CorruptRefused(os, s, req);
        case UnregisterCmd(_) =>
        case _ => RestartTouchesContainer(s, name);
      }
    } else {
      var container := if Target(cmd).Some? then ContainerName(Target(cmd).value) + "-" else "";
      CommandIsolated(os, s, cmd, name, container);
    }
  }

  /** The config file and the secrets directory are the same. */
  predicate SameRegistration(w: World, w': World, name: string) {
    At(w'.services, name + ".toml") == At(w.services, name + ".toml") && At(w'.secrets, name) == At(w.secrets, name)
  }

  lemma SameIsCorrupt(w: World, w': World, name: string)
    requires SameRegistration(w, w', name)
    ensures Corrupt(w', name) == Corrupt(w, name) && Load(w', name) == Load(w, name)
  {
    hide Load, Mounts.ValidMounts;
    SameFilesSameLoad(w, w', name);
  }

  lemma CorruptUnregister(os: Platform, s: Sys, name: string)
    requires Corrupt(s.w, name)
    ensures Unregistering(os, s, name).0.w == s.w && Unregistering(os, s, name).1.Failure?
    ensures s.script == Calm && s.alive ==>
      Load(s.w, name).NotLoaded? && Unregistering(os, s, name).1 == Failure(ErrLoad(Load(s.w, name).error))
  {
    hide Corrupt;
    LoadAdmits(s.w, name);
    RefusedUnregister(os, s, name);
  }

  lemma RefusedUnregister(os: Platform, s: Sys, name: string)
    requires !Load(s.w, name).Loaded? && Load(s.w, name) != NotLoaded(SecretsMissing)
    ensures Unregistering(os, s, name).0.w == s.w && Unregistering(os, s, name).1.Failure?
    ensures s.script == Calm && s.alive ==>
      Unregistering(os, s, name).1 == Failure(ErrLoad(Load(s.w, name).error))
  {
    hide Load, Deleting, Publishing, DockerStop, DockerRemove;
  }

  /** Corrupt files stay as they are through every further history, and so does what Load and every
      deploy and Unregister say of them. */
  lemma {:induction false} CorruptStays(os: Platform, w: World, events: seq<Event>, name: string)
    requires Corrupt(w, name)
    ensures var w' := After(os, w, events);
      SameRegistration(w, w', name) && Corrupt(w', name) && Load(w', name) == Load(w, name)
    decreases |events|
  {
    hide Executing, Load, Corrupt;
    SameIsCorrupt(w, w, name);
    if events != [] {
      var last := |events| - 1;
      CorruptStays(os, w, events[..last], name);
      var before := After(os, w, events[..last]);
      if events[last].Ran? { CorruptCommand(os, Sys(before, events[last].script, true), events[last].cmd, name); }
      SameIsCorrupt(w, After(os, w, events), name);
    }
  }

  /** Unregister, disturbed somehow after some further history, removes both files of name. */
  ghost predicate CanBeUnregistered(os: Platform, w: World, name: string) {
    exists events, script :: Unregistered(Unregistering(os, Sys(After(os, w, events), script, true), name).0.w, name)
  }

  predicate Unregistered(w: World, name: string) { ConfigAt(w, name) == None && name !in w.secrets }

  /** A registered service can ever be unregistered exactly when its files are not corrupt and
      nothing but the secrets file lies among its secrets. Otherwise every Unregister of
      it fails, after any further history and under any faults. */
  lemma UnregistrableExactly(os: Platform, w: World, name: string)
    requires ConfigAt(w, name).Some?
    ensures CanBeUnregistered(os, w, name) <==> !Corrupt(w, name) && forall f :: !Leftover(w, name, f)
    ensures !CanBeUnregistered(os, w, name) ==> forall events, script ::
      Unregistering(os, Sys(After(os, w, events), script, true), name).1.Failure?
  {
    hide Unregistering, Load;
    if !Corrupt(w, name) && forall f :: !Leftover(w, name, f) {
      assert After(os, w, []) == w;
      UnregistersNow(os, w, name);
      assert Unregistered(Unregistering(os, Sys(After(os, w, []), Calm, true), name).0.w, name);
    } else {
      forall events, script
        ensures Unregistering(os, Sys(After(os, w, events), script, true), name).1.Failure?
        ensures !Unregistered(Unregistering(os, Sys(After(os, w, events), script, true), name).0.w, name)
      {
        NeverUnregisters(os, w, events, script, name);
      }
    }
  }

  lemma UnregistersNow(os: Platform, w: World, name: string)
    requires ConfigAt(w, name).Some? && !Corrupt(w, name) && forall f :: !Leftover(w, name, f)
    ensures Unregistered(Unregistering(os, Sys(w, Calm, true), name).0.w, name)
  {
    hide Deleting, Publishing, Load, ContainerName;
    var s := Sys(w, Calm, true);
    var c := ContainerName(name);
    RegisteredIsFound(w, name);
    LoadAdmits(w, name);
    var s3 := DockerRemove(DockerStop(s, c).0, c).0;
    assert s3.script == Calm && s3.alive;
    assert name in w.secrets ==> forall f :: f in w.secrets[name].files && f != ENV_FILE ==> Leftover(w, name, f);
    DeleteSucceedsExactly(s3, name);
    DeleteCrashSafe(s3, name);
    PublishKeepsRegistry(os, Deleting(s3, name).0);
  }

  lemma RegisteredIsFound(w: World, name: string)
    requires ConfigAt(w, name).Some?
    ensures Load(w, name) != NotLoaded(NotRegistered)
  {
  }

  lemma NeverUnregisters(os: Platform, w: World, events: seq<Event>, script: Script, name: string)
    requires ConfigAt(w, name).Some?
    requires Corrupt(w, name) || exists f :: Leftover(w, name, f)
    ensures var (s', r) := Unregistering(os, Sys(After(os, w, events), script, true), name);
      r.Failure? && !Unregistered(s'.w, name)
  {
    hide Unregistering, Load, Corrupt;
    var s := Sys(After(os, w, events), script, true);
    if f :| Leftover(w, name, f) {
      LeftoverStays(os, w, events, name, f);
      UnregisterKeepsLeftover(os, s, name, name, f);
    } else {
      CorruptStays(os, w, events, name);
      CorruptUnregister(os, s, name);
    }
  }

  /** Such a file does arise: a kill while the first deploy of a service writes the secrets
      leaves it registered and never to be unregistered, although a deploy still works. */
  lemma KillBlocksUnregister(os: Platform) returns (events: seq<Event>)
    ensures var w := After(os, EMPTY, events);
      && Possible(events)
      && ConfigAt(w, SAMPLE.name).Some?
      && forall more, script :: Unregistering(os, Sys(After(os, w, more), script, true), SAMPLE.name).1.Failure?
  {
    hide Saving, Load, Preparing, Clearing, DockerRun, Call, CliRequest, Unregistering, Deleting;
    var calls := Fines(9, Then(Die(Nothing), Calm));
    var s, s6, script := SampleSaves(os, calls);
    KillLeavesTemporaryFile(os, s6, ServiceOf(SAMPLE));
    var s7 := Saving(os, s6, ServiceOf(SAMPLE)).0;
    assert Compensating(s7, AtSave(true), None, SAMPLE.name) == s7;
    events := [Ran(DeployCmd(SAMPLE), script)];
    assert events[..0] == [];
    assert After(os, EMPTY, events[..0]) == EMPTY;
    assert After(os, EMPTY, events) == Deploying(os, s, SAMPLE).0.w == s7.w;
    UnregistrableExactly(os, s7.w, SAMPLE.name);
  }

  // ---------------------------------------------------------------- a second Unregister

  /** Repeating an Unregister that was cut short or failed, once nothing fails. While the config
      is there the repeat finishes the work, exactly when no leftover and not Caddy is in the
      way. Once Delete is through, a repeat is refused and changes nothing, even under faults:
      routes that are still live stay until another command publishes, and an undisturbed
      publication removes them exactly when Caddy accepts the file. */
  lemma RepeatedUnregister(os: Platform, s: Sys, name: string)
    requires Sound(s.w) && CaddySound(os, s.w)
    ensures var w := Unregistering(os, s, name).0.w;
      var (s', r) := Unregistering(os, Sys(w, Calm, true), name);
      var (p, published) := Publishing(os, Sys(w, Calm, true));
      && (ConfigAt(w, name).Some? ==>
          (r.Success? <==> (forall f :: !Leftover(w, name, f)) && os.accepts(Caddyfile.Render(Loadable(s'.w)))))
      && (ConfigAt(w, name) == None ==>
          && (forall script :: Unregistering(os, Sys(w, script, true), name).0.w == w
                            && Unregistering(os, Sys(w, script, true), name).1.Failure?)
          && (published.Success? <==> os.accepts(Caddyfile.Render(Loadable(w))))
          && (published.Success? ==> Agrees(p.w, Caddyfile.Render(Loadable(w))) && Avoids(Loadable(w), name)))
  {
    hide Unregistering, Publishing, Load, Sound, CaddySound, Loadable, Agrees, Avoids, Subsequence, Caddyfile.Render;
    UnregisterKeeps(os, s, name);
    UnregisterKeepsCaddy(os, s, name);
    var w := Unregistering(os, s, name).0.w;
    if ConfigAt(w, name).Some? {
      UnregisterSucceedsExactly(os, Sys(w, Calm, true), name);
      LeftoverOrNot(w, name);
    } else {
      NotRegisteredWithout(w, name);
      forall script ensures Unregistering(os, Sys(w, script, true), name).0.w == w
                         && Unregistering(os, Sys(w, script, true), name).1.Failure? {
        RefusedUnregister(os, Sys(w, script, true), name);
      }
      PublishSucceedsExactly(os, Sys(w, Calm, true));
      SubsequenceSelf(Loadable(w));
      NoRouteTo(w, Loadable(w), name);
    }
  }

  lemma LeftoverOrNot(w: World, name: string)
    ensures (name in w.secrets ==> w.secrets[name].files.Keys <= {ENV_FILE}) <==> forall f :: !Leftover(w, name, f)
  {
    if name in w.secrets {
      assert forall f :: f in w.secrets[name].files && f != ENV_FILE ==> Leftover(w, name, f);
    }
  }

  lemma {:induction false} SubsequenceSelf<T(!new)>(a: seq<T>)
    ensures Subsequence(a, a)
  {
    if a != [] { SubsequenceSelf(a[1..]); }
  }

  // ---------------------------------------------------------------- convergence

  /** After any history, one undisturbed deploy puts the service in step with its registration
      if its gate is open, succeeds exactly when Caddy also accepts the new file, and then
      leaves Caddy, the live file and the registry in agreement. */
  lemma ConvergesAfterAnything(os: Platform, events: seq<Event>, req: Request)
    requires OwnerBitsKept(os) && Possible(events) && CliRequest(req)
    ensures var w := After(os, EMPTY, events);
      var (s', r) := Deploying(os, Sys(w, Calm, true), req);
      var text := Caddyfile.Render(Loadable(s'.w));
      && (Gate(w, req.name) ==> InStep(s'.w, req.name) && Load(s'.w, req.name) == Loaded(ServiceOf(req)))
      && (r.Success? <==> Gate(w, req.name) && os.accepts(text))
      && (r.Success? ==> Agrees(s'.w, text))
      && (!Gate(w, req.name) ==> s'.w == w)
  {
    hide After, Deploying, Sound, CaddySound, Gate, InStep, Agrees, CliRequest, Load, Loadable, Caddyfile.Render;
    InvAlways(os, events);
    Converges(os, Sys(After(os, EMPTY, events), Calm, true), req);
  }

  // ---------------------------------------------------------------- the gate stays open

  lemma StopOwned(s: Sys, n: string)
    ensures Owned(s.w, n) ==> Owned(DockerStop(s, ContainerName(n)).0.w, n)
  {
  }

  lemma RemoveOwned(s: Sys, n: string)
    ensures Owned(s.w, n) ==> Owned(DockerRemove(s, ContainerName(n)).0.w, n)
  {
  }

  lemma StartOwned(s: Sys, n: string)
    ensures Owned(s.w, n) ==> Owned(DockerStart(s, ContainerName(n)).0.w, n)
  {
  }

  lemma RunOwned(s: Sys, req: RunRequest, n: string)
    requires req.name == ContainerName(n) && req.service == n
    ensures Owned(s.w, n) ==> Owned(DockerRun(s, req).0.w, n)
  {
  }

  lemma LaunchingOwned(os: Platform, s: Sys, req: Request, prev: Option<Service>)
    requires Owned(s.w, req.name)
    ensures Owned(SysOf(Launching(os, s, req, prev)).w, req.name)
  {
    hide DockerRun, Saving, ContainerName;
    RunOwned(s, DeployRun(req), req.name);
    var s2 := Call(DockerRun(s, DeployRun(req)).0).0;
    SaveCrashSafe(os, s2, ServiceOf(req));
  }

  lemma CompensatingOwned(s: Sys, at: Stage, prev: Option<Service>, name: string)
    requires prev.Some? ==> prev.value.config.name == name
    requires Owned(s.w, name)
    ensures Owned(Compensating(s, at, prev, name).w, name)
  {
    hide DockerRun, DockerStop, DockerRemove, Remove, Owned;
    var s1 := if at == AtSave(true) then Remove(s, Services, ConfigFile(name)).0 else s;
    SameOwned(s.w, s1.w, name);
    StopOwned(s1, name);
    var s2 := DockerStop(s1, ContainerName(name)).0;
    RemoveOwned(s2, name);
    var s3 := if at == AtRun then s1 else DockerRemove(s2, ContainerName(name)).0;
    if prev.Some? { RunOwned(s3, RestoreRun(prev.value), name); }
  }

  lemma SameOwned(w: World, w': World, name: string)
    requires w'.containers == w.containers
    ensures Owned(w', name) == Owned(w, name)
  {
  }

  lemma ClearingOwned(s: Sys, name: string, prev: Option<Service>)
    requires Owned(s.w, name)
    ensures Owned(Clearing(s, name, prev).0.w, name)
  {
    hide DockerStop, DockerRemove, Owned, Host.Inspect;
    var c := ContainerName(name);
    var i := Host.Inspect(s, c).0;
    StopOwned(s, name);
    StopOwned(i, name);
    SameOwned(s.w, i.w, name);
    var a := DockerStop(s, c).0;
    RemoveOwned(a, name);
    RemoveOwned(Host.Inspect(a, c).0, name);
    SameOwned(a.w, Host.Inspect(a, c).0.w, name);
    RemoveOwned(DockerStop(i, c).0, name);
  }

  lemma DeployOwned(os: Platform, s: Sys, req: Request)
    requires Owned(s.w, req.name)
    ensures Owned(Deploying(os, s, req).0.w, req.name)
  {
    hide Preparing, Clearing, Launching, Compensating, Publishing, Owned, Load;
    var n := req.name;
    PreparingReads(s, req);
    var (s1, p) := Preparing(s, req);
    LoadedIsNamed(s.w, n);
    if p.Go? {
      ClearingOwned(s1, n, p.prev);
      var s2 := Clearing(s1, n, p.prev).0;
      LaunchingOwned(os, s2, req, p.prev);
      LaunchingPrev(os, s2, req, p.prev);
      match Launching(os, s2, req, p.prev) {
        case Up(s3) => PublishKeepsRegistry(os, s3); SameOwned(s3.w, Publishing(os, s3).0.w, n);
        case Broken(s3, at, prev, _) => CompensatingOwned(s3, at, prev, n);
        case _ =>
      }
    }
  }

  lemma UnregisterOwned(os: Platform, s: Sys, n: string)
    requires Owned(s.w, n)
    ensures Owned(Unregistering(os, s, n).0.w, n)
  {
    hide DockerStop, DockerRemove, Deleting, Publishing, Owned, Loading;
    var c := ContainerName(n);
    var s1 := Loading(s, n).0;
    StopOwned(s1, n);
    RemoveOwned(DockerStop(s1, c).0, n);
    var s3 := DockerRemove(DockerStop(s1, c).0, c).0;
    DeleteCrashSafe(s3, n);
    var s4 := Deleting(s3, n).0;
    SameOwned(s3.w, s4.w, n);
    PublishKeepsRegistry(os, s4);
    SameOwned(s4.w, Publishing(os, s4).0.w, n);
  }

  lemma StartingOwned(s: Sys, n: string)
    requires Owned(s.w, n)
    ensures Owned(Starting(s, n).0.w, n)
    ensures Owned(Restarting(s, n).0.w, n)
    ensures Owned(Stopping(s, n).0.w, n)
  {
    hide Owned, DockerStop, Starting;
    StopOwned(s, n);
    OnlyStartingOwned(s, n);
    OnlyStartingOwned(Stopping(s, n).0, n);
  }

  lemma OnlyStartingOwned(s: Sys, n: string)
    ensures Owned(s.w, n) ==> Owned(Starting(s, n).0.w, n)
  {
    hide Owned, DockerStart, DockerRun, Loading, Host.Inspect;
    var (s1, l) := Loading(s, n);
    var s2 := Host.Inspect(s1, ContainerName(n)).0;
    StartOwned(s2, n);
    if l.Loaded? { RunOwned(s2, StartRun(n, l.service), n); }
  }

  /** No command ever puts somebody else's container under a service's name. */
  lemma CommandKeepsOwned(os: Platform, s: Sys, cmd: Command, n: string)
    requires Owned(s.w, n)
    ensures Owned(Executing(os, s, cmd).w, n)
  {
    hide Deploying, Unregistering, Starting, Stopping, Restarting, Publishing, ContainerName;
    if Target(cmd) == Some(n) {
      match cmd {
        case DeployCmd(req) => DeployOwned(os, s, req);
        case UnregisterCmd(_) => UnregisterOwned(os, s, n);
        case _ => StartingOwned(s, n);
      }
    } else {
      if Target(cmd).Some? { ContainerNameInjective(n, Target(cmd).value); }
      CommandIsolated(os, s, cmd, n, ContainerName(n));
    }
  }

  /** Others may do anything but run a container of their own under this service's name. */
  predicate Friendly(ev: Event, n: string) {
    ev.Outside? && ContainerName(n) in ev.containers ==> ev.containers[ContainerName(n)].owner == n
  }

  lemma {:induction false} AlwaysOwned(os: Platform, events: seq<Event>, n: string)
    requires forall i :: 0 <= i < |events| ==> Friendly(events[i], n)
    ensures Owned(After(os, EMPTY, events), n)
    decreases |events|
  {
    hide Executing, ContainerName;
    if events != [] {
      var last := |events| - 1;
      AlwaysOwned(os, events[..last], n);
      var before := After(os, EMPTY, events[..last]);
      assert Friendly(events[last], n);
      match events[last] {
        case Ran(cmd, script) => CommandKeepsOwned(os, Sys(before, script, true), cmd, n);
        case Outside(_) =>
      }
    }
  }

  /** Unless somebody else takes the name, the gate is always open: after any sequence of
      commands with any failures and kills, one undisturbed deploy brings the service up in
      step with its registration, and succeeds exactly when Caddy accepts the new file. */
  lemma AlwaysConverges(os: Platform, events: seq<Event>, req: Request)
    requires OwnerBitsKept(os) && Possible(events) && CliRequest(req)
    requires forall i :: 0 <= i < |events| ==> Friendly(events[i], req.name)
    ensures var (s', r) := Deploying(os, Sys(After(os, EMPTY, events), Calm, true), req);
      var text := Caddyfile.Render(Loadable(s'.w));
      && InStep(s'.w, req.name) && Load(s'.w, req.name) == Loaded(ServiceOf(req))
      && (r.Success? <==> os.accepts(text)) && (r.Success? ==> Agrees(s'.w, text))
  {
    hide After, Deploying, InStep, Agrees, CliRequest, Load, Loadable, Caddyfile.Render, Friendly;
    AlwaysOwned(os, events, req.name);
    ConvergesAfterAnything(os, events, req);
  }
}
