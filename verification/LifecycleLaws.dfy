/** The lifecycle commands: exactly when they succeed, what Unregister removes, and how the two
    readers of the registry agree. */
module LifecycleLaws {
  import opened Text
  import opened Types
  import opened Host
  import opened Registry
  import opened RegistryLaws
  import opened Orchestrator
  import opened DeployLaws
  import opened DeployTheorems
  import Caddyfile
  import Mounts

  // ---------------------------------------------------------------- stop, start and restart

  /** Undisturbed, `stop` succeeds exactly when there is a container, whatever the registry says
      of it; then the container no longer runs and all else about it is as before, and one that
      never started is untouched. Under any faults, not-found is reported only when there is no
      container, and a failure leaves it as it was or stopped. */
  lemma StopSucceedsExactly(s: Sys, name: string)
    ensures var (s', r) := Stopping(s, name);
      var before := At(s.w.containers, ContainerName(name));
      var after := At(s'.w.containers, ContainerName(name));
      && OnlyContainer(s.w, s'.w, ContainerName(name))
      && (before.None? <==> after.None?)
      && (before.Some? ==> after == before || after == Some(before.value.(status := Exited)))
      && (before.Some? && before.value.status == Created ==> after == before)
      && (r.Success? ==> before.Some? && after.value.status in {Exited, Created})
      && (r == Failure(ErrNotFound) ==> before.None?)
      && (s.script == Calm && s.alive ==> (r.Success? <==> before.Some?) && (r == Failure(ErrNotFound) <==> before.None?))
  {
    hide ContainerName;
  }

  predicate Startable(i: Option<Container>) {
    i.None? || i.value.status == Running || i.value.status == Exited
  }

  /** Undisturbed, `start` succeeds exactly when the service loads and its container is running,
      exited or absent. A container that was created but never started, or is paused or
      restarting, is met with a second `docker run` under the same name, which docker refuses. */
  lemma StartSucceedsExactly(s: Sys, name: string)
    requires s.script == Calm && s.alive && name != "" && '/' !in name
    ensures var (s', r) := Starting(s, name);
      var c := At(s.w.containers, ContainerName(name));
      && (r.Success? <==> Load(s.w, name).Loaded? && Startable(c))
      && (r.Success? ==> ContainerName(name) in s'.w.containers && s'.w.containers[ContainerName(name)].status == Running)
      && (r.Success? && c.None? ==> InStep(s'.w, name))
      && (r.Success? && c.Some? ==> At(s'.w.containers, ContainerName(name)) == Some(c.value.(status := Running)))
      && OnlyContainer(s.w, s'.w, ContainerName(name))
      && (r.Failure? ==> s'.w == s.w)
      && (Load(s.w, name).NotLoaded? ==> r == Failure(ErrLoad(Load(s.w, name).error)))
      && (r.Failure? && Load(s.w, name).Loaded? ==> r == Failure(ErrRun))
  {
    hide Load, FromRequest;
    SameFilesSameLoad(s.w, Starting(s, name).0.w, name);
    if Load(s.w, name).Loaded? { RunsAs(StartRun(name, Load(s.w, name).service)); }
  }

  /** Under any faults: a `start` whose Load or inspection fails changes nothing and says so. One
      that runs the registered container anew, or starts one that exited, leaves what that call
      left; a running container is success without a call, any other a conflict. */
  lemma StartReports(s: Sys, name: string)
    requires name != "" && '/' !in name
    ensures var (s', r) := Starting(s, name);
      var c := ContainerName(name);
      var (s1, l) := Loading(s, name);
      var look, call := Draw(s1).0, Draw(Host.Inspect(s1, c).0).0;
      var before, after := At(s.w.containers, c), At(s'.w.containers, c);
      && OnlyContainer(s.w, s'.w, c)
      && if l.NotLoaded? then s'.w == s.w && r == Failure(ErrLoad(l.error))
         else if !look.Fine? then s'.w == s.w && r == Failure(ErrRun)
         else if before.None? then
           after == RunLeaves(StartRun(name, l.service), EffectOf(call)) && r == (if call.Fine? then Success else Failure(ErrRun))
         else if before.value.status == Running then after == before && r == Success
         else if before.value.status == Exited then
           && after == Some(if EffectOf(call).Done? then before.value.(status := Running) else before.value)
           && r == (if call.Fine? then Success else Failure(ErrRun))
         else after == before && r == Failure(ErrRun)
  {
    hide Loading, ContainerName, FromRequest;
  }

  /** Under any faults: `restart` is a stop and, unless that failed, a start; that there was no
      container is no failure. */
  lemma RestartReports(s: Sys, name: string)
    ensures var (s', r) := Restarting(s, name);
      var (s1, o) := DockerStop(s, ContainerName(name));
      if o.Failed? then s' == s1 && r == Failure(ErrRun) else (s', r) == Starting(s1, name)
  {
    hide Starting, DockerStop, ContainerName;
  }

  /** Undisturbed, `restart` succeeds exactly when the service loads and its container is not
      one that never started. When the service does not load it still stops the container: a
      running service with lost secrets ends stopped. */
  lemma RestartSucceedsExactly(s: Sys, name: string)
    requires s.script == Calm && s.alive && name != "" && '/' !in name
    ensures var (s', r) := Restarting(s, name);
      var c := At(s.w.containers, ContainerName(name));
      && (r.Success? <==> Load(s.w, name).Loaded? && (c.Some? ==> c.value.status != Created))
      && (r.Success? ==> ContainerName(name) in s'.w.containers && s'.w.containers[ContainerName(name)].status == Running)
      && (Load(s.w, name).NotLoaded? && c.Some? && c.value.status == Running ==>
          r.Failure? && ContainerName(name) in s'.w.containers && s'.w.containers[ContainerName(name)].status == Exited)
      && (Load(s.w, name).NotLoaded? ==> r == Failure(ErrLoad(Load(s.w, name).error)))
      && (r.Failure? && Load(s.w, name).Loaded? ==> r == Failure(ErrRun))
  {
    hide Load, ContainerName, FromRequest, Starting;
    var s1 := Stopping(s, name).0;
    assert s1.script == Calm && s1.alive;
    SameFilesSameLoad(s.w, s1.w, name);
    StartSucceedsExactly(s1, name);
    var c := At(s.w.containers, ContainerName(name));
    if Load(s.w, name).NotLoaded? && c.Some? && c.value.status == Running {
      assert s1.w.containers[ContainerName(name)] == Stopped(c.value);
      assert Restarting(s, name) == Starting(s1, name);
    }
  }

  // ---------------------------------------------------------------- unregister

  lemma UnregisterKeeps(os: Platform, s: Sys, name: string)
    ensures var w' := Unregistering(os, s, name).0.w;
      OnlyService(s.w, w', name) && (Sound(s.w) ==> Sound(w'))
  {
    hide DockerStop, DockerRemove, Deleting, Publishing, OnlyService, Loading;
    var (s1, l) := Loading(s, name);
    var c := ContainerName(name);
    var s2 := DockerStop(s1, c).0;
    var s3 := DockerRemove(s2, c).0;
    ContainerLocal(s.w, s1.w, name, true);
    ContainerLocal(s1.w, s2.w, name, true);
    ContainerLocal(s2.w, s3.w, name, true);
    LocalChain(s1.w, s2.w, s3.w, name, true);
    var s4 := Deleting(s3, name).0;
    DeleteLocal(s3, name);
    LocalChain(s1.w, s3.w, s4.w, name, true);
    PublishKeepsRegistry(os, s4);
    SameParts(s.w, s4.w, Publishing(os, s4).0.w, name, true);
  }

  lemma DeleteLocal(s: Sys, name: string)
    ensures Local(s.w, Deleting(s, name).0.w, name, true)
  {
    hide Deleting, PublishedPart, Sound;
    DeleteCrashSafe(s, name);
    if Sound(s.w) { DeleteKeepsSound(s, name); }
  }

  lemma {:induction false} LoadEachLoads(w: World, names: seq<string>)
    ensures forall svc :: svc in LoadEach(w, names) ==> svc.config.name in names && Load(w, svc.config.name) == Loaded(svc)
  {
    hide Load;
    if names != [] {
      LoadEachLoads(w, names[1..]);
      LoadedIsNamed(w, names[0]);
    }
  }

  lemma {:induction false} SubsequenceMembers<T(!new)>(a: seq<T>, b: seq<T>)
    requires Subsequence(a, b)
    ensures forall x :: x in a ==> x in b
    decreases |b|
  {
    if a != [] {
      if a[0] == b[0] && Subsequence(a[1..], b[1..]) {
        SubsequenceMembers(a[1..], b[1..]);
        assert a == [a[0]] + a[1..];
      } else {
        SubsequenceMembers(a, b[1..]);
      }
    }
  }

  lemma {:induction false} SitesComeFrom(rows: seq<Caddyfile.Row>, site: Caddyfile.Site)
    requires site in Caddyfile.FlatMap(rows, Caddyfile.RowSites)
    ensures exists r :: r in rows && r.container == site.container && site.host in r.hosts
  {
    if site in Caddyfile.RowSites(rows[0]) {
      assert rows[0] in rows;
    } else {
      SitesComeFrom(rows[1..], site);
    }
  }

  /** Every site of a rendering proxies to the container of one of the services given. */
  lemma SiteUpstreams(services: seq<Service>, site: Caddyfile.Site)
    requires site in Caddyfile.Sites(services)
    ensures exists svc :: svc in services && site.container == Caddyfile.Upstream(svc.config)
  {
    hide Text.Sort;
    SitesComeFrom(Caddyfile.Normalize(services), site);
    var r :| r in Caddyfile.Normalize(services) && r.container == site.container;
    MembersOf(Caddyfile.Normalize(services), Caddyfile.Rows(services));
    Caddyfile.RowsComeFrom(services, r);
    var i :| 0 <= i < |services| && r in Caddyfile.RowIfRouted(services[i]);
    assert services[i] in services;
  }

  /** No site block of the rendering proxies to the service's container. */
  ghost predicate Avoids(seen: seq<Service>, name: string) {
    forall site :: site in Caddyfile.Sites(seen) ==> site.container != ContainerName(name)
  }

  /** In a sound registry nothing that loads proxies to a name whose config is gone. */
  lemma NoRouteTo(w: World, seen: seq<Service>, name: string)
    requires Sound(w) && Subsequence(seen, Loadable(w)) && ConfigAt(w, name) == None
    ensures Avoids(seen, name)
  {
    hide Load, Names, LoadEach, Caddyfile.Sites, Subsequence;
    forall site | site in Caddyfile.Sites(seen) ensures site.container != ContainerName(name) {
      SiteUpstreams(seen, site);
      var svc :| svc in seen && site.container == Caddyfile.Upstream(svc.config);
      SubsequenceMembers(seen, Loadable(w));
      LoadEachLoads(w, Names(w.services));
      var m := svc.config.name;
      assert SoundName(w, m);
      SoundLoads(w, m);
      NotRegisteredWithout(w, name);
      ContainerNameInjective(m, name);
      assert Caddyfile.Upstream(svc.config) == ContainerName(m);
    }
  }

  /** When Unregister succeeds, whatever faults it met on the way, both files are gone, Caddy's
      running configuration and the live file agree, and no site proxies to the container. */
  lemma UnregisterRemovesRoutes(os: Platform, s: Sys, name: string)
    requires Sound(s.w)
    ensures var (s', r) := Unregistering(os, s, name);
      r.Success? ==>
        && ConfigAt(s'.w, name) == None && name !in s'.w.secrets
        && exists seen :: Subsequence(seen, Loadable(s'.w)) && Agrees(s'.w, Caddyfile.Render(seen)) && Avoids(seen, name)
  {
    hide DockerStop, DockerRemove, Deleting, Publishing, Loading, Loadable, Agrees, Subsequence, Sound, Listing,
      Caddyfile.Render, Caddyfile.Sites, ReadsHold;
    UnregisterKeeps(os, s, name);
    var c := ContainerName(name);
    var s3 := DockerRemove(DockerStop(Loading(s, name).0, c).0, c).0;
    DeleteCrashSafe(s3, name);
    var s4 := Deleting(s3, name).0;
    if Unregistering(os, s, name).1.Success? {
      StoresAgree(os, s4);
      PublishKeepsRegistry(os, s4);
      NoRouteTo(Publishing(os, s4).0.w, Listing(s4).1.value, name);
    }
  }

  /** Undisturbed, Unregister succeeds exactly when the service is registered (its secrets may be
      missing), no temporary file is left among its secrets, and Caddy accepts the file without
      it. Then its container is gone as well. */
  lemma UnregisterSucceedsExactly(os: Platform, s: Sys, name: string)
    requires s.script == Calm && s.alive && Sound(s.w) && CaddySound(os, s.w)
    ensures var (s', r) := Unregistering(os, s, name);
      && (r.Success? <==>
          && ConfigAt(s.w, name).Some?
          && (name in s.w.secrets ==> s.w.secrets[name].files.Keys <= {ENV_FILE})
          && os.accepts(Caddyfile.Render(Loadable(s'.w))))
      && (ConfigAt(s.w, name).Some? ==> ContainerName(name) !in s'.w.containers)
      && (r.Failure? ==>
          if ConfigAt(s.w, name) == None then r.error == ErrLoad(NotRegistered)
          else if name in s.w.secrets && !(s.w.secrets[name].files.Keys <= {ENV_FILE}) then r.error == ErrDelete
          else r.error == ErrCaddyReload(ValidatingStep))
  {
    hide Deleting, Publishing, Load, Loadable, Agrees, CaddySound, Sound, ContainerName, Caddyfile.Render;
    assert SoundName(s.w, name) by { SoundAt(s.w, name); }
    SoundLoads(s.w, name);
    var c := ContainerName(name);
    var s3 := DockerRemove(DockerStop(s, c).0, c).0;
    assert s3.script == Calm && s3.alive && c !in s3.w.containers;
    DeleteSucceedsExactly(s3, name);
    DeleteCrashSafe(s3, name);
    var (s4, deleted) := Deleting(s3, name);
    if deleted {
      SameCaddy(os, s.w, s4.w);
      PublishSucceedsExactly(os, s4);
      PublishesExactly(os, s4);
      PublishKeepsRegistry(os, s4);
      LoadableSame(s4.w, Publishing(os, s4).0.w);
    }
  }

  /** Under any faults, the reply of Unregister tells how far it came: a Load error that nothing
      happened, a delete error that the config is still there, and success or an error of the
      Caddyfile step that both files are gone. */
  lemma UnregisterReports(os: Platform, s: Sys, name: string)
    ensures var (s', r) := Unregistering(os, s, name);
      match r
      case Success => ConfigAt(s'.w, name) == None && name !in s'.w.secrets
      case Failure(ErrLoad(e)) => s'.w == s.w && e != SecretsMissing && Loading(s, name).1 == NotLoaded(e)
      case Failure(ErrDelete) => s'.alive ==> ConfigAt(s'.w, name) == ConfigAt(s.w, name)
      case Failure(e) => PublicationError(e) && ConfigAt(s'.w, name) == None && name !in s'.w.secrets
  {
    hide DockerStop, DockerRemove, Deleting, Publishing, Loading;
    var c := ContainerName(name);
    var s3 := DockerRemove(DockerStop(Loading(s, name).0, c).0, c).0;
    DeleteCrashSafe(s3, name);
    var s4 := Deleting(s3, name).0;
    PublishKeepsRegistry(os, s4);
    PublicationErrors(os, s4);
  }

  lemma PublicationErrors(os: Platform, s: Sys)
    ensures var r := Publishing(os, s).1; r.Failure? ==> PublicationError(r.error)
  {
    hide Listing, Staging, WritingStub, Rename, Remove, Reloading, Validating, Caddyfile.Render;
  }

  lemma SoundAt(w: World, name: string)
    requires Sound(w)
    ensures SoundName(w, name)
  {
  }

  lemma LoadableSame(w: World, w': World)
    requires w' == w.(caddy := w'.caddy, loaded := w'.loaded)
    ensures Loadable(w') == Loadable(w)
  {
    SameLoads(w, w', Names(w.services));
  }

  /** Failures of stop and rm are only logged. Over all faults, a successful Unregister leaves
      the container behind exactly when the rm took no effect, either of itself or because the
      stop took none and docker refuses to remove a container that still runs. What stays is
      the container as it was, or stopped, with no registration to reach it by. */
  lemma UnregisterLeavesContainerExactly(os: Platform, s: Sys, name: string)
    ensures var (s', r) := Unregistering(os, s, name);
      var c := ContainerName(name);
      var s1 := Loading(s, name).0;
      var stop := EffectOf(Draw(s1).0).Done?;
      var rm := EffectOf(Draw(DockerStop(s1, c).0).0).Done?;
      var before := At(s.w.containers, c);
      var after := At(s'.w.containers, c);
      r.Success? ==>
        && (after.Some? <==> before.Some? && (!rm || (!stop && !Removable(before.value))))
        && (after.Some? ==> after.value == if stop then Stopped(before.value) else before.value)
        && Load(s'.w, name) == NotLoaded(NotRegistered)
  {
    hide Deleting, Publishing, Load, ContainerName;
    var c := ContainerName(name);
    var s1 := Loading(s, name).0;
    var s3 := DockerRemove(DockerStop(s1, c).0, c).0;
    DeleteCrashSafe(s3, name);
    var (s4, deleted) := Deleting(s3, name);
    PublishKeepsRegistry(os, s4);
    if deleted { NotRegisteredWithout(Publishing(os, s4).0.w, name); }
  }

  /** It does happen: with both calls failing, a running container outlives a successful
      Unregister of any registered service, as soon as Caddy accepts the file. */
  lemma UnregisterCanLeaveContainer(os: Platform, s: Sys, name: string)
    requires s.alive && s.script == Then(Fine, Then(Fail(false, Nothing), Then(Fail(false, Nothing), Calm)))
    requires Sound(s.w) && CaddySound(os, s.w) && Load(s.w, name).Loaded?
    requires s.w.secrets[name].files.Keys <= {ENV_FILE}
    ensures var (s', r) := Unregistering(os, s, name);
      && (r.Success? <==> os.accepts(Caddyfile.Render(Loadable(s'.w))))
      && s'.w.containers == s.w.containers
      && Load(s'.w, name) == NotLoaded(NotRegistered)
  {
    hide Deleting, Publishing, Load, Loadable, Agrees, CaddySound, Sound, ContainerName, Caddyfile.Render;
    var c := ContainerName(name);
    var s1 := Loading(s, name).0;
    assert s1.script == Then(Fail(false, Nothing), Then(Fail(false, Nothing), Calm));
    var s2 := DockerStop(s1, c).0;
    assert s2.script == Then(Fail(false, Nothing), Calm) && s2.w == s.w;
    var s3 := DockerRemove(s2, c).0;
    assert s3.script == Calm && s3.w == s.w && s3.alive;
    DeleteSucceedsExactly(s3, name);
    DeleteCrashSafe(s3, name);
    var (s4, deleted) := Deleting(s3, name);
    SameCaddy(os, s.w, s4.w);
    PublishSucceedsExactly(os, s4);
    PublishKeepsRegistry(os, s4);
    var w' := Publishing(os, s4).0.w;
    LoadableSame(s4.w, w');
    NotRegisteredWithout(w', name);
  }

  // ---------------------------------------------------------------- status

  /** A row without a container behind it: config-only, or an error. */
  predicate Broken(r: Row) { r.state == ConfigOnly || r.state == InError }

  /** Undisturbed, `status` tells the truth about a service that loads: running, stopped and
      absent mean exactly that of its container, and the deploy shown is the registered one. */
  lemma StatusTells(s: Sys, name: string)
    requires s.script == Calm && s.alive && Load(s.w, name).Loaded?
    ensures var st := Statusing(s, name).1;
      var c := At(s.w.containers, ContainerName(name));
      && st.Reported? && st.row.name == name
      && st.row.deployID == Load(s.w, name).service.config.lastDeployID
      && (st.row.state == IsRunning <==> c.Some? && c.value.status == Running)
      && (st.row.state == IsStopped <==> c.Some? && c.value.status == Exited)
      && (st.row.state == IsAbsent <==> c.None?)
  {
    hide Load, ContainerName;
    LoadedIsNamed(s.w, name);
  }

  /** The row an operator should see for a name with a config file, given whether its files could
      be read and its container be inspected. */
  function RightRow(w: World, name: string, read: bool, inspected: bool): Row {
    if !read || Corrupt(w, name) then Row(name, InError, "")
    else if name + ".toml" !in w.services || LacksSecrets(w, name) then Row(name, ConfigOnly, "")
    else if !inspected then Row(name, InError, "")
    else
      Row(name,
          if "decloud-" + name !in w.containers then IsAbsent
          else
            match w.containers["decloud-" + name].status
            case Running => IsRunning
            case Exited => IsStopped
            case _ => IsOther,
          ConfigOf(w, name).lastDeployID)
  }

  /** Whatever fails, StatusAll shows for a listed name just that row; a name without a config
      gets none. Status alone reports the error of its Load or its inspection. */
  lemma StatusExactly(s: Sys, name: string)
    ensures var (s', st) := Statusing(s, name);
      var read, inspected := Draw(s).0.Fine?, Draw(Call(s).0).0.Fine?;
      && s'.w == s.w
      && (s.script == Calm && s.alive ==> s' == s && read && inspected)
      && (RowsFor(name, st) == if read && name + ".toml" !in s.w.services then [] else [RightRow(s.w, name, read, inspected)])
      && (!read ==> st == Unreported(ErrLoad(ReadFailed)))
      && (read && Load(s.w, name).Loaded? && !inspected ==> st == Unreported(ErrRun))
      && (read && Load(s.w, name).NotLoaded? && Load(s.w, name).error != SecretsMissing ==>
          st == Unreported(ErrLoad(Load(s.w, name).error)))
      && (st.Reported? <==> RowsFor(name, st) != [] && RowsFor(name, st)[0].state != InError)
  {
    hide Load, Mounts.ValidMounts, GoodConfig, LacksSecrets, WholeSecrets;
    LoadExactly(s.w, name);
    LoadAdmits(s.w, name);
  }

  /** The right row for whatever could be read and inspected. */
  ghost predicate HonestRow(w: World, name: string, row: Row) {
    exists read, inspected :: row == RightRow(w, name, read, inspected)
  }

  /** One row per name, in the order of the names, whatever fails. */
  lemma {:induction false} OneRowEach(s: Sys, names: seq<string>)
    requires forall n :: n in names ==> n + ".toml" in s.w.services
    ensures var rows := StatusingEach(s, names).1;
      && |rows| == |names|
      && forall i :: 0 <= i < |names| ==>
          && HonestRow(s.w, names[i], rows[i])
          && (s.script == Calm && s.alive ==> rows[i] == RightRow(s.w, names[i], true, true))
    decreases |names|
  {
    hide Statusing, RowsFor, Load, Names, RightRow;
    if names != [] {
      StatusExactly(s, names[0]);
      var s1 := Statusing(s, names[0]).0;
      OneRowEach(s1, names[1..]);
      var rows := StatusingEach(s, names).1;
      var first := RightRow(s.w, names[0], Draw(s).0.Fine?, Draw(Call(s).0).0.Fine?);
      assert rows == [first] + StatusingEach(s1, names[1..]).1;
      forall i | 0 <= i < |names|
        ensures HonestRow(s.w, names[i], rows[i])
        ensures s.script == Calm && s.alive ==> rows[i] == RightRow(s.w, names[i], true, true)
      {
        if i == 0 {
          assert rows[0] == first;
        } else {
          assert rows[i] == StatusingEach(s1, names[1..]).1[i - 1] && names[i] == names[1..][i - 1];
        }
      }
    }
  }

  lemma RightRowFacts(w: World, name: string, read: bool, inspected: bool)
    ensures RightRow(w, name, read, inspected).name == name
    ensures name + ".toml" in w.services ==> (Broken(RightRow(w, name, true, true)) <==> Load(w, name).NotLoaded?)
  {
    hide Load, GoodConfig, LacksSecrets, WholeSecrets;
    LoadExactly(w, name);
    LoadAdmits(w, name);
  }

  /** `decloud status` shows exactly one row per config file, names strictly increasing, under
      any pattern of failures: the right one for whatever could be read and inspected.
      Undisturbed, the rows that are config-only or in error are exactly the names List skips,
      and none of them has a site block. */
  lemma TwoReadersAgree(s: Sys)
    ensures StatusingAll(s).1.Some? <==> Draw(s).0.Fine?
    ensures StatusingAll(s).1.Some? ==>
      var rows := StatusingAll(s).1.value;
      var names := Names(s.w.services);
      && |rows| == |names| && (forall i :: 0 <= i < |rows| ==> rows[i].name == names[i])
      && Increasing(names)
      && (forall n :: n in names <==> n + ".toml" in s.w.services && s.w.services[n + ".toml"].File?)
      && (forall i :: 0 <= i < |rows| ==> HonestRow(s.w, names[i], rows[i]))
      && (s.script == Calm && s.alive ==> forall i :: 0 <= i < |rows| ==> rows[i] == RightRow(s.w, names[i], true, true))
      && (s.script == Calm && s.alive ==> forall i :: 0 <= i < |rows| ==>
          (Broken(rows[i]) <==> forall svc :: svc in Loadable(s.w) ==> svc.config.name != rows[i].name))
      && (Sound(s.w) && s.script == Calm && s.alive ==> forall i :: 0 <= i < |rows| && Broken(rows[i]) ==>
          Avoids(Loadable(s.w), rows[i].name))
  {
    hide StatusingEach, Load, Caddyfile.Sites, Names, LoadEach, RightRow;
    var names := Names(s.w.services);
    var s1 := Call(s).0;
    forall n ensures n in names <==> n + ".toml" in s.w.services && s.w.services[n + ".toml"].File? {
      NamesAre(s.w.services, n);
    }
    OneRowEach(s1, names);
    var rows := StatusingEach(s1, names).1;
    forall i | 0 <= i < |rows| ensures rows[i].name == names[i]
      ensures s.script == Calm && s.alive ==> (Broken(rows[i]) <==> Load(s.w, names[i]).NotLoaded?)
    {
      assert HonestRow(s.w, names[i], rows[i]);
      var read, inspected :| rows[i] == RightRow(s.w, names[i], read, inspected);
      RightRowFacts(s.w, names[i], read, inspected);
    }
    LoadEachLoads(s.w, names);
    forall n | n in names && Load(s.w, n).Loaded?
      ensures exists svc :: svc in Loadable(s.w) && svc.config.name == n
    {
      LoadEachAll(s.w, names, n);
      LoadedIsNamed(s.w, n);
      assert Load(s.w, n).service in Loadable(s.w);
    }
    if Sound(s.w) {
      forall i | 0 <= i < |rows| && Load(s.w, rows[i].name).NotLoaded? ensures Avoids(Loadable(s.w), rows[i].name) {
        NoRouteToUnloaded(s.w, rows[i].name);
      }
    }
  }

  lemma NamesAre(d: Dir, n: string)
    ensures n in Names(d) <==> ConfigFile(n) in d && d[ConfigFile(n)].File?
  {
    ListedIff(d, n);
  }

  lemma {:induction false} LoadEachAll(w: World, names: seq<string>, n: string)
    requires n in names && Load(w, n).Loaded?
    ensures Load(w, n).service in LoadEach(w, names)
  {
    hide Load;
    if names[0] != n { LoadEachAll(w, names[1..], n); }
  }

  lemma NoRouteToUnloaded(w: World, name: string)
    requires Sound(w) && Load(w, name).NotLoaded?
    ensures Avoids(Loadable(w), name)
  {
    hide Load, Names, LoadEach, Caddyfile.Sites;
    LoadEachLoads(w, Names(w.services));
    forall site | site in Caddyfile.Sites(Loadable(w)) ensures site.container != ContainerName(name) {
      SiteUpstreams(Loadable(w), site);
      var svc :| svc in Loadable(w) && site.container == Caddyfile.Upstream(svc.config);
      SoundAt(w, svc.config.name);
      SoundLoads(w, svc.config.name);
      ContainerNameInjective(svc.config.name, name);
      assert Caddyfile.Upstream(svc.config) == ContainerName(svc.config.name);
    }
  }
}
