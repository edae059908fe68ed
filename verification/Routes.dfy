/** From the hosts of a request to the site blocks Caddy serves. */
module Routes {
  import opened Text
  import opened Types
  import opened Host
  import opened Registry
  import opened RegistryLaws
  import opened Orchestrator
  import opened DeployLaws
  import opened DeployTheorems
  import opened LifecycleLaws
  import Caddyfile

  lemma {:induction false} FlatMapMembers<A, B(!new)>(xs: seq<A>, f: A -> seq<B>, y: B)
    ensures y in Caddyfile.FlatMap(xs, f) <==> exists i :: 0 <= i < |xs| && y in f(xs[i])
  {
    if xs != [] {
      FlatMapMembers(xs[1..], f, y);
      if y in Caddyfile.FlatMap(xs, f) && y !in f(xs[0]) {
        var i :| 0 <= i < |xs[1..]| && y in f(xs[1..][i]);
        assert xs[i + 1] == xs[1..][i];
      }
      if i :| 0 <= i < |xs| && y in f(xs[i]) {
        if i > 0 { assert xs[1..][i - 1] == xs[i]; }
      }
    }
  }

  /** The sites of a rendering are the ones its services declare. */
  lemma SitesDeclared(services: seq<Service>, site: Caddyfile.Site)
    ensures site in Caddyfile.Sites(services) <==> exists i :: 0 <= i < |services| && site in Caddyfile.DeclaredSites(services[i])
  {
    hide Caddyfile.Sites, Caddyfile.DeclaredSites, Caddyfile.FlatMap;
    Caddyfile.SitesConserved(services);
    MembersOf(Caddyfile.Sites(services), Caddyfile.FlatMap(services, Caddyfile.DeclaredSites));
    FlatMapMembers(services, Caddyfile.DeclaredSites, site);
  }

  /** The site a service asks for on one of its hosts. */
  predicate Wanted(svc: Service, site: Caddyfile.Site) {
    && site.host in svc.config.routes && site.host != ""
    && site == Caddyfile.Site(site.host, Caddyfile.Upstream(svc.config), svc.config.port, !svc.config.disableCompression)
  }

  lemma DeclaredIsWanted(svc: Service, site: Caddyfile.Site)
    ensures site in Caddyfile.DeclaredSites(svc) <==> Wanted(svc, site)
  {
    hide Caddyfile.NonEmpty;
    var hosts := Caddyfile.NonEmpty(svc.config.routes);
    Caddyfile.NonEmptyKeeps(svc.config.routes, site.host);
    if Wanted(svc, site) {
      var i :| 0 <= i < |hosts| && hosts[i] == site.host;
      assert Caddyfile.DeclaredSites(svc)[i] == site;
    }
  }

  /** In a sound registry the sites that proxy to a loaded service's container are exactly the
      ones it asks for. */
  lemma SitesOfService(w: World, name: string, site: Caddyfile.Site)
    requires Sound(w) && Load(w, name).Loaded?
    ensures site in Caddyfile.Sites(Loadable(w)) && site.container == ContainerName(name) <==> Wanted(Load(w, name).service, site)
  {
    hide Load, Names, LoadEach, Caddyfile.Sites, Caddyfile.DeclaredSites, Wanted;
    var services, own := Loadable(w), Load(w, name).service;
    SitesDeclared(services, site);
    LoadEachLoads(w, Names(w.services));
    UpstreamOf(w, name);
    if site in Caddyfile.Sites(services) && site.container == ContainerName(name) {
      var i :| 0 <= i < |services| && site in Caddyfile.DeclaredSites(services[i]);
      var svc := services[i];
      assert svc in services;
      DeclaredIsWanted(svc, site);
      UpstreamOf(w, svc.config.name);
      WantedContainer(svc, site);
      ContainerNameInjective(svc.config.name, name);
      assert svc == own;
    }
    if Wanted(own, site) {
      LoadedIsListed(w, name);
      LoadEachAll(w, Names(w.services), name);
      var i :| 0 <= i < |services| && services[i] == own;
      DeclaredIsWanted(own, site);
      WantedContainer(own, site);
    }
  }

  lemma WantedContainer(svc: Service, site: Caddyfile.Site)
    requires Wanted(svc, site)
    ensures site.container == Caddyfile.Upstream(svc.config)
  {
  }

  lemma LoadedIsListed(w: World, name: string)
    requires Load(w, name).Loaded?
    ensures name in Names(w.services)
  {
    hide Names;
    NamesAre(w.services, name);
  }

  lemma UpstreamOf(w: World, name: string)
    requires Sound(w) && Load(w, name).Loaded?
    ensures Caddyfile.Upstream(Load(w, name).service.config) == ContainerName(name)
    ensures Load(w, name).service.config.name == name
  {
    hide Load;
    SoundAt(w, name);
    SoundLoads(w, name);
  }

  /** After an undisturbed deploy that succeeds, Caddy is running a file in which the blocks that
      proxy to the service's container are exactly its non-empty hosts, each on the requested
      port and with the requested compression; a reader of the file finds just those. */
  lemma DeployedRoutesAreServed(os: Platform, s: Sys, req: Request, site: Caddyfile.Site)
    requires s.script == Calm && s.alive
    requires Sound(s.w) && CaddySound(os, s.w) && CliRequest(req)
    ensures var (s', r) := Deploying(os, s, req);
      var w' := s'.w;
      var sites := Caddyfile.Sites(Loadable(w'));
      r.Success? ==>
        && w'.loaded == Some(Caddyfile.Render(Loadable(w')))
        && (site in sites && site.container == ContainerName(req.name) <==>
            && site.host in req.hosts && site.host != ""
            && site == Caddyfile.Site(site.host, ContainerName(req.name), req.port, !req.disableCompression))
        && (Caddyfile.Printable(Loadable(w')) ==> Caddyfile.ParseCaddyfile(w'.loaded.value) == Some(sites))
  {
    hide Deploying, Sound, CaddySound, CliRequest, Gate, InStep, Load, Loadable, Wanted, OnlyService, Caddyfile.Sites,
      Caddyfile.Render, Caddyfile.ParseCaddyfile, Caddyfile.Printable;
    Converges(os, s, req);
    SuccessKeepsSound(os, s, req);
    var w' := Deploying(os, s, req).0.w;
    if Deploying(os, s, req).1.Success? { SitesOfService(w', req.name, site); }
    WantedByRequest(req, site);
    if Caddyfile.Printable(Loadable(w')) { Caddyfile.RenderReadsBack(Loadable(w')); }
  }

  lemma WantedByRequest(req: Request, site: Caddyfile.Site)
    ensures Wanted(ServiceOf(req), site) <==>
      && site.host in req.hosts && site.host != ""
      && site == Caddyfile.Site(site.host, ContainerName(req.name), req.port, !req.disableCompression)
  {
  }
}
