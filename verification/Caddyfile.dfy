/** internal/caddy/generator.go and stub.go: the Caddyfile rendered from the registered
    services. */
module Caddyfile {
  import opened Text
  import opened Types

  datatype Row = Row(service: string, container: string, port: int, hosts: seq<string>, disableCompression: bool)

  /** One site block as Caddy sees it. */
  datatype Site = Site(host: string, container: string, port: int, encode: bool)

  const STUB :=
    "# decloud Caddyfile stub — no services registered yet.\n:80 {\n    respond \"no services registered yet\" 404\n}\n"

  // ---------------------------------------------------------------- mapping over lists

  function FlatMap<A, B>(xs: seq<A>, f: A -> seq<B>): seq<B> {
    if xs == [] then [] else f(xs[0]) + FlatMap(xs[1..], f)
  }

  lemma {:induction false} FlatMapAppend<A, B>(xs: seq<A>, ys: seq<A>, f: A -> seq<B>)
    ensures FlatMap(xs + ys, f) == FlatMap(xs, f) + FlatMap(ys, f)
  {
    if xs == [] {
      assert xs + ys == ys;
    } else {
      assert (xs + ys)[1..] == xs[1..] + ys;
      FlatMapAppend(xs[1..], ys, f);
    }
  }

  lemma FlatMapOne<A, B>(x: A, f: A -> seq<B>)
    ensures FlatMap([x], f) == f(x)
  {
  }

  /** Permuting the inputs permutes the outputs. */
  lemma {:induction false} FlatMapPermutes<A, B>(xs: seq<A>, ys: seq<A>, f: A -> seq<B>)
    requires multiset(xs) == multiset(ys)
    ensures multiset(FlatMap(xs, f)) == multiset(FlatMap(ys, f))
  {
    MembersOf(xs, ys);
    if xs != [] {
      var x := xs[0];
      assert x in ys;
      var i :| 0 <= i < |ys| && ys[i] == x;
      var rest := ys[..i] + ys[i + 1..];
      assert xs == [x] + xs[1..];
      assert ys == ys[..i] + [x] + ys[i + 1..];
      assert multiset(rest) == multiset(ys) - multiset{x};
      assert multiset(xs[1..]) == multiset(xs) - multiset{x};
      FlatMapPermutes(xs[1..], rest, f);
      FlatMapAppend(ys[..i], ys[i + 1..], f);
      FlatMapAppend(ys[..i] + [x], ys[i + 1..], f);
      FlatMapAppend(ys[..i], [x], f);
      FlatMapOne(x, f);
    }
  }

  // ---------------------------------------------------------------- normalisation

  function NonEmpty(routes: seq<string>): seq<string> {
    FlatMap(routes, KeepHost)
  }

  function KeepHost(h: string): seq<string> { if h == "" then [] else [h] }

  function Upstream(c: ServiceConfig): string {
    if c.containerName == "" then "decloud-" + c.name else c.containerName
  }

  function RowOf(s: Service): Row {
    Row(s.config.name, Upstream(s.config), s.config.port, Sort(NonEmpty(s.config.routes), Self),
        s.config.disableCompression)
  }

  function RowIfRouted(s: Service): seq<Row> {
    if NonEmpty(s.config.routes) == [] then [] else [RowOf(s)]
  }

  function RowName(r: Row): string { r.service }

  function Rows(services: seq<Service>): seq<Row> { FlatMap(services, RowIfRouted) }

  function Normalize(services: seq<Service>): seq<Row> { Sort(Rows(services), RowName) }

  ghost predicate DistinctNames(services: seq<Service>) {
    forall i, j :: 0 <= i < j < |services| ==> services[i].config.name != services[j].config.name
  }

  lemma {:induction false} RowsComeFrom(services: seq<Service>, r: Row)
    requires r in Rows(services)
    ensures exists i :: 0 <= i < |services| && r in RowIfRouted(services[i])
  {
    if r !in RowIfRouted(services[0]) {
      RowsComeFrom(services[1..], r);
      var i :| 0 <= i < |services[1..]| && r in RowIfRouted(services[1..][i]);
      assert services[i + 1] == services[1..][i];
    }
  }

  lemma DistinctRows(services: seq<Service>)
    requires DistinctNames(services)
    ensures KeyIdentifies(Rows(services), RowName)
  {
    hide Text.Sort, Rows, NonEmpty, Upstream;
    forall x, y | x in Rows(services) && y in Rows(services) && RowName(x) == RowName(y) ensures x == y {
      RowsComeFrom(services, x);
      RowsComeFrom(services, y);
      var i :| 0 <= i < |services| && x in RowIfRouted(services[i]);
      var j :| 0 <= j < |services| && y in RowIfRouted(services[j]);
    }
  }

  // ---------------------------------------------------------------- the text

  const HEADER: seq<string> := [
    "# Caddyfile generated by decloud — do not edit by hand.",
    "# Re-run `decloud caddy reload` to refresh.",
    "",
    "{",
    "    servers {",
    "        protocols h1 h2",
    "    }",
    "}"]

  const ENCODE := "    encode zstd gzip"
  const PROXY := "    reverse_proxy "

  function BlockLines(host: string, container: string, port: int, disableCompression: bool): seq<string> {
    [host + " {"]
    + (if disableCompression then [] else [ENCODE])
    + [PROXY + container + ":" + DecInt(port), "}"]
  }

  function HostLines(r: Row, hosts: seq<string>): seq<string> {
    if hosts == [] then []
    else BlockLines(hosts[0], r.container, r.port, r.disableCompression) + HostLines(r, hosts[1..])
  }

  function RowLines(r: Row): seq<string> { [""] + HostLines(r, r.hosts) }

  function DocumentLines(rows: seq<Row>): seq<string> { HEADER + FlatMap(rows, RowLines) }

  function Line(s: string): string { s + "\n" }

  function Document(rows: seq<Row>): string { FlatMap(DocumentLines(rows), Line) }

  /** The Caddyfile for a list of services. */
  function Render(services: seq<Service>): string { Document(Normalize(services)) }

  lemma {:induction false} HostLinesAppend(r: Row, hosts: seq<string>, h: string)
    ensures HostLines(r, hosts + [h]) == HostLines(r, hosts) + BlockLines(h, r.container, r.port, r.disableCompression)
  {
    hide BlockLines;
    if hosts == [] {
      assert [h][1..] == [];
    } else {
      assert (hosts + [h])[1..] == hosts[1..] + [h];
      HostLinesAppend(r, hosts[1..], h);
    }
  }

  /** The file for one service with one host, line by line. */
  lemma OneServiceText(s: Service, host: string)
    requires s.config.routes == [host] && host != ""
    ensures Render([s]) == FlatMap(
      [ "# Caddyfile generated by decloud — do not edit by hand.",
        "# Re-run `decloud caddy reload` to refresh.",
        "",
        "{",
        "    servers {",
        "        protocols h1 h2",
        "    }",
        "}" ]
      + ["", host + " {"]
      + (if s.config.disableCompression then [] else ["    encode zstd gzip"])
      + ["    reverse_proxy " + Upstream(s.config) + ":" + DecInt(s.config.port), "}"], Line)
  {
    hide Line, DecInt, Upstream, HEADER;
    OneRoute(host);
    var r := RowOf(s);
    assert r.hosts == [host];
    assert RowIfRouted(s) == [r];
    FlatMapOne(s, RowIfRouted);
    assert Normalize([s]) == [r];
    FlatMapOne(r, RowLines);
    OneHostLines(r, host);
    HeaderIs();
    Regroup(HEADER, ["", host + " {"], if r.disableCompression then [] else [ENCODE],
            [PROXY + r.container + ":" + DecInt(r.port), "}"], RowLines(r));
  }

  lemma Regroup(a: seq<string>, b: seq<string>, c: seq<string>, d: seq<string>, tail: seq<string>)
    requires tail == b + c + d
    ensures a + tail == a + b + c + d
  {
  }

  lemma OneHostLines(r: Row, host: string)
    requires r.hosts == [host]
    ensures RowLines(r) == [""] + BlockLines(host, r.container, r.port, r.disableCompression)
  {
    hide BlockLines;
    assert r.hosts[1..] == [];
    assert HostLines(r, r.hosts) == BlockLines(host, r.container, r.port, r.disableCompression) + HostLines(r, []);
  }

  lemma OneRoute(host: string)
    requires host != ""
    ensures NonEmpty([host]) == [host]
  {
    FlatMapOne(host, KeepHost);
  }

  lemma HeaderIs()
    ensures HEADER == [
      "# Caddyfile generated by decloud — do not edit by hand.",
      "# Re-run `decloud caddy reload` to refresh.",
      "",
      "{",
      "    servers {",
      "        protocols h1 h2",
      "    }",
      "}"]
  {
  }

  // ---------------------------------------------------------------- the program's loops

  /** `sort.Slice`: some arrangement of the rows with names in order. */
  method SortRows(rows: seq<Row>) returns (out: seq<Row>)
    ensures multiset(out) == multiset(rows) && SortedBy(out, RowName)
  {
    SortSorts(rows, RowName);
    out := Sort(rows, RowName);
  }

  /** The rows before they are sorted, one per service that has a hostname. */
  method CollectRows(services: seq<Service>) returns (out: seq<Row>)
    ensures out == Rows(services)
  {
    hide Text.Sort;
    out := [];
    for i := 0 to |services|
      invariant out == Rows(services[..i])
    {
      var c := services[i].config;
      var hosts := [];
      for j := 0 to |c.routes|
        invariant hosts == NonEmpty(c.routes[..j])
      {
        assert c.routes[..j + 1] == c.routes[..j] + [c.routes[j]];
        FlatMapAppend(c.routes[..j], [c.routes[j]], KeepHost);
        FlatMapOne(c.routes[j], KeepHost);
        if c.routes[j] != "" { hosts := hosts + [c.routes[j]]; }
      }
      assert c.routes[..|c.routes|] == c.routes;
      assert services[..i + 1] == services[..i] + [services[i]];
      FlatMapAppend(services[..i], [services[i]], RowIfRouted);
      FlatMapOne(services[i], RowIfRouted);
      if |hosts| != 0 {
        hosts := Sort(hosts, Self);
        var container := c.containerName;
        if container == "" { container := "decloud-" + c.name; }
        out := out + [Row(c.name, container, c.port, hosts, c.disableCompression)];
      }
    }
    assert services[..|services|] == services;
  }

  method PrintLine(buf: string, line: string, ghost lines: seq<string>) returns (r: string)
    requires buf == FlatMap(lines, Line)
    ensures r == FlatMap(lines + [line], Line)
  {
    FlatMapAppend(lines, [line], Line);
    FlatMapOne(line, Line);
    r := buf + line + "\n";
  }

  method PrintBlock(buf: string, r: Row, host: string, ghost lines: seq<string>) returns (out: string)
    requires buf == FlatMap(lines, Line)
    ensures out == FlatMap(lines + BlockLines(host, r.container, r.port, r.disableCompression), Line)
  {
    hide FlatMap;
    ghost var written := lines;
    out := PrintLine(buf, host + " {", written);
    written := written + [host + " {"];
    if !r.disableCompression {
      out := PrintLine(out, ENCODE, written);
      written := written + [ENCODE];
    }
    out := PrintLine(out, PROXY + r.container + ":" + DecInt(r.port), written);
    written := written + [PROXY + r.container + ":" + DecInt(r.port)];
    out := PrintLine(out, "}", written);
    written := written + ["}"];
    assert written == lines + BlockLines(host, r.container, r.port, r.disableCompression);
  }

  method PrintRow(buf: string, r: Row, ghost lines: seq<string>) returns (out: string)
    requires buf == FlatMap(lines, Line)
    ensures out == FlatMap(lines + RowLines(r), Line)
  {
    hide FlatMap, BlockLines;
    out := PrintLine(buf, "", lines);
    assert r.hosts[..0] == [] && lines + ([""] + HostLines(r, [])) == lines + [""];
    for j := 0 to |r.hosts|
      invariant out == FlatMap(lines + ([""] + HostLines(r, r.hosts[..j])), Line)
    {
      ghost var written := lines + ([""] + HostLines(r, r.hosts[..j]));
      out := PrintBlock(out, r, r.hosts[j], written);
      assert r.hosts[..j + 1] == r.hosts[..j] + [r.hosts[j]];
      HostLinesAppend(r, r.hosts[..j], r.hosts[j]);
      assert written + BlockLines(r.hosts[j], r.container, r.port, r.disableCompression)
        == lines + ([""] + HostLines(r, r.hosts[..j + 1]));
    }
    assert r.hosts[..|r.hosts|] == r.hosts;
  }

  method PrintLines(lines: seq<string>) returns (text: string)
    ensures text == FlatMap(lines, Line)
  {
    text := "";
    for i := 0 to |lines|
      invariant text == FlatMap(lines[..i], Line)
    {
      assert lines[..i + 1] == lines[..i] + [lines[i]];
      text := PrintLine(text, lines[i], lines[..i]);
    }
    assert lines[..|lines|] == lines;
  }

  lemma NothingMapped<A, B>(f: A -> seq<B>)
    ensures FlatMap([], f) == []
  {
  }

  method PrintDocument(rows: seq<Row>) returns (text: string)
    ensures text == Document(rows)
  {
    hide RowLines, Line, HEADER, FlatMap;
    NothingMapped(RowLines);
    text := PrintLines(HEADER);
    assert rows[..0] == [] && HEADER + FlatMap([], RowLines) == HEADER;
    for i := 0 to |rows|
      invariant text == FlatMap(HEADER + FlatMap(rows[..i], RowLines), Line)
    {
      ghost var lines := HEADER + FlatMap(rows[..i], RowLines);
      text := PrintRow(text, rows[i], lines);
      assert rows[..i + 1] == rows[..i] + [rows[i]];
      FlatMapAppend(rows[..i], [rows[i]], RowLines);
      FlatMapOne(rows[i], RowLines);
      assert lines + RowLines(rows[i]) == HEADER + FlatMap(rows[..i + 1], RowLines);
    }
    assert rows[..|rows|] == rows;
  }

  /** The text is the document of the rows in some name order; when the names differ, as they
      do for services read from a directory, it is Render. */
  method Generate(services: seq<Service>) returns (text: string)
    ensures exists rows :: multiset(rows) == multiset(Rows(services)) && SortedBy(rows, RowName) && text == Document(rows)
    ensures DistinctNames(services) ==> text == Render(services)
  {
    hide Document, Rows, Text.Sort;
    var rows := CollectRows(services);
    rows := SortRows(rows);
    text := PrintDocument(rows);
    if DistinctNames(services) {
      DistinctRows(services);
      SortSorts(Rows(services), RowName);
      MembersOf(rows, Rows(services));
      SortedUnique(rows, Sort(Rows(services), RowName), RowName);
    }
  }

  // ---------------------------------------------------------------- canonical form

  /** b is a with the routes of each service permuted. */
  ghost predicate RoutesPermuted(a: seq<Service>, b: seq<Service>) {
    && |a| == |b|
    && forall i :: 0 <= i < |a| ==>
      && multiset(a[i].config.routes) == multiset(b[i].config.routes)
      && b[i] == a[i].(config := a[i].config.(routes := b[i].config.routes))
  }

  lemma SameRow(a: Service, b: Service)
    requires multiset(a.config.routes) == multiset(b.config.routes)
    requires b == a.(config := a.config.(routes := b.config.routes))
    ensures RowIfRouted(a) == RowIfRouted(b)
  {
    hide Text.Sort, FlatMap;
    FlatMapPermutes(a.config.routes, b.config.routes, KeepHost);
    MembersOf(NonEmpty(a.config.routes), NonEmpty(b.config.routes));
    SortUnique(NonEmpty(a.config.routes), NonEmpty(b.config.routes), Self);
  }

  lemma {:induction false} SameRows(a: seq<Service>, b: seq<Service>)
    requires RoutesPermuted(a, b)
    ensures Rows(a) == Rows(b)
  {
    if a != [] {
      SameRow(a[0], b[0]);
      SameRows(a[1..], b[1..]);
    }
  }

  /** The rendering depends neither on the order in which services are read nor on the order
      of a service's routes. */
  lemma CanonicalForm(a: seq<Service>, mid: seq<Service>, b: seq<Service>)
    requires RoutesPermuted(a, mid) && multiset(mid) == multiset(b)
    requires DistinctNames(a)
    ensures Render(a) == Render(b)
  {
    SameRows(a, mid);
    FlatMapPermutes(mid, b, RowIfRouted);
    DistinctRows(a);
    SortUnique(Rows(a), Rows(b), RowName);
  }

  // ---------------------------------------------------------------- conservation

  function SiteOf(host: string, c: ServiceConfig): Site {
    Site(host, Upstream(c), c.port, !c.disableCompression)
  }

  /** One site per non-empty route, in the order the services declare them. */
  function DeclaredSites(s: Service): seq<Site> {
    var hosts := NonEmpty(s.config.routes);
    seq(|hosts|, i requires 0 <= i < |hosts| => SiteOf(hosts[i], s.config))
  }

  function HostSites(r: Row, hosts: seq<string>): seq<Site> {
    seq(|hosts|, i requires 0 <= i < |hosts| => Site(hosts[i], r.container, r.port, !r.disableCompression))
  }

  function RowSites(r: Row): seq<Site> { HostSites(r, r.hosts) }

  /** The site blocks of the rendered file, in file order. */
  function Sites(services: seq<Service>): seq<Site> { FlatMap(Normalize(services), RowSites) }

  function SitesFor(hosts: seq<string>, c: ServiceConfig): seq<Site> {
    seq(|hosts|, i requires 0 <= i < |hosts| => SiteOf(hosts[i], c))
  }

  function ToSite(c: ServiceConfig): string -> seq<Site> { h => [SiteOf(h, c)] }

  lemma {:induction false} SitesForMaps(hosts: seq<string>, c: ServiceConfig)
    ensures SitesFor(hosts, c) == FlatMap(hosts, ToSite(c))
  {
    if hosts != [] {
      SitesForMaps(hosts[1..], c);
      assert SitesFor(hosts, c) == [SiteOf(hosts[0], c)] + SitesFor(hosts[1..], c);
    }
  }

  lemma ServiceSitesConserved(s: Service)
    ensures multiset(FlatMap(RowIfRouted(s), RowSites)) == multiset(DeclaredSites(s))
  {
    hide Text.Sort, NonEmpty, Upstream;
    var hosts := NonEmpty(s.config.routes);
    if hosts == [] {
      assert DeclaredSites(s) == [];
    } else {
      FlatMapOne(RowOf(s), RowSites);
      SitesForMaps(hosts, s.config);
      SitesForMaps(Sort(hosts, Self), s.config);
      FlatMapPermutes(hosts, Sort(hosts, Self), ToSite(s.config));
      assert RowSites(RowOf(s)) == SitesFor(Sort(hosts, Self), s.config);
      assert DeclaredSites(s) == SitesFor(hosts, s.config);
    }
  }

  lemma {:induction false} RowSitesConserved(services: seq<Service>)
    ensures multiset(FlatMap(Rows(services), RowSites)) == multiset(FlatMap(services, DeclaredSites))
  {
    hide RowIfRouted, RowSites, DeclaredSites;
    if services != [] {
      RowSitesConserved(services[1..]);
      ServiceSitesConserved(services[0]);
      FlatMapAppend(RowIfRouted(services[0]), Rows(services[1..]), RowSites);
    }
  }

  /** Sorting loses and invents no site: the file has exactly one block per non-empty route,
      each with its own service's upstream, port and compression choice. */
  lemma SitesConserved(services: seq<Service>)
    ensures multiset(Sites(services)) == multiset(FlatMap(services, DeclaredSites))
  {
    RowSitesConserved(services);
    FlatMapPermutes(Normalize(services), Rows(services), RowSites);
  }

  /** The sites a service declares: one for each time a non-empty host is among its routes, to its
      container, by its recorded name or else the one made from the service's, on its port. */
  lemma DeclaredExactly(s: Service, site: Site)
    ensures multiset(DeclaredSites(s))[site] ==
      if site.host != "" && site.port == s.config.port && site.encode == !s.config.disableCompression
         && site.container == (if s.config.containerName != "" then s.config.containerName else "decloud-" + s.config.name)
      then multiset(s.config.routes)[site.host] else 0
  {
    var hosts := NonEmpty(s.config.routes);
    SitesForCount(hosts, s.config, site);
    assert DeclaredSites(s) == SitesFor(hosts, s.config);
    NonEmptyCount(s.config.routes, site.host);
  }

  lemma {:induction false} SitesForCount(hosts: seq<string>, c: ServiceConfig, site: Site)
    ensures multiset(SitesFor(hosts, c))[site] == if site == SiteOf(site.host, c) then multiset(hosts)[site.host] else 0
  {
    hide Upstream;
    if hosts != [] {
      SitesForCount(hosts[1..], c, site);
      assert hosts == [hosts[0]] + hosts[1..];
      assert SitesFor(hosts, c) == [SiteOf(hosts[0], c)] + SitesFor(hosts[1..], c);
    } else {
      assert SitesFor(hosts, c) == [];
    }
  }

  lemma {:induction false} NonEmptyCount(routes: seq<string>, h: string)
    ensures multiset(NonEmpty(routes))[h] == if h == "" then 0 else multiset(routes)[h]
  {
    if routes != [] {
      NonEmptyCount(routes[1..], h);
      assert routes == [routes[0]] + routes[1..];
      assert NonEmpty(routes) == KeepHost(routes[0]) + NonEmpty(routes[1..]);
    }
  }

  /** Within the file the rows stand in the byte order of the services' names, and the hosts of
      a row in byte order. */
  lemma RowsInOrder(services: seq<Service>)
    ensures forall i, j :: 0 <= i < j < |Normalize(services)| ==> Le(Normalize(services)[i].service, Normalize(services)[j].service)
    ensures forall r :: r in Normalize(services) ==>
      SortedBy(r.hosts, Self) && exists i :: 0 <= i < |services| && services[i].config.name == r.service
  {
    hide Text.Sort, NonEmpty, Rows;
    SortSorts(Rows(services), RowName);
    MembersOf(Normalize(services), Rows(services));
    forall i, j | 0 <= i < j < |Normalize(services)| ensures Le(Normalize(services)[i].service, Normalize(services)[j].service) {
      assert Le(RowName(Normalize(services)[i]), RowName(Normalize(services)[j]));
    }
    forall r | r in Normalize(services)
      ensures SortedBy(r.hosts, Self) && exists i :: 0 <= i < |services| && services[i].config.name == r.service
    {
      RowsComeFrom(services, r);
      var i :| 0 <= i < |services| && r in RowIfRouted(services[i]);
      SortSorts(NonEmpty(services[i].config.routes), Self);
    }
  }

  // ---------------------------------------------------------------- reading the file back

  /** `<upstream>:<port>`, cut at the last colon. */
  function ParseUpstream(s: string): Option<(string, int)> {
    var parts := Split(s, ':');
    var n := |parts| - 1;
    if n == 0 || !IsNumeral(parts[n]) then None
    else Some((Join(parts[..n], ':'), FromDecInt(parts[n])))
  }

  function ParseBlock(lines: seq<string>): Option<(Site, nat)> {
    if |lines| < 3 || !HasSuffix(lines[0], " {") then None
    else
      var host := TrimSuffix(lines[0], " {");
      var encode := lines[1] == "    encode zstd gzip";
      var k := if encode then 2 else 1;
      if |lines| < k + 2 || !HasPrefix(lines[k], "    reverse_proxy ") || lines[k + 1] != "}" then None
      else
        match ParseUpstream(lines[k][18..])
        case None => None
        case Some(up) => Some((Site(host, up.0, up.1, encode), k + 2))
  }

  function ParseSites(lines: seq<string>): Option<seq<Site>>
    decreases |lines|
  {
    if lines == [] then Some([])
    else if lines[0] == "" then ParseSites(lines[1..])
    else
      match ParseBlock(lines)
      case None => None
      case Some(b) =>
        if b.1 > |lines| then None
        else
          match ParseSites(lines[b.1..])
          case None => None
          case Some(rest) => Some([b.0] + rest)
  }

  /** The two comments and the global options every file starts with. */
  predicate StartsWell(lines: seq<string>) {
    && |lines| >= 8
    && lines[0] == "# Caddyfile generated by decloud — do not edit by hand."
    && lines[1] == "# Re-run `decloud caddy reload` to refresh."
    && lines[2] == "" && lines[3] == "{" && lines[4] == "    servers {"
    && lines[5] == "        protocols h1 h2" && lines[6] == "    }" && lines[7] == "}"
  }

  /** A reader of the files, with its own idea of what they look like. */
  function ParseCaddyfile(text: string): Option<seq<Site>> {
    var lines := Split(text, '\n');
    if StartsWell(lines) then ParseSites(lines[8..]) else None
  }

  lemma HeaderStartsWell(rest: seq<string>)
    ensures StartsWell(HEADER + rest) && (HEADER + rest)[8..] == rest
  {
  }

  lemma UpstreamReadsBack(container: string, port: int)
    ensures ParseUpstream(container + ":" + DecInt(port)) == Some((container, port))
  {
    var s := container + ":" + DecInt(port);
    var parts := Split(container, ':');
    FromDecIntDecInt(port);
    JoinAppend(parts, DecInt(port), ':');
    assert Join(parts + [DecInt(port)], ':') == s;
    SplitJoin(parts + [DecInt(port)], ':');
    assert (parts + [DecInt(port)])[..|parts|] == parts;
  }

  lemma BlockReadsBack(host: string, container: string, port: int, disableCompression: bool, rest: seq<string>)
    ensures ParseBlock(BlockLines(host, container, port, disableCompression) + rest)
      == Some((Site(host, container, port, !disableCompression), |BlockLines(host, container, port, disableCompression)|))
  {
    hide ParseUpstream, DecInt;
    var lines := BlockLines(host, container, port, disableCompression) + rest;
    AppendInjective(host, host, " {");
    var proxy := PROXY + container + ":" + DecInt(port);
    assert proxy[|PROXY|..] == container + ":" + DecInt(port);
    assert HasPrefix(proxy, PROXY);
    assert proxy[4] == 'r' && ENCODE[4] == 'e';
    UpstreamReadsBack(container, port);
  }

  lemma BlockThenRest(r: Row, host: string, rest: seq<string>)
    requires ParseSites(rest).Some?
    ensures ParseSites(BlockLines(host, r.container, r.port, r.disableCompression) + rest)
      == Some([Site(host, r.container, r.port, !r.disableCompression)] + ParseSites(rest).value)
  {
    hide ParseBlock, DecInt;
    var block := BlockLines(host, r.container, r.port, r.disableCompression);
    BlockReadsBack(host, r.container, r.port, r.disableCompression, rest);
    var lines := block + rest;
    assert lines[|block|..] == rest;
    assert lines[0] == host + " {" && |lines[0]| >= 2;
  }

  lemma {:induction false} HostsReadBack(r: Row, hosts: seq<string>, rest: seq<string>)
    requires ParseSites(rest).Some?
    ensures ParseSites(HostLines(r, hosts) + rest) == Some(HostSites(r, hosts) + ParseSites(rest).value)
    decreases |hosts|
  {
    hide ParseSites, BlockLines;
    if hosts == [] {
      assert HostLines(r, hosts) + rest == rest;
      assert HostSites(r, hosts) + ParseSites(rest).value == ParseSites(rest).value;
    } else {
      var tail := HostLines(r, hosts[1..]) + rest;
      HostsReadBack(r, hosts[1..], rest);
      BlockThenRest(r, hosts[0], tail);
      assert HostLines(r, hosts) + rest == BlockLines(hosts[0], r.container, r.port, r.disableCompression) + tail;
      var site := Site(hosts[0], r.container, r.port, !r.disableCompression);
      assert HostSites(r, hosts) == [site] + HostSites(r, hosts[1..]);
      assert [site] + (HostSites(r, hosts[1..]) + ParseSites(rest).value) == HostSites(r, hosts) + ParseSites(rest).value;
    }
  }

  lemma BlankThenRest(rest: seq<string>)
    ensures ParseSites([""] + rest) == ParseSites(rest)
  {
    hide ParseBlock;
    assert ([""] + rest)[1..] == rest;
  }

  lemma {:induction false} RowsReadBack(rows: seq<Row>)
    ensures ParseSites(FlatMap(rows, RowLines) + [""]) == Some(FlatMap(rows, RowSites))
  {
    hide HostLines, ParseSites;
    if rows == [] {
      assert FlatMap(rows, RowLines) + [""] == [""] + [];
      BlankThenRest([]);
      NothingParses();
    } else {
      var rest := FlatMap(rows[1..], RowLines) + [""];
      RowsReadBack(rows[1..]);
      HostsReadBack(rows[0], rows[0].hosts, rest);
      var lines := FlatMap(rows, RowLines) + [""];
      assert lines == [""] + (HostLines(rows[0], rows[0].hosts) + rest);
      BlankThenRest(HostLines(rows[0], rows[0].hosts) + rest);
    }
  }

  lemma NothingParses()
    ensures ParseSites([]) == Some([])
  {
  }

  lemma {:induction false} UnlinesJoin(lines: seq<string>)
    ensures FlatMap(lines, Line) == Join(lines + [""], '\n')
  {
    if lines == [] {
      assert lines + [""] == [""];
    } else {
      UnlinesJoin(lines[1..]);
      assert (lines + [""])[1..] == lines[1..] + [""];
    }
  }

  predicate OneLine(s: string) { '\n' !in s }

  ghost predicate PrintableRow(r: Row) {
    OneLine(r.container) && forall h :: h in r.hosts ==> OneLine(h)
  }

  lemma {:induction false} HostLinesAreLines(r: Row, hosts: seq<string>)
    requires OneLine(r.container) && forall h :: h in hosts ==> OneLine(h)
    ensures forall l :: l in HostLines(r, hosts) ==> OneLine(l)
  {
    if hosts != [] {
      FromDecIntDecInt(r.port);
      assert OneLine(hosts[0]);
      HostLinesAreLines(r, hosts[1..]);
    }
  }

  lemma {:induction false} RowLinesAreLines(rows: seq<Row>)
    requires forall r :: r in rows ==> PrintableRow(r)
    ensures forall l :: l in FlatMap(rows, RowLines) ==> OneLine(l)
  {
    hide HostLines;
    if rows != [] {
      assert rows[0] in rows && PrintableRow(rows[0]);
      HostLinesAreLines(rows[0], rows[0].hosts);
      RowLinesAreLines(rows[1..]);
    }
  }

  /** Hosts and container names without line breaks. */
  ghost predicate Printable(services: seq<Service>) {
    forall s :: s in services ==> OneLine(Upstream(s.config)) && forall h :: h in s.config.routes ==> OneLine(h)
  }

  lemma {:induction false} NonEmptyKeeps(routes: seq<string>, h: string)
    ensures h in NonEmpty(routes) <==> h in routes && h != ""
  {
    if routes != [] {
      NonEmptyKeeps(routes[1..], h);
      assert h in routes <==> h == routes[0] || h in routes[1..];
    }
  }

  lemma PrintableRowOf(s: Service)
    requires OneLine(Upstream(s.config)) && forall h :: h in s.config.routes ==> OneLine(h)
    ensures PrintableRow(RowOf(s))
  {
    hide Text.Sort, NonEmpty, OneLine;
    var routes := s.config.routes;
    MembersOf(Sort(NonEmpty(routes), Self), NonEmpty(routes));
    forall h | h in RowOf(s).hosts ensures OneLine(h) { NonEmptyKeeps(routes, h); }
  }

  lemma PrintableRows(services: seq<Service>)
    requires Printable(services)
    ensures forall r :: r in Normalize(services) ==> PrintableRow(r)
  {
    hide Text.Sort, Rows, PrintableRow, RowOf, OneLine;
    MembersOf(Normalize(services), Rows(services));
    forall r | r in Normalize(services) ensures PrintableRow(r) {
      RowsComeFrom(services, r);
      var i :| 0 <= i < |services| && r in RowIfRouted(services[i]);
      assert services[i] in services;
      PrintableRowOf(services[i]);
    }
  }

  /** Reading the rendered file recovers its site blocks: every host, upstream, port and
      compression flag, in order. */
  lemma RenderReadsBack(services: seq<Service>)
    requires Printable(services)
    ensures ParseCaddyfile(Render(services)) == Some(Sites(services))
  {
    hide RowSites, RowLines, Text.Sort, ParseSites, HEADER, StartsWell, Split, Join, Line, OneLine;
    var rows := Normalize(services);
    var lines := DocumentLines(rows);
    PrintableRows(services);
    RowLinesAreLines(rows);
    UnlinesJoin(lines);
    HeaderLines();
    AllOneLine(HEADER, FlatMap(rows, RowLines));
    SplitJoin(lines + [""], '\n');
    var tail := FlatMap(rows, RowLines) + [""];
    assert lines + [""] == HEADER + tail;
    HeaderStartsWell(tail);
    RowsReadBack(rows);
  }

  lemma AllOneLine(head: seq<string>, tail: seq<string>)
    requires (forall l :: l in head ==> OneLine(l)) && (forall l :: l in tail ==> OneLine(l))
    ensures forall l :: l in head + tail + [""] ==> '\n' !in l
  {
  }

  lemma TitleIsOneLine()
    ensures OneLine("# Caddyfile generated by decloud — do not edit by hand.")
  {
    assert OneLine("# Caddyfile generated");
    assert OneLine("# Caddyfile generated by decloud — do not");
  }

  lemma AdviceIsOneLine()
    ensures OneLine("# Re-run `decloud caddy reload` to refresh.")
  {
    assert OneLine("# Re-run `decloud caddy");
  }

  lemma HeaderLines()
    ensures forall l :: l in HEADER ==> OneLine(l)
  {
    TitleIsOneLine();
    AdviceIsOneLine();
  }
}
