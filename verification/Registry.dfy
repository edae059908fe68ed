/** internal/registry/store.go: two files per service, written and removed in an order that
    keeps every interruption recoverable. */
module Registry {
  import opened Text
  import opened Types
  import opened Host
  import Mounts

  const ENV_FILE := "env.toml"
  const TEMP := ".tmp-"

  function ConfigFile(name: string): string { name + ".toml" }

  datatype LoadError = NotRegistered | SecretsMissing | Undecodable | SchemaMismatch | InvalidMount
                     | InvalidStrategy | PermissionMode | ReadFailed

  datatype Loaded = Loaded(service: Service) | NotLoaded(error: LoadError)

  datatype SaveResult = Saved | NotSaved | PartialWrite

  // ---------------------------------------------------------------- reading one service

  datatype ConfigRead = Read(config: ServiceConfig) | Unread(error: LoadError)

  function LoadConfig(w: World, name: string): ConfigRead {
    var file := ConfigFile(name);
    if file !in w.services then Unread(NotRegistered)
    else if w.services[file].Folder? then Unread(ReadFailed)
    else if !w.services[file].doc.ConfigDoc? then Unread(Undecodable)
    else
      var cfg := w.services[file].doc.config;
      if cfg.schemaVersion != SCHEMA_VERSION then Unread(SchemaMismatch)
      else if !Mounts.ValidMounts(cfg.mounts) then Unread(InvalidMount)
      else if cfg.strategy != "" && cfg.strategy != RECREATE then Unread(InvalidStrategy)
      else Read(cfg.(name := name))
  }

  function Load(w: World, name: string): Loaded {
    var cfg := LoadConfig(w, name);
    if cfg.Unread? then NotLoaded(cfg.error)
    else if name !in w.secrets then NotLoaded(SecretsMissing)
    else if w.secrets[name].mode != M0700 then NotLoaded(PermissionMode)
    else if ENV_FILE !in w.secrets[name].files then NotLoaded(SecretsMissing)
    else
      match w.secrets[name].files[ENV_FILE]
      case Folder => NotLoaded(PermissionMode)
      case File(mode, doc) =>
        if mode != M0600 then NotLoaded(PermissionMode)
        else if !doc.SecretsDoc? then NotLoaded(Undecodable)
        else if doc.secrets.schemaVersion != SCHEMA_VERSION then NotLoaded(SchemaMismatch)
        else Loaded(Service(cfg.config, doc.secrets))
  }

  function Loading(s: Sys, name: string): (r: (Sys, Loaded))
    ensures r.0.w == s.w
    ensures r.1.Loaded? ==> r.0.alive && r.1 == Load(s.w, name)
    ensures r.0.alive ==> s.alive
    ensures !s.alive ==> r.0 == s
    ensures s.script == Calm && s.alive ==> r == (s, Load(s.w, name))
  {
    var (s', o) := Call(s);
    (s', if o.Ok? then Load(s.w, name) else NotLoaded(ReadFailed))
  }

  // ---------------------------------------------------------------- writing one service

  /** `validateForSave` after its checks. */
  function Filled(svc: Service): Service {
    svc.(config := svc.config.(schemaVersion := if svc.config.schemaVersion == 0 then SCHEMA_VERSION else svc.config.schemaVersion),
         secrets := svc.secrets.(
           schemaVersion := if svc.secrets.schemaVersion == 0 then SCHEMA_VERSION else svc.secrets.schemaVersion,
           name := if svc.secrets.name == "" then svc.config.name else svc.secrets.name))
  }

  function ConfigNode(svc: Service): Node { File(M0644, ConfigDoc(Filled(svc).config)) }

  function SecretsNode(svc: Service): Node { File(M0600, SecretsDoc(Filled(svc).secrets)) }

  function WithSecretDir(w: World, name: string, mode: Mode): World {
    w.(secrets := w.secrets[name := if name in w.secrets then w.secrets[name].(mode := mode) else SecretDir(mode, map[])])
  }

  /** `os.MkdirAll(secDir, 0700)`: the umask decides what a new directory gets. */
  function MakeSecretDir(os: Platform, s: Sys, name: string): (r: (Sys, bool))
    ensures r.0.w == s.w || (name !in s.w.secrets && r.0.w == WithSecretDir(s.w, name, Masked(M0700, os.umask)))
    ensures r.1 ==> r.0.alive && name in r.0.w.secrets
    ensures r.0.alive ==> s.alive
    ensures !s.alive ==> r.0 == s
    ensures s.script == Calm && s.alive ==> r.1 && r.0.script == Calm
  {
    var (f, s') := Draw(s);
    if name !in s.w.secrets && Effective(f) then
      (s'.(w := WithSecretDir(s.w, name, Masked(M0700, os.umask))), f.Fine?)
    else (s', f.Fine?)
  }

  function ChmodSecretDir(s: Sys, name: string): (r: (Sys, bool))
    requires name in s.w.secrets
    ensures r.0.w == s.w || r.0.w == WithSecretDir(s.w, name, M0700)
    ensures r.1 ==> r.0.alive && r.0.w == WithSecretDir(s.w, name, M0700)
    ensures r.0.alive ==> s.alive
    ensures !s.alive ==> r.0 == s
    ensures s.script == Calm && s.alive ==> r.1 && r.0.script == Calm
  {
    var (f, s') := Draw(s);
    if Effective(f) then (s'.(w := WithSecretDir(s.w, name, M0700)), f.Fine?) else (s', false)
  }

  function SavingConfig(os: Platform, s: Sys, svc: Service): (Sys, bool) {
    var (s1, made) := Call(s);
    if !made.Ok? then (s1, false)
    else WriteAtomic(os, s1, Services, TEMP, ConfigFile(svc.config.name), M0644, ConfigDoc(Filled(svc).config), true)
  }

  function SavingSecrets(os: Platform, s: Sys, svc: Service): (Sys, bool) {
    var name := svc.config.name;
    var (s1, made) := MakeSecretDir(os, s, name);
    if !made then (s1, false)
    else
      var (s2, moded) := ChmodSecretDir(s1, name);
      if !moded then (s2, false)
      else WriteAtomic(os, s2, SecretsOf(name), TEMP, ENV_FILE, M0600, SecretsDoc(Filled(svc).secrets), true)
  }

  /** `Save`: config first, then the secrets directory, then the secrets. */
  function Saving(os: Platform, s: Sys, svc: Service): (Sys, SaveResult) {
    if svc.config.name == "" then (s, NotSaved)
    else
      var (s1, config) := SavingConfig(os, s, svc);
      if !config then (s1, NotSaved)
      else
        var (s2, secrets) := SavingSecrets(os, s1, svc);
        (s2, if secrets then Saved else PartialWrite)
  }

  method Save(os: Platform, p: Process, svc: Service) returns (r: SaveResult)
    modifies p
    ensures (p.sys, r) == Saving(os, old(p.sys), svc)
  {
    if svc.config.name == "" { return NotSaved; }
    var config, secrets := svc.config, svc.secrets;
    if config.schemaVersion == 0 { config := config.(schemaVersion := SCHEMA_VERSION); }
    if secrets.schemaVersion == 0 { secrets := secrets.(schemaVersion := SCHEMA_VERSION); }
    if secrets.name == "" { secrets := secrets.(name := config.name); }
    var made := p.Do();
    if !made.Ok? { return NotSaved; }
    var ok := p.WriteWhole(os, Services, TEMP, ConfigFile(config.name), M0644, ConfigDoc(config), true);
    if !ok { return NotSaved; }
    var m := MakeSecretDir(os, p.sys, config.name);
    p.sys := m.0;
    if !m.1 { return PartialWrite; }
    m := ChmodSecretDir(p.sys, config.name);
    p.sys := m.0;
    if !m.1 { return PartialWrite; }
    ok := p.WriteWhole(os, SecretsOf(config.name), TEMP, ENV_FILE, M0600, SecretsDoc(secrets), true);
    return if ok then Saved else PartialWrite;
  }

  // ---------------------------------------------------------------- removing one service

  /** `os.Remove(secDir)`: rmdir refuses a directory that still holds a file. */
  function RemoveSecretDir(s: Sys, name: string): (r: (Sys, bool))
    ensures r.0.w == s.w || (name in s.w.secrets && s.w.secrets[name].files == map[] && r.0.w == s.w.(secrets := s.w.secrets - {name}))
    ensures r.1 ==> r.0.alive && name !in r.0.w.secrets
    ensures !r.1 && r.0.alive ==> r.0.w == s.w
    ensures r.0.alive ==> s.alive
    ensures !s.alive ==> r.0 == s
    ensures s.script == Calm && s.alive ==> r.0.script == Calm
    ensures s.script == Calm && s.alive ==> (r.1 <==> (name in s.w.secrets ==> s.w.secrets[name].files == map[]))
  {
    var (f, s') := Draw(s);
    if name !in s.w.secrets then (s', f.Fine?)
    else if s.w.secrets[name].files != map[] then (s', false)
    else if Effective(f) then (s'.(w := s.w.(secrets := s.w.secrets - {name})), f.Fine?)
    else (s', false)
  }

  /** `Delete`: secrets file, secrets directory, config. */
  function Deleting(s: Sys, name: string): (Sys, bool) {
    var (s1, file) := Remove(s, SecretsOf(name), ENV_FILE);
    if !file then (s1, false)
    else
      var (s2, dir) := RemoveSecretDir(s1, name);
      if !dir then (s2, false) else Remove(s2, Services, ConfigFile(name))
  }

  method Delete(p: Process, name: string) returns (ok: bool)
    modifies p
    ensures (p.sys, ok) == Deleting(old(p.sys), name)
  {
    ok := p.Unlink(SecretsOf(name), ENV_FILE);
    if !ok { return; }
    var r := RemoveSecretDir(p.sys, name);
    p.sys := r.0;
    if !r.1 { return false; }
    ok := p.Unlink(Services, ConfigFile(name));
  }

  // ---------------------------------------------------------------- reading the directory

  predicate Listed(f: string, n: Node) { n.File? && HasSuffix(f, ".toml") && !HasSuffix(f, ".tmp") }

  function ListedNames(d: Dir): set<string> {
    set f | f in d && Listed(f, d[f]) :: TrimSuffix(f, ".toml")
  }

  /** `ListNames`: every registered name once, in byte order. */
  function Names(d: Dir): (names: seq<string>)
    ensures Increasing(names)
    ensures forall n :: n in names <==> n in ListedNames(d)
  {
    InOrder(ListedNames(d))
  }

  function LoadEach(w: World, names: seq<string>): seq<Service> {
    if names == [] then []
    else (if Load(w, names[0]).Loaded? then [Load(w, names[0]).service] else []) + LoadEach(w, names[1..])
  }

  /** What `List` returns when no read fails: the services that load, in name order. */
  function Loadable(w: World): seq<Service> { LoadEach(w, Names(w.services)) }

  function Scan(s: Sys, names: seq<string>): (Sys, seq<Service>)
    decreases |names|
  {
    if names == [] then (s, [])
    else
      var (s1, l) := Loading(s, names[0]);
      var (s2, rest) := Scan(s1, names[1..]);
      (s2, (if l.Loaded? then [l.service] else []) + rest)
  }

  /** `List`: a service whose load fails, for whatever reason, is silently skipped. */
  function Listing(s: Sys): (Sys, Option<seq<Service>>) {
    var (s1, read) := Call(s);
    if !read.Ok? then (s1, None)
    else
      var (s2, services) := Scan(s1, Names(s.w.services));
      (s2, Some(services))
  }

  ghost predicate NoRepeats(xs: seq<string>) {
    forall i, j :: 0 <= i < j < |xs| ==> xs[i] != xs[j]
  }

  lemma SortIncreasing(xs: seq<string>)
    requires NoRepeats(xs)
    ensures Increasing(Sort(xs, Self))
    ensures forall x :: x in Sort(xs, Self) <==> x in xs
  {
    var r := Sort(xs, Self);
    SortSorts(xs, Self);
    MembersOf(xs, r);
    forall i, j | 0 <= i < j < |r| ensures Le(r[i], r[j]) && r[i] != r[j] {
      assert Le(Self(r[i]), Self(r[j]));
      OnceEach(xs, r[i]);
      assert r == r[..j] + r[j..];
      assert r[i] in multiset(r[..j]) && r[j] in multiset(r[j..]);
    }
  }

  lemma {:induction false} OnceEach(xs: seq<string>, x: string)
    requires NoRepeats(xs)
    ensures multiset(xs)[x] <= 1
  {
    if xs != [] {
      OnceEach(xs[1..], x);
      assert xs == [xs[0]] + xs[1..];
      if xs[0] == x { assert x !in xs[1..]; }
    }
  }

  lemma ListedIs(e: string, node: Node, n: string)
    ensures Listed(e, node) && n == TrimSuffix(e, ".toml") <==> e == ConfigFile(n) && node.File?
  {
    AppendInjective(n, n, ".toml");
    assert ConfigFile(n)[|ConfigFile(n)| - 1] == 'l';
    if HasSuffix(e, ".toml") { TrimmedBack(e, ".toml"); }
  }

  lemma ListedIff(d: Dir, n: string)
    ensures n in ListedNames(d) <==> ConfigFile(n) in d && d[ConfigFile(n)].File?
  {
    if n in ListedNames(d) {
      var f :| f in d && Listed(f, d[f]) && n == TrimSuffix(f, ".toml");
      ListedIs(f, d[f], n);
    }
    if ConfigFile(n) in d { ListedIs(ConfigFile(n), d[ConfigFile(n)], n); }
  }

  /** The names the loop over the directory's entries has gathered. */
  function Gathered(d: Dir, entries: seq<string>): seq<string>
    requires forall e :: e in entries ==> e in d
  {
    if entries == [] then []
    else
      var k := |entries| - 1;
      Gathered(d, entries[..k]) + if Listed(entries[k], d[entries[k]]) then [TrimSuffix(entries[k], ".toml")] else []
  }

  lemma {:induction false} GatheredOnce(d: Dir, entries: seq<string>)
    requires forall e :: e in entries ==> e in d
    requires NoRepeats(entries)
    ensures NoRepeats(Gathered(d, entries))
    ensures forall n :: n in Gathered(d, entries) <==> ConfigFile(n) in entries && d[ConfigFile(n)].File?
  {
    if entries != [] {
      var k := |entries| - 1;
      var e, before := entries[k], entries[..k];
      GatheredOnce(d, before);
      assert entries == before + [e];
      forall n ensures n in Gathered(d, entries) <==> ConfigFile(n) in entries && d[ConfigFile(n)].File? {
        ListedIs(e, d[e], n);
      }
      if Listed(e, d[e]) { ListedIs(e, d[e], TrimSuffix(e, ".toml")); }
    }
  }

  /** The loop over the directory's entries finds each name once. */
  method CollectNames(d: Dir) returns (names: seq<string>)
    ensures NoRepeats(names)
    ensures forall n :: n in names <==> n in ListedNames(d)
  {
    hide TrimSuffix, HasSuffix, InOrder;
    var entries := InOrder(d.Keys);
    names := [];
    for i := 0 to |entries|
      invariant names == Gathered(d, entries[..i])
    {
      var e := entries[i];
      assert entries[..i + 1][..i] == entries[..i];
      if d[e].Folder? { continue; }
      if !HasSuffix(e, ".toml") || HasSuffix(e, ".tmp") { continue; }
      names := names + [TrimSuffix(e, ".toml")];
    }
    assert entries[..|entries|] == entries;
    GatheredOnce(d, entries);
    forall n ensures n in names <==> n in ListedNames(d) { ListedIff(d, n); }
  }

  method ListNames(p: Process) returns (r: Option<seq<string>>)
    modifies p
    ensures p.sys == Call(old(p.sys)).0
    ensures r == if Call(old(p.sys)).1.Ok? then Some(Names(old(p.sys).w.services)) else None
  {
    var d := p.sys.w.services;
    var read := p.Do();
    if !read.Ok? { return None; }
    var names := CollectNames(d);
    SortIncreasing(names);
    IncreasingUnique(Sort(names, Self), Names(d));
    return Some(Sort(names, Self));
  }

  method List(p: Process) returns (r: Option<seq<Service>>)
    modifies p
    ensures (p.sys, r) == Listing(old(p.sys))
  {
    hide Load, Loading, Call, Names;
    var names := ListNames(p);
    if names.None? { return None; }
    var out: seq<Service> := [];
    ghost var s1 := p.sys;
    assert names.value[0..] == names.value;
    for i := 0 to |names.value|
      invariant Scan(s1, names.value).0 == Scan(p.sys, names.value[i..]).0
      invariant Scan(s1, names.value).1 == out + Scan(p.sys, names.value[i..]).1
    {
      var l := Loading(p.sys, names.value[i]);
      assert names.value[i..][1..] == names.value[i + 1..];
      p.sys := l.0;
      if l.1.NotLoaded? { continue; }
      out := out + [l.1.service];
    }
    assert names.value[|names.value|..] == [];
    assert out + [] == out;
    return Some(out);
  }
}
