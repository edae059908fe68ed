/** The host as a decloud process meets it: docker's containers, the registry and Caddy
    directories, Caddy's running configuration, and an environment that may fail any call or
    kill the process at it. */
module Host {
  import opened Text
  import opened Types
  import Mounts
  import DockerArgv

  // ---------------------------------------------------------------- file modes

  datatype Bits = Bits(r: bool, w: bool, x: bool)
  datatype Mode = Mode(user: Bits, group: Bits, other: Bits)

  const NONE := Bits(false, false, false)
  const RW := Bits(true, true, false)
  const RWX := Bits(true, true, true)
  const M0600 := Mode(RW, NONE, NONE)
  const M0644 := Mode(RW, Bits(true, false, false), Bits(true, false, false))
  const M0700 := Mode(RWX, NONE, NONE)

  /** Permissions in the usual octal digits. */
  function Octal(user: int, group: int, other: int): Mode {
    Mode(OctalBits(user), OctalBits(group), OctalBits(other))
  }

  function OctalBits(d: int): Bits { Bits(d / 4 % 2 == 1, d / 2 % 2 == 1, d % 2 == 1) }

  function Without(b: Bits, mask: Bits): Bits { Bits(b.r && !mask.r, b.w && !mask.w, b.x && !mask.x) }

  function Masked(m: Mode, umask: Mode): Mode {
    Mode(Without(m.user, umask.user), Without(m.group, umask.group), Without(m.other, umask.other))
  }

  // ---------------------------------------------------------------- the world

  /** What a file holds. Torn stands for any partly written content; the TOML encoding of a
      record is taken to be the record. */
  datatype Doc = ConfigDoc(config: ServiceConfig) | SecretsDoc(secrets: ServiceSecrets) | TextDoc(text: string) | Torn

  datatype Node = Folder | File(mode: Mode, doc: Doc)

  type Dir = map<string, Node>

  datatype SecretDir = SecretDir(mode: Mode, files: Dir)

  datatype Status = Running | Exited | Created | Paused | Respawning

  /** owner is the value of the `decloud.service` label, "" when there is none; volumes are
      docker's `-v` values. */
  datatype Container = Container(
    status: Status,
    owner: string,
    image: string,
    network: string,
    restart: string,
    tag: string,
    env: Env,
    volumes: seq<string>)

  /** services is config/services, secrets the sub-directories of secrets/, caddy is
      config/caddy, loaded the configuration Caddy is running. */
  datatype World = World(
    containers: map<string, Container>,
    services: Dir,
    secrets: map<string, SecretDir>,
    caddy: Dir,
    loaded: Option<string>)

  const EMPTY := World(map[], map[], map[], map[], None)

  /** What is fixed from outside: the process's umask, which files `caddy validate` accepts, and
      the number os.CreateTemp draws in a directory that holds the given files. */
  datatype Platform = Platform(umask: Mode, accepts: string -> bool, draws: Dir -> nat)

  // ---------------------------------------------------------------- fates

  /** How much of a call happened before it reported failure or the process died. */
  datatype Effect = Nothing | Half | Done

  /** Fail returns an error, inContext when its chain holds a context error; Die kills the
      process, after which nothing it does reaches the world. */
  datatype Fate = Fine | Fail(inContext: bool, effect: Effect) | Die(effect: Effect)

  /** The fates of the next calls; Calm means that all of them are Fine. */
  datatype Script = Calm | Then(fate: Fate, rest: Script)

  /** k calls that are fine, then rest. */
  function Fines(k: nat, rest: Script): Script {
    if k == 0 then rest else Then(Fine, Fines(k - 1, rest))
  }

  /** A process: the world, the fates of its next calls, and whether it is still running. */
  datatype Sys = Sys(w: World, script: Script, alive: bool)

  datatype Outcome = Ok | NotFound | Failed(inContext: bool)

  function Draw(s: Sys): (r: (Fate, Sys))
    ensures r.1.w == s.w
    ensures r.1.alive <==> s.alive && !r.0.Die?
    ensures !s.alive ==> r == (Die(Nothing), s)
    ensures s.script == Calm && s.alive ==> r == (Fine, s)
  {
    if !s.alive then (Die(Nothing), s)
    else
      match s.script
      case Calm => (Fine, s)
      case Then(fate, rest) => (fate, s.(script := rest, alive := !fate.Die?))
  }

  function EffectOf(f: Fate): Effect {
    match f
    case Fine => Done
    case Fail(_, e) => e
    case Die(e) => e
  }

  function Report(f: Fate): Outcome {
    match f
    case Fine => Ok
    case Fail(c, _) => Failed(c)
    case Die(_) => Failed(false)
  }

  /** A call that leaves this world as it was: the network, the build, the probe, a read. */
  function Call(s: Sys): (r: (Sys, Outcome))
    ensures r.0.w == s.w
    ensures r.1.Ok? ==> r.0.alive
    ensures r.0.alive ==> s.alive
    ensures !s.alive ==> r.0 == s
    ensures s.script == Calm && s.alive ==> r == (s, Ok)
  {
    var (f, s') := Draw(s);
    (s', Report(f))
  }

  // ---------------------------------------------------------------- docker

  /** The container docker makes of a run request. */
  function FromRequest(req: RunRequest, status: Status): Container {
    Container(status, req.service, req.image, req.network, req.restart, "decloud/" + req.service, req.env,
              Mounts.Formatted(req.volumes))
  }

  /** The container docker makes of a command line. */
  function FromLaunch(l: DockerArgv.Launch, status: Status): Container {
    Container(status,
              if DockerArgv.SERVICE_LABEL in l.labels then l.labels[DockerArgv.SERVICE_LABEL] else "",
              l.image, l.network, l.restart,
              if l.logOpts != [] && HasPrefix(l.logOpts[0], "tag=") then l.logOpts[0][4..] else "",
              l.env, l.volumes)
  }

  /** The container of a request is the one docker builds from Run's command line. */
  lemma CommandLineMakesTheContainer(req: RunRequest, status: Status)
    requires req.service != "" && '/' !in req.service
    requires DockerArgv.ImageWord(req.image) && DockerArgv.PlainKeys(req.env)
    ensures DockerArgv.RunArgv(req).Argv?
    ensures DockerArgv.Decode(DockerArgv.RunArgv(req).args).Some?
    ensures FromLaunch(DockerArgv.Decode(DockerArgv.RunArgv(req).args).value, status) == FromRequest(req, status)
    ensures DockerArgv.Decode(DockerArgv.RunArgv(req).args).value.name == req.name
  {
    hide DockerArgv.Decode;
    DockerArgv.RunMeaning(req);
    assert ("tag=decloud/" + req.service)[4..] == "decloud/" + req.service;
  }

  function Stopped(c: Container): Container {
    if c.status == Created then c else c.(status := Exited)
  }

  predicate Removable(c: Container) { c.status == Exited || c.status == Created }

  predicate OnlyContainer(w: World, w': World, name: string) {
    w' == w.(containers := w'.containers) && w'.containers - {name} == w.containers - {name}
  }

  function DockerStop(s: Sys, name: string): (r: (Sys, Outcome))
    ensures OnlyContainer(s.w, r.0.w, name)
    ensures r.1.Ok? || r.1.NotFound? ==> r.0.alive
    ensures r.0.alive ==> s.alive
    ensures !s.alive ==> r.0 == s
  {
    var (f, s') := Draw(s);
    var w := s.w;
    if name !in w.containers then
      (s', if f.Fine? then NotFound else Report(f))
    else if EffectOf(f).Done? then
      (s'.(w := w.(containers := w.containers[name := Stopped(w.containers[name])])), Report(f))
    else (s', Report(f))
  }

  function DockerRemove(s: Sys, name: string): (r: (Sys, Outcome))
    ensures OnlyContainer(s.w, r.0.w, name)
    ensures r.1.Ok? || r.1.NotFound? ==> r.0.alive && name !in r.0.w.containers
    ensures r.0.alive ==> s.alive
    ensures !s.alive ==> r.0 == s
  {
    var (f, s') := Draw(s);
    var w := s.w;
    if name !in w.containers then
      (s', if f.Fine? then NotFound else Report(f))
    else if !Removable(w.containers[name]) then
      (s', if f.Fine? then Failed(false) else Report(f))
    else if EffectOf(f).Done? then
      (s'.(w := w.(containers := w.containers - {name})), Report(f))
    else (s', Report(f))
  }

  function DockerStart(s: Sys, name: string): (r: (Sys, Outcome))
    ensures OnlyContainer(s.w, r.0.w, name)
    ensures r.1.Ok? || r.1.NotFound? ==> r.0.alive
    ensures r.0.alive ==> s.alive
    ensures !s.alive ==> r.0 == s
  {
    var (f, s') := Draw(s);
    var w := s.w;
    if name !in w.containers then
      (s', if f.Fine? then NotFound else Report(f))
    else if EffectOf(f).Done? then
      (s'.(w := w.(containers := w.containers[name := w.containers[name].(status := Running)])), Report(f))
    else (s', Report(f))
  }

  /** The guards on the service come before docker is called. A name in use is a conflict; a
      run that fails may leave nothing, a container that never started, or a running one. */
  function DockerRun(s: Sys, req: RunRequest): (r: (Sys, Outcome))
    ensures OnlyContainer(s.w, r.0.w, req.name)
    ensures r.1.Ok? ==> r.0.alive && r.0.w.containers == s.w.containers[req.name := FromRequest(req, Running)]
    ensures r.0.alive ==> s.alive
    ensures !s.alive ==> r.0 == s
  {
    if req.service == "" || '/' in req.service then (s, Failed(false))
    else
      var (f, s') := Draw(s);
      var w := s.w;
      if req.name in w.containers then
        (s', if f.Fine? then Failed(false) else Report(f))
      else
        match EffectOf(f)
        case Nothing => (s', Report(f))
        case Half => (s'.(w := w.(containers := w.containers[req.name := FromRequest(req, Created)])), Report(f))
        case Done => (s'.(w := w.(containers := w.containers[req.name := FromRequest(req, Running)])), Report(f))
  }

  datatype Inspection = Absent | Present(status: Status, owner: string) | Unknown(inContext: bool)

  function Inspect(s: Sys, name: string): (r: (Sys, Inspection))
    ensures r.0.w == s.w
    ensures !r.1.Unknown? ==> r.0.alive
    ensures r.0.alive ==> s.alive
    ensures !s.alive ==> r.0 == s
  {
    var (f, s') := Draw(s);
    if !f.Fine? then (s', Unknown(f.Fail? && f.inContext))
    else if name !in s.w.containers then (s', Absent)
    else (s', Present(s.w.containers[name].status, s.w.containers[name].owner))
  }

  // ---------------------------------------------------------------- directories

  datatype Place = Services | SecretsOf(name: string) | Caddy

  function At<V>(m: map<string, V>, k: string): Option<V> {
    if k in m then Some(m[k]) else None
  }

  predicate HasDir(w: World, p: Place) { p.SecretsOf? ==> p.name in w.secrets }

  function DirAt(w: World, p: Place): Dir {
    match p
    case Services => w.services
    case SecretsOf(n) => if n in w.secrets then w.secrets[n].files else map[]
    case Caddy => w.caddy
  }

  function WithDir(w: World, p: Place, d: Dir): (w': World)
    ensures HasDir(w, p) ==> DirAt(w', p) == d && HasDir(w', p)
    ensures !HasDir(w, p) ==> w' == w
  {
    match p
    case Services => w.(services := d)
    case SecretsOf(n) => if n in w.secrets then w.(secrets := w.secrets[n := w.secrets[n].(files := d)]) else w
    case Caddy => w.(caddy := d)
  }

  lemma SameDir(w: World, p: Place)
    ensures WithDir(w, p, DirAt(w, p)) == w
  {
  }

  lemma DirTwice(w: World, p: Place, d: Dir, e: Dir)
    ensures WithDir(WithDir(w, p, d), p, e) == WithDir(w, p, e)
  {
  }

  /** prefix followed by the first number from k on that is not taken. */
  function FirstFree(taken: set<string>, prefix: string, k: nat): (name: string)
    ensures name !in taken
    ensures exists j: nat :: j >= k && name == prefix + Dec(j)
    decreases taken
  {
    var name := prefix + Dec(k);
    if name !in taken then name
    else
      var r := FirstFree(taken - {name}, prefix, k + 1);
      assert r != name by {
        var j: nat :| j >= k + 1 && r == prefix + Dec(j);
        if r == name {
          assert r[|prefix|..] == Dec(j) && name[|prefix|..] == Dec(k);
          DecInjective(j, k);
        }
      }
      r
  }

  /** The file name os.CreateTemp picks. */
  function TempName(os: Platform, d: Dir, prefix: string): (name: string)
    ensures name !in d
    ensures IsTemp(name, prefix)
  {
    var name := FirstFree(d.Keys, prefix, os.draws(d));
    var j: nat :| name == prefix + Dec(j);
    assert name[|name| - 1] == Dec(j)[|Dec(j)| - 1];
    name
  }

  predicate IsTemp(f: string, prefix: string) {
    |f| > |prefix| && HasPrefix(f, prefix) && IsDigit(f[|f| - 1])
  }

  predicate Published(f: string) { f != "" && !IsDigit(f[|f| - 1]) }

  /** From s to s' at most the entry name of the directory at p changed. */
  ghost predicate OnlyEntry(s: Sys, s': Sys, p: Place, name: string) {
    && s'.w == WithDir(s.w, p, DirAt(s'.w, p))
    && DirAt(s'.w, p) - {name} == DirAt(s.w, p) - {name}
    && (s'.alive ==> s.alive)
    && (!s.alive ==> s' == s)
  }

  lemma OnlyEntryChain(s: Sys, s1: Sys, s2: Sys, p: Place, name: string)
    requires OnlyEntry(s, s1, p, name) && OnlyEntry(s1, s2, p, name)
    ensures OnlyEntry(s, s2, p, name)
  {
  }

  /** s after a call: its directory at p is d if the call took effect. */
  function Changed(s: Sys, s': Sys, p: Place, d: Dir, effective: bool): (r: Sys)
    ensures r.script == s'.script && r.alive == s'.alive
  {
    if effective then s'.(w := WithDir(s.w, p, d)) else s'
  }

  predicate Effective(f: Fate) { f.Fine? || (f.Die? && f.effect.Done?) }

  function CreateTemp(os: Platform, s: Sys, p: Place, prefix: string): (r: (Sys, string, bool))
    ensures r.1 == TempName(os, DirAt(s.w, p), prefix)
    ensures OnlyEntry(s, r.0, p, r.1)
    ensures r.2 ==> HasDir(s.w, p) && r.0.alive && DirAt(r.0.w, p) == DirAt(s.w, p)[r.1 := File(M0600, Torn)]
    ensures s.script == Calm && s.alive && HasDir(s.w, p) ==> r.2 && r.0.script == Calm
  {
    SameDir(s.w, p);
    var (f, s') := Draw(s);
    var d := DirAt(s.w, p);
    var tmp := TempName(os, d, prefix);
    (Changed(s, s', p, d[tmp := File(M0600, Torn)], HasDir(s.w, p) && Effective(f)), tmp, HasDir(s.w, p) && f.Fine?)
  }

  /** Writing the temporary file. */
  function Fill(s: Sys, p: Place, tmp: string, doc: Doc): (r: (Sys, bool))
    requires HasDir(s.w, p)
    ensures OnlyEntry(s, r.0, p, tmp)
    ensures r.1 ==> r.0.alive && DirAt(r.0.w, p) == DirAt(s.w, p)[tmp := File(M0600, doc)]
    ensures s.script == Calm && s.alive ==> r.1 && r.0.script == Calm
  {
    SameDir(s.w, p);
    var (f, s') := Draw(s);
    var d := DirAt(s.w, p);
    (Changed(s, s', p, d[tmp := File(M0600, if EffectOf(f).Done? then doc else Torn)], !EffectOf(f).Nothing?), f.Fine?)
  }

  /** Writing the temporary file and closing it: two calls. */
  function Filling(s: Sys, p: Place, tmp: string, doc: Doc): (r: (Sys, bool))
    requires HasDir(s.w, p)
    ensures OnlyEntry(s, r.0, p, tmp)
    ensures r.1 ==> r.0.alive && DirAt(r.0.w, p) == DirAt(s.w, p)[tmp := File(M0600, doc)]
    ensures s.script == Calm && s.alive ==> r.1 && r.0.script == Calm
  {
    var (s1, written) := Fill(s, p, tmp, doc);
    if !written then (s1, false)
    else
      var (s2, closed) := Call(s1);
      (s2, closed.Ok?)
  }

  function Chmod(s: Sys, p: Place, tmp: string, mode: Mode, doc: Doc): (r: (Sys, bool))
    requires HasDir(s.w, p)
    ensures OnlyEntry(s, r.0, p, tmp)
    ensures r.1 ==> r.0.alive && DirAt(r.0.w, p) == DirAt(s.w, p)[tmp := File(mode, doc)]
    ensures s.script == Calm && s.alive ==> r.1 && r.0.script == Calm
  {
    SameDir(s.w, p);
    var (f, s') := Draw(s);
    (Changed(s, s', p, DirAt(s.w, p)[tmp := File(mode, doc)], Effective(f)), f.Fine?)
  }

  /** os.Remove of a file; an absent one is no error for the callers. */
  function Remove(s: Sys, p: Place, name: string): (r: (Sys, bool))
    ensures OnlyEntry(s, r.0, p, name)
    ensures r.1 ==> r.0.alive && name !in DirAt(r.0.w, p)
    ensures At(DirAt(r.0.w, p), name) == At(DirAt(s.w, p), name) || name !in DirAt(r.0.w, p)
    ensures !r.1 && r.0.alive ==> r.0.w == s.w
    ensures s.script == Calm && s.alive ==> r.1 && r.0.script == Calm
  {
    SameDir(s.w, p);
    var (f, s') := Draw(s);
    (Changed(s, s', p, DirAt(s.w, p) - {name}, Effective(f)), f.Fine?)
  }

  /** rename(2): all or nothing, and never over a directory. */
  function Rename(s: Sys, p: Place, from: string, to: string): (r: (Sys, bool))
    ensures r.0.w == s.w ||
      (from in DirAt(s.w, p) && HasDir(s.w, p)
       && r.0.w == WithDir(s.w, p, DirAt(s.w, p)[to := DirAt(s.w, p)[from]] - {from}))
    ensures r.1 ==> r.0.alive
    ensures r.1 ==> from in DirAt(s.w, p) && HasDir(s.w, p)
    ensures r.1 ==> r.0.w == WithDir(s.w, p, DirAt(s.w, p)[to := DirAt(s.w, p)[from]] - {from})
    ensures !r.1 && r.0.alive ==> r.0.w == s.w
    ensures r.0.alive ==> s.alive
    ensures !s.alive ==> r.0 == s
    ensures s.script == Calm && s.alive ==> r.0.script == Calm
    ensures s.script == Calm && s.alive && from in DirAt(s.w, p) && At(DirAt(s.w, p), to) != Some(Folder) ==> r.1
  {
    var (f, s') := Draw(s);
    var d := DirAt(s.w, p);
    if from !in d || (to in d && d[to].Folder?) then (s', false)
    else (Changed(s, s', p, d[to := d[from]] - {from}, Effective(f)), f.Fine?)
  }

  // ---------------------------------------------------------------- writing a file whole

  /** `writeAtomic` and `writeFileAtomic`: a temporary file is created, filled, given its mode
      and renamed; each failure removes it again, except that the Caddyfile writer leaves it
      behind when the rename fails. */
  function WriteAtomic(os: Platform, s: Sys, p: Place, prefix: string, target: string, mode: Mode, doc: Doc, tidy: bool): (r: (Sys, bool))
  {
    var (s1, tmp, created) := CreateTemp(os, s, p, prefix);
    if !created then (s1, false)
    else
      var (s2, filled) := Filling(s1, p, tmp, doc);
      if !filled then (Remove(s2, p, tmp).0, false)
      else
        var (s3, moded) := Chmod(s2, p, tmp, mode, doc);
        if !moded then (Remove(s3, p, tmp).0, false)
        else
          var (s4, renamed) := Rename(s3, p, tmp, target);
          if renamed then (s4, true)
          else if tidy then (Remove(s4, p, tmp).0, false)
          else (s4, false)
  }

  /** What a whole-file write may do to a directory, whatever happens: the target is the old
      or the new file, never part of one, and only the temporary file may be left over. */
  ghost predicate WrittenWhole(d: Dir, d': Dir, tmp: string, target: string, node: Node, ok: bool, alive: bool) {
    && d' - {tmp, target} == d - {tmp, target}
    && (At(d', target) == At(d, target) || At(d', target) == Some(node))
    && (ok ==> alive && d' == d[target := node])
    && (!ok && alive ==> At(d', target) == At(d, target))
  }

  lemma Untouched(d: Dir, d': Dir, tmp: string, target: string, node: Node, alive: bool)
    requires d' - {tmp} == d - {tmp} && tmp != target
    ensures WrittenWhole(d, d', tmp, target, node, false, alive)
  {
    assert d' - {tmp, target} == (d' - {tmp}) - {target};
    assert d - {tmp, target} == (d - {tmp}) - {target};
    assert target in d <==> target in d - {tmp};
    assert target in d' <==> target in d' - {tmp};
    if target in d { assert d[target] == (d - {tmp})[target]; }
    if target in d' { assert d'[target] == (d' - {tmp})[target]; }
  }

  lemma Renamed(d: Dir, d3: Dir, d4: Dir, d': Dir, tmp: string, target: string, node: Node)
    requires d3 == d[tmp := node] && tmp !in d && tmp != target
    requires d4 == d3[target := node] - {tmp} && d' - {tmp} == d4 - {tmp}
    ensures d4 == d[target := node]
    ensures WrittenWhole(d, d', tmp, target, node, false, false)
  {
    assert d4 == d[target := node];
    Untouched(d4, d', tmp, target, node, false);
    assert d4 - {tmp, target} == d - {tmp, target};
  }

  lemma WriteAtomicWhole(os: Platform, s: Sys, p: Place, prefix: string, target: string, mode: Mode, doc: Doc, tidy: bool)
    requires Published(target)
    ensures var (s', ok) := WriteAtomic(os, s, p, prefix, target, mode, doc, tidy);
      var d, d' := DirAt(s.w, p), DirAt(s'.w, p);
      && s'.w == WithDir(s.w, p, d')
      && WrittenWhole(d, d', TempName(os, d, prefix), target, File(mode, doc), ok, s'.alive)
      && (s'.alive ==> s.alive)
      && (!s.alive ==> s' == s)
      && (ok ==> HasDir(s.w, p))
      && (s.script == Calm && s.alive && HasDir(s.w, p) && At(d, target) != Some(Folder) ==> ok && s'.script == Calm)
  {
    hide CreateTemp, Filling, Chmod, Remove, Rename, WithDir, DirAt, WrittenWhole, TempName;
    var node := File(mode, doc);
    var d := DirAt(s.w, p);
    var (s1, tmp, created) := CreateTemp(os, s, p, prefix);
    var (s', ok) := WriteAtomic(os, s, p, prefix, target, mode, doc, tidy);
    if !created {
      Untouched(d, DirAt(s'.w, p), tmp, target, node, s'.alive);
    } else {
      var (s2, filled) := Filling(s1, p, tmp, doc);
      OnlyEntryChain(s, s1, s2, p, tmp);
      if !filled {
        OnlyEntryChain(s, s2, s', p, tmp);
        Untouched(d, DirAt(s'.w, p), tmp, target, node, s'.alive);
      } else {
        var (s3, moded) := Chmod(s2, p, tmp, mode, doc);
        OnlyEntryChain(s, s2, s3, p, tmp);
        if !moded {
          OnlyEntryChain(s, s3, s', p, tmp);
          Untouched(d, DirAt(s'.w, p), tmp, target, node, s'.alive);
        } else {
          FinishWrite(s, s3, p, tmp, target, node, tidy);
        }
      }
    }
  }

  lemma FinishWrite(s: Sys, s3: Sys, p: Place, tmp: string, target: string, node: Node, tidy: bool)
    requires OnlyEntry(s, s3, p, tmp) && HasDir(s.w, p) && s3.alive
    requires tmp !in DirAt(s.w, p) && tmp != target
    requires DirAt(s3.w, p) == DirAt(s.w, p)[tmp := node]
    ensures var (s4, renamed) := Rename(s3, p, tmp, target);
      var s' := if !renamed && tidy then Remove(s4, p, tmp).0 else s4;
      && s'.w == WithDir(s.w, p, DirAt(s'.w, p))
      && WrittenWhole(DirAt(s.w, p), DirAt(s'.w, p), tmp, target, node, renamed, s'.alive)
      && (s'.alive ==> s.alive)
      && (s3.script == Calm && At(DirAt(s.w, p), target) != Some(Folder) ==> renamed && s4.script == Calm)
  {
    hide Remove, Rename;
    var d := DirAt(s.w, p);
    var (s4, renamed) := Rename(s3, p, tmp, target);
    var s' := if !renamed && tidy then Remove(s4, p, tmp).0 else s4;
    var d3 := d[tmp := node];
    DirTwice(s.w, p, d3, DirAt(s4.w, p));
    DirTwice(s.w, p, DirAt(s4.w, p), DirAt(s'.w, p));
    if s4.w == s3.w {
      assert DirAt(s'.w, p) - {tmp} == d - {tmp};
      Untouched(d, DirAt(s'.w, p), tmp, target, node, s'.alive);
    } else {
      Renamed(d, d3, DirAt(s4.w, p), DirAt(s'.w, p), tmp, target, node);
    }
  }

  // ---------------------------------------------------------------- a running process

  /** The process that executes the program's statements; each method is one call to docker
      or the operating system. */
  class Process {
    var sys: Sys

    constructor (s: Sys)
      ensures sys == s
    {
      sys := s;
    }

    method Do() returns (o: Outcome)
      modifies this
      ensures (sys, o) == Call(old(sys))
    {
      var r := Call(sys);
      sys := r.0;
      return r.1;
    }

    method Stop(name: string) returns (o: Outcome)
      modifies this
      ensures (sys, o) == DockerStop(old(sys), name)
    {
      var r := DockerStop(sys, name);
      sys := r.0;
      return r.1;
    }

    method Rm(name: string) returns (o: Outcome)
      modifies this
      ensures (sys, o) == DockerRemove(old(sys), name)
    {
      var r := DockerRemove(sys, name);
      sys := r.0;
      return r.1;
    }

    method Start(name: string) returns (o: Outcome)
      modifies this
      ensures (sys, o) == DockerStart(old(sys), name)
    {
      var r := DockerStart(sys, name);
      sys := r.0;
      return r.1;
    }

    method Run(req: RunRequest) returns (o: Outcome)
      modifies this
      ensures (sys, o) == DockerRun(old(sys), req)
    {
      var r := DockerRun(sys, req);
      sys := r.0;
      return r.1;
    }

    method Look(name: string) returns (i: Inspection)
      modifies this
      ensures (sys, i) == Inspect(old(sys), name)
    {
      var r := Inspect(sys, name);
      sys := r.0;
      return r.1;
    }

    method Unlink(p: Place, name: string) returns (ok: bool)
      modifies this
      ensures (sys, ok) == Remove(old(sys), p, name)
    {
      var r := Remove(sys, p, name);
      sys := r.0;
      return r.1;
    }

    method Move(p: Place, from: string, to: string) returns (ok: bool)
      modifies this
      ensures (sys, ok) == Rename(old(sys), p, from, to)
    {
      var r := Rename(sys, p, from, to);
      sys := r.0;
      return r.1;
    }

    /** The whole-file writers, statement by statement. */
    method WriteWhole(os: Platform, p: Place, prefix: string, target: string, mode: Mode, doc: Doc, tidy: bool) returns (ok: bool)
      modifies this
      ensures (sys, ok) == WriteAtomic(os, old(sys), p, prefix, target, mode, doc, tidy)
    {
      var c := CreateTemp(os, sys, p, prefix);
      sys := c.0;
      if !c.2 { return false; }
      var tmp := c.1;
      var f := Fill(sys, p, tmp, doc);
      sys := f.0;
      if !f.1 {
        var _ := Unlink(p, tmp);
        return false;
      }
      var closed := Do();
      if !closed.Ok? {
        var _ := Unlink(p, tmp);
        return false;
      }
      f := Chmod(sys, p, tmp, mode, doc);
      sys := f.0;
      if !f.1 {
        var _ := Unlink(p, tmp);
        return false;
      }
      ok := Move(p, tmp, target);
      if !ok && tidy {
        var _ := Unlink(p, tmp);
      }
    }
  }
}
