/** One failing call in the later half of a deploy, Save and the publication: which step is
    reported, and what is reported when the failure is only logged. */
module LateFault {
  import opened Text
  import opened Types
  import opened Host
  import opened Registry
  import opened RegistryLaws
  import opened Orchestrator
  import opened DeployLaws
  import opened DeployTheorems
  import opened FirstFault
  import Caddyfile

  /** k more calls of this living process go well, the next one fails, the rest go well. */
  predicate Due(s: Sys, k: nat, x: Fault) {
    s.alive && s.script == Fines(k, Then(Fail(x.inContext, x.effect), Calm))
  }

  /** The one failure is over. */
  predicate Past(s: Sys) { s.alive && s.script == Calm }

  lemma DrawsDue(s: Sys, k: nat, x: Fault)
    requires Due(s, k, x)
    ensures k == 0 ==> Draw(s).0 == Fail(x.inContext, x.effect) && Past(Draw(s).1)
    ensures k > 0 ==> Draw(s).0 == Fine && Due(Draw(s).1, k - 1, x)
  {
  }

  // ---------------------------------------------------------------- writing a file

  /** Creating, writing, closing, changing the mode of and renaming the temporary file: if one of
      them fails and nothing else does, all is as before, but that the Caddyfile's writer leaves
      the finished temporary file when the rename fails. */
  lemma WriteFails(os: Platform, s: Sys, p: Place, prefix: string, target: string, mode: Mode, doc: Doc, tidy: bool, k: nat, x: Fault)
    requires Due(s, k, x) && HasDir(s.w, p) && Published(target) && At(DirAt(s.w, p), target) != Some(Folder)
    ensures var (s', ok) := WriteAtomic(os, s, p, prefix, target, mode, doc, tidy);
      if k >= 5 then ok && Due(s', k - 5, x)
      else
        && !ok && Past(s')
        && (tidy || k < 4 ==> s'.w == s.w)
        && (!tidy && k == 4 ==>
            s'.w == WithDir(s.w, p, DirAt(s.w, p)[TempName(os, DirAt(s.w, p), prefix) := File(mode, doc)]))
  {
    hide TempName, WithDir, DirAt, Changed, Published, Due, Past, Draw, CreateTemp, Filling, Chmod, Rename, Remove;
    CreateFails(os, s, p, prefix, k, x);
    var (s1, tmp, created) := CreateTemp(os, s, p, prefix);
    if k > 0 {
      FillFails(s1, p, tmp, doc, k - 1, x);
      var (s2, filled) := Filling(s1, p, tmp, doc);
      OnlyEntryChain(s, s1, s2, p, tmp);
      if k <= 2 { TidiesUp(s, s2, p, tmp); }
      if k > 2 {
        ChmodFails(s2, p, tmp, mode, doc, k - 3, x);
        var (s3, moded) := Chmod(s2, p, tmp, mode, doc);
        OnlyEntryChain(s, s2, s3, p, tmp);
        if k == 3 { TidiesUp(s, s3, p, tmp); }
        if k > 3 {
          TempUnpublished(tmp, prefix);
          PutThrice(DirAt(s.w, p), tmp, File(M0600, Torn), File(M0600, doc), File(mode, doc));
          WriteEnds(s, s3, p, tmp, target, File(mode, doc), k - 4, x);
        }
      }
    }
  }

  lemma PutThrice<K, V>(m: map<K, V>, k: K, a: V, b: V, c: V)
    ensures m[k := a][k := b][k := c] == m[k := c]
  {
  }

  /** The rename, from a finished temporary file. */
  lemma WriteEnds(s: Sys, s3: Sys, p: Place, tmp: string, target: string, node: Node, k: nat, x: Fault)
    requires OnlyEntry(s, s3, p, tmp) && Due(s3, k, x) && s.alive
    requires tmp !in DirAt(s.w, p) && tmp != target && At(DirAt(s.w, p), target) != Some(Folder)
    requires DirAt(s3.w, p) == DirAt(s.w, p)[tmp := node]
    ensures var (s4, ok) := Rename(s3, p, tmp, target);
      if k > 0 then ok && Due(s4, k - 1, x)
      else
        && !ok && Past(s4) && s4.w == WithDir(s.w, p, DirAt(s.w, p)[tmp := node])
        && Past(Remove(s4, p, tmp).0) && Remove(s4, p, tmp).0.w == s.w
  {
    hide WithDir, DirAt, Due, Past, Rename, Remove;
    TargetKept(s, s3, p, tmp, target);
    RenameFails(s3, p, tmp, target, k, x);
    if k == 0 { TidiesUp(s, Rename(s3, p, tmp, target).0, p, tmp); }
  }

  /** Undisturbed, the temporary file is removed again. */
  lemma TidiesUp(s: Sys, s': Sys, p: Place, tmp: string)
    requires OnlyEntry(s, s', p, tmp) && Past(s') && tmp !in DirAt(s.w, p)
    ensures Past(Remove(s', p, tmp).0) && Remove(s', p, tmp).0.w == s.w
  {
    var s'' := Remove(s', p, tmp).0;
    var d, d' := DirAt(s.w, p), DirAt(s''.w, p);
    assert d' == d' - {tmp} && d == d - {tmp};
    DirTwice(s.w, p, DirAt(s'.w, p), d');
    SameDir(s.w, p);
  }

  lemma CreateFails(os: Platform, s: Sys, p: Place, prefix: string, k: nat, x: Fault)
    requires Due(s, k, x) && HasDir(s.w, p)
    ensures var (s', _, ok) := CreateTemp(os, s, p, prefix);
      HasDir(s'.w, p) && if k == 0 then !ok && Past(s') && s'.w == s.w else ok && Due(s', k - 1, x)
  {
    hide TempName;
    DrawsDue(s, k, x);
  }

  lemma FillFails(s: Sys, p: Place, tmp: string, doc: Doc, k: nat, x: Fault)
    requires Due(s, k, x) && HasDir(s.w, p)
    ensures var (s', ok) := Filling(s, p, tmp, doc);
      HasDir(s'.w, p) && if k < 2 then !ok && Past(s') else ok && Due(s', k - 2, x)
  {
    DrawsDue(s, k, x);
    if k > 0 { DrawsDue(Fill(s, p, tmp, doc).0, k - 1, x); }
  }

  lemma ChmodFails(s: Sys, p: Place, tmp: string, mode: Mode, doc: Doc, k: nat, x: Fault)
    requires Due(s, k, x) && HasDir(s.w, p)
    ensures var (s', ok) := Chmod(s, p, tmp, mode, doc);
      HasDir(s'.w, p) && if k == 0 then !ok && Past(s') else ok && Due(s', k - 1, x)
  {
    DrawsDue(s, k, x);
  }

  lemma RenameFails(s: Sys, p: Place, from: string, to: string, k: nat, x: Fault)
    requires Due(s, k, x) && from in DirAt(s.w, p) && At(DirAt(s.w, p), to) != Some(Folder)
    ensures var (s', ok) := Rename(s, p, from, to);
      if k == 0 then !ok && Past(s') && s'.w == s.w else ok && Due(s', k - 1, x)
  {
    DrawsDue(s, k, x);
  }

  lemma RemoveAlive(s: Sys, p: Place, name: string)
    ensures Past(s) ==> Past(Remove(s, p, name).0)
  {
  }

  lemma TargetKept(s: Sys, s': Sys, p: Place, tmp: string, target: string)
    requires OnlyEntry(s, s', p, tmp) && tmp != target && At(DirAt(s.w, p), target) != Some(Folder)
    ensures At(DirAt(s'.w, p), target) != Some(Folder)
  {
    Twice(DirAt(s.w, p), DirAt(s'.w, p), tmp);
    ExceptTwo(DirAt(s.w, p), DirAt(s'.w, p), tmp, tmp, target);
  }

  lemma TempUnpublished(f: string, prefix: string)
    requires IsTemp(f, prefix)
    ensures !Published(f)
  {
  }

  lemma Twice(d: Dir, d': Dir, a: string)
    requires d' - {a} == d - {a}
    ensures d' - {a, a} == d - {a, a}
  {
    assert {a, a} == {a};
  }

  // ---------------------------------------------------------------- Save

  /** The calls of Save: six up to the config's rename, then seven. If one of the six fails, and
      nothing else, all is as before; if one of the seven, no temporary file is left. */
  lemma SaveFails(os: Platform, s: Sys, svc: Service, k: nat, x: Fault)
    requires Due(s, k, x) && svc.config.name != ""
    requires ConfigAt(s.w, svc.config.name) != Some(Folder) && SecretsAt(s.w, svc.config.name) != Some(Folder)
    ensures var (s', r) := Saving(os, s, svc);
      if k < 6 then r == NotSaved && Past(s') && s'.w == s.w
      else if k < 13 then r == PartialWrite && Past(s') && forall f :: Leftover(s'.w, svc.config.name, f) <==> Leftover(s.w, svc.config.name, f)
      else r == Saved && Due(s', k - 13, x)
  {
    hide WriteAtomic, Due, Past, Draw, SavingSecrets, PublishedPart;
    var n := svc.config.name;
    ConfigFilePublished(n);
    CallsDue(s, k, x);
    var s1 := Call(s).0;
    if k > 0 { WriteFails(os, s1, Services, TEMP, ConfigFile(n), M0644, ConfigDoc(Filled(svc).config), true, k - 1, x); }
    if k >= 6 {
      SavingConfigWhole(os, s, svc);
      SecretsFail(os, SavingConfig(os, s, svc).0, svc, k - 6, x);
    }
  }

  lemma CallsDue(s: Sys, k: nat, x: Fault)
    requires Due(s, k, x)
    ensures if k == 0 then Call(s).1.Failed? && Past(Call(s).0) else Call(s).1.Ok? && Due(Call(s).0, k - 1, x)
  {
  }

  lemma SecretsFail(os: Platform, s: Sys, svc: Service, k: nat, x: Fault)
    requires Due(s, k, x) && SecretsAt(s.w, svc.config.name) != Some(Folder)
    ensures var (s', ok) := SavingSecrets(os, s, svc);
      if k < 7 then !ok && Past(s') && forall f :: Leftover(s'.w, svc.config.name, f) <==> Leftover(s.w, svc.config.name, f)
      else ok && Due(s', k - 7, x)
  {
    hide WriteAtomic;
    var n := svc.config.name;
    ConfigFilePublished(n);
    DrawsDue(s, k, x);
    var s1 := MakeSecretDir(os, s, n).0;
    if k > 0 {
      DrawsDue(s1, k - 1, x);
      var s2 := ChmodSecretDir(s1, n).0;
      if k > 1 { WriteFails(os, s2, SecretsOf(n), TEMP, ENV_FILE, M0600, SecretsDoc(Filled(svc).secrets), true, k - 2, x); }
    }
  }

  // ---------------------------------------------------------------- the publication

  /** The calls of a publication. The stub is made only where there is no live file. */
  datatype Publish = ReadDirectory | ReadService(i: nat) | CheckLive | MakeStub | Stage | Validate | Install | Reload

  function Reads(n: nat): (steps: seq<Publish>)
    ensures |steps| == n
    ensures forall i :: 0 <= i < n ==> steps[i] == ReadService(i)
  {
    seq(n, i requires 0 <= i < n => ReadService(i))
  }

  function StubSteps(w: World): seq<Publish> { if "Caddyfile" in w.caddy then [CheckLive] else [CheckLive, MakeStub, MakeStub] }

  function PublishSteps(w: World): seq<Publish> {
    [ReadDirectory] + Reads(|Names(w.services)|) + StubSteps(w)
    + [Stage, Stage, Stage, Stage, Stage, Stage, Validate, Install, Reload]
  }

  /** What a failed step is reported as; a step that is not here is only logged or skipped. */
  function PublishError(step: Publish): Option<Error> {
    match step
    case ReadDirectory => Some(ErrList)
    case Stage => Some(ErrCaddyReload(Generating))
    case Validate => Some(ErrCaddyReload(ValidatingStep))
    case Install => Some(ErrCaddyReload(Renaming))
    case Reload => Some(ErrCaddyReload(ReloadingStep))
    case _ => None
  }

  /** The services whose routes are published when that step fails. */
  function Seen(w: World, step: Publish): seq<Service> {
    var names := Names(w.services);
    LoadEach(w, if step.ReadService? && step.i < |names| then Dropping(names, step.i) else names)
  }

  lemma ListingFails(s: Sys, k: nat, x: Fault)
    requires Due(s, k, x)
    ensures var names := Names(s.w.services);
      var (s', services) := Listing(s);
      && s'.w == s.w
      && if k == 0 then services == None && Past(s')
         else if k <= |names| then services == Some(LoadEach(s.w, Dropping(names, k - 1))) && Past(s')
         else services == Some(LoadEach(s.w, names)) && Due(s', k - |names| - 1, x)
  {
    hide Names, LoadEach, Scan;
    var names := Names(s.w.services);
    var failure := Then(Fail(x.inContext, x.effect), Calm);
    CallsDue(s, k, x);
    if 0 < k <= |names| {
      assert Call(s).0 == Sys(s.w, Fines(k - 1, failure), true);
      ScanDrops(s.w, names, k - 1, x.inContext, x.effect);
    } else if k > 0 {
      assert Call(s).0 == Sys(s.w, Fines(k - 1, failure), true);
      FinesSplit(|names|, k - 1 - |names|, failure);
      ScanAllFine(s.w, names, Fines(k - 1 - |names|, failure));
    }
  }

  lemma StubFails(os: Platform, s: Sys, k: nat, x: Fault)
    requires Due(s, k, x)
    ensures var m := |StubSteps(s.w)|;
      if k < m then Past(WritingStub(os, s)) else Due(WritingStub(os, s), k - m, x)
  {
    DrawsDue(s, k, x);
    if k > 0 { DrawsDue(Call(s).0, k - 1, x); }
    if k > 1 { DrawsDue(Call(Call(s).0).0, k - 2, x); }
  }

  lemma StageFails(os: Platform, s: Sys, text: string, k: nat, x: Fault)
    requires Due(s, k, x) && At(s.w.caddy, NEXT) != Some(Folder)
    ensures var (s', ok) := Staging(os, s, text);
      if k < 6 then !ok && Past(s') && (k < 5 ==> s'.w == s.w) else ok && Due(s', k - 6, x)
  {
    hide WriteAtomic;
    LiveIsNoTemp();
    CallsDue(s, k, x);
    if k > 0 { WriteFails(os, Call(s).0, Caddy, CADDY_TEMP, NEXT, M0644, TextDoc(text), false, k - 1, x); }
  }

  lemma InstallFails(os: Platform, s: Sys, text: string, k: nat, x: Fault)
    requires Due(s, k, x) && At(s.w.caddy, NEXT) == Serving(text) && LiveAt(s.w) != Some(Folder)
    ensures Installing(os, s).1 ==
      if k == 0 || !os.accepts(text) then Failure(ErrCaddyReload(ValidatingStep))
      else if k == 1 then Failure(ErrCaddyReload(Renaming))
      else if k == 2 then Failure(ErrCaddyReload(ReloadingStep))
      else Success
  {
    hide Rename, Remove;
    LiveIsNoTemp();
    CallsDue(s, k, x);
    if k > 0 {
      var s1 := Call(s).0;
      RenameFails(s1, Caddy, NEXT, LIVE, k - 1, x);
      if k > 1 { DrawsDue(Rename(s1, Caddy, NEXT, LIVE).0, k - 2, x); }
    }
  }

  /** What a publication of these services replies when nothing goes wrong. */
  function Judged(os: Platform, services: seq<Service>): Reply {
    if os.accepts(Caddyfile.Render(services)) then Success else Failure(ErrCaddyReload(ValidatingStep))
  }

  lemma FinishFails(os: Platform, s: Sys, services: seq<Service>, k: nat, x: Fault)
    requires Due(s, k, x) && At(s.w.caddy, NEXT) != Some(Folder) && LiveAt(s.w) != Some(Folder)
    ensures var (s1, generated) := Staging(os, s, Caddyfile.Render(services));
      if k < 6 then !generated
      else
        && generated
        && Installing(os, s1).1 == (
            if k == 6 then Failure(ErrCaddyReload(ValidatingStep))
            else if Judged(os, services).Failure? then Judged(os, services)
            else if k == 7 then Failure(ErrCaddyReload(Renaming))
            else if k == 8 then Failure(ErrCaddyReload(ReloadingStep))
            else Success)
  {
    hide Staging, Installing, Caddyfile.Render;
    var text := Caddyfile.Render(services);
    StageFails(os, s, text, k, x);
    StageKeeps(os, s, text);
    if k >= 6 { InstallFails(os, Staging(os, s, text).0, text, k - 6, x); }
  }

  lemma FinishCalm(os: Platform, s: Sys, services: seq<Service>)
    requires Past(s) && At(s.w.caddy, NEXT) != Some(Folder) && LiveAt(s.w) != Some(Folder)
    ensures var (s1, generated) := Staging(os, s, Caddyfile.Render(services));
      generated && Installing(os, s1).1 == Judged(os, services)
  {
    hide Staging, Installing, Caddyfile.Render;
    var text := Caddyfile.Render(services);
    StageKeeps(os, s, text);
    InstalledSafely(os, Staging(os, s, text).0, text);
  }

  /** One failing call of a publication, whatever it did before it failed, is reported as its
      step's error; making the stub and reading a service are forgiven, the latter at the price
      of that service's routes. A file Caddy rejects ends at validation. */
  lemma PublishNamesTheStep(os: Platform, s: Sys, k: nat, x: Fault)
    requires Due(s, k, x) && CaddySound(os, s.w)
    ensures var steps := PublishSteps(s.w);
      var r := Publishing(os, s).1;
      if k >= |steps| then r == Judged(os, LoadEach(s.w, Names(s.w.services)))
      else
        var verdict := Judged(os, Seen(s.w, steps[k]));
        r == if PublishError(steps[k]).None? || ((steps[k].Install? || steps[k].Reload?) && verdict.Failure?) then verdict
             else Failure(PublishError(steps[k]).value)
  {
    hide Due, Past, Listing, WritingStub, Staging, Installing, Names, LoadEach, Judged, Caddyfile.Render, CaddySound;
    NoFolders(os, s.w);
    ListingFails(s, k, x);
    var n := |Names(s.w.services)|;
    var (s1, services) := Listing(s);
    if 0 < k <= n {
      StubWrittenCalmly(os, s1);
      FinishCalm(os, WritingStub(os, s1), services.value);
    } else if k > n {
      var j := k - n - 1;
      StubFails(os, s1, j, x);
      StubLeavesNoFolder(os, s1);
      var s2 := WritingStub(os, s1);
      var m := |StubSteps(s.w)|;
      if j < m {
        FinishCalm(os, s2, services.value);
      } else {
        FinishFails(os, s2, services.value, j - m, x);
      }
      StepAt(s.w, j);
    }
  }

  /** The steps after the reads. */
  lemma StepAt(w: World, j: nat)
    ensures var n, m := |Names(w.services)|, |StubSteps(w)|;
      && |PublishSteps(w)| == 1 + n + m + 9
      && (j < m ==> PublishSteps(w)[1 + n + j] == StubSteps(w)[j])
      && (m <= j < m + 9 ==>
          PublishSteps(w)[1 + n + j] == (if j < m + 6 then Stage else if j == m + 6 then Validate else if j == m + 7 then Install else Reload))
  {
  }

  lemma StubLeavesNoFolder(os: Platform, s: Sys)
    requires At(s.w.caddy, NEXT) != Some(Folder) && LiveAt(s.w) != Some(Folder)
    ensures var w' := WritingStub(os, s).w; At(w'.caddy, NEXT) != Some(Folder) && LiveAt(w') != Some(Folder)
  {
    hide WritingStub;
    StubWritten(os, s);
  }

  lemma StubWrittenCalmly(os: Platform, s: Sys)
    requires Past(s) && At(s.w.caddy, NEXT) != Some(Folder) && LiveAt(s.w) != Some(Folder)
    ensures var s' := WritingStub(os, s);
      Past(s') && At(s'.w.caddy, NEXT) != Some(Folder) && LiveAt(s'.w) != Some(Folder)
  {
    hide WritingStub;
    StubWritten(os, s);
  }

  // ---------------------------------------------------------------- the whole deploy

  /** One failing call after readiness: in Save the deploy reports it as such, whatever it did;
      after Save the deploy is a publication from the requested state, with its replies. */
  lemma LateFaultNamesTheStep(os: Platform, w: World, req: Request, k: nat, x: Fault)
    requires CliRequest(req) && MayDeploy(w, req.name) && Gate(w, req.name) && Sound(w) && CaddySound(os, w)
    requires k >= |Steps(w, req)|
    ensures var j := k - |Steps(w, req)|;
      var s := FailingAt(w, k, x);
      var a := Attempting(os, s, req);
      if j < 13 then a.Broken? && a.at == AtSave(j >= 6) && Deploying(os, s, req).1 == Failure(ErrSave)
      else
        && a.Up? && Due(a.s, j - 13, x) && CaddySound(os, a.s.w)
        && InStep(a.s.w, req.name) && Load(a.s.w, req.name) == Loaded(ServiceOf(req))
        && Deploying(os, s, req) == Publishing(os, a.s)
  {
    hide Load, FailingAt, Preparing, Clearing, Launching, Compensating, Publishing, Due, Past, ContainerName, CliRequest, InStep,
      CaddySound, Sound;
    var prev := LoadedOrNone(w, req.name);
    var c := ContainerName(req.name);
    PreparingFails(w, req, k, x);
    var i := k - |Preparation(req)|;
    ClearingFails(w, req.name, prev, i, x);
    var s2 := FailingAt(With(w, c, None), k - |Steps(w, req)| + 2, x);
    var a := Launching(os, s2, req, prev);
    assert Attempting(os, FailingAt(w, k, x), req) == a;
    LaunchGoesOn(os, w, req, prev, k - |Steps(w, req)|, x);
    LaunchingErrors(os, s2, req, prev);
    if a.Up? {
      AttemptingLocal(os, FailingAt(w, k, x), req);
      FailingIn(w, k, x);
      SameCaddy(os, w, a.s.w);
    }
  }

  lemma LaunchGoesOn(os: Platform, w: World, req: Request, prev: Option<Service>, j: nat, x: Fault)
    requires CliRequest(req) && Sound(w)
    ensures var a := Launching(os, FailingAt(With(w, ContainerName(req.name), None), j + 2, x), req, prev);
      if j < 13 then a.Broken? && a.at == AtSave(j >= 6) && a.error == ErrSave else a.Up? && Due(a.s, j - 13, x)
  {
    hide Saving, ContainerName, FromRequest, CliRequest, Due, Past, Draw;
    NameRuns(req);
    var c := ContainerName(req.name);
    var w1 := With(w, c, None);
    WithAt(w, c, None);
    var s := FailingAt(w1, j + 2, x);
    FailingIsDue(w1, j + 2, x);
    DrawsDue(s, j + 2, x);
    var s1 := DockerRun(s, DeployRun(req)).0;
    CallsDue(s1, j + 1, x);
    NoFolderIn(w, req.name);
    SaveFails(os, Call(s1).0, ServiceOf(req), j, x);
  }

  lemma FailingIsDue(w: World, k: nat, x: Fault)
    ensures Due(FailingAt(w, k, x), k, x)
  {
  }

  lemma NoFolderIn(w: World, name: string)
    requires Sound(w)
    ensures ConfigAt(w, name) != Some(Folder) && SecretsAt(w, name) != Some(Folder)
  {
    assert SoundName(w, name);
  }
}
