/** What Save, Delete and Load keep true of the registry, however they are interrupted. */
module RegistryLaws {
  import opened Text
  import opened Types
  import opened Host
  import opened Registry
  import Mounts

  function ConfigAt(w: World, name: string): Option<Node> { At(w.services, ConfigFile(name)) }

  function SecretsAt(w: World, name: string): Option<Node> { At(DirAt(w, SecretsOf(name)), ENV_FILE) }

  // ---------------------------------------------------------------- what other services see

  /** A directory without its temporary files. */
  function PublishedPart(d: Dir): Dir { map f | f in d && Published(f) :: d[f] }

  /** From w to w' only the registration called name may differ. */
  predicate OnlyRegistration(w: World, w': World, name: string) {
    && w' == w.(services := w'.services, secrets := w'.secrets)
    && PublishedPart(w'.services) - {ConfigFile(name)} == PublishedPart(w.services) - {ConfigFile(name)}
    && w'.secrets - {name} == w.secrets - {name}
  }

  lemma PublishedEntry(d: Dir, d': Dir, target: string, f: string)
    requires PublishedPart(d') - {target} == PublishedPart(d) - {target}
    requires Published(f) && f != target
    ensures At(d', f) == At(d, f)
  {
    assert f in d <==> f in PublishedPart(d) - {target};
    assert f in d' <==> f in PublishedPart(d') - {target};
    if f in d { assert (PublishedPart(d) - {target})[f] == d[f]; }
    if f in d' { assert (PublishedPart(d') - {target})[f] == d'[f]; }
  }

  lemma ConfigFilePublished(name: string)
    ensures Published(ConfigFile(name)) && Published(ENV_FILE)
  {
  }

  /** Other services' two files are untouched. */
  lemma OthersUntouched(w: World, w': World, name: string, other: string)
    requires OnlyRegistration(w, w', name) && other != name
    ensures ConfigAt(w', other) == ConfigAt(w, other)
    ensures At(w'.secrets, other) == At(w.secrets, other)
    ensures Load(w', other) == Load(w, other)
  {
    AppendInjective(other, name, ".toml");
    ConfigFilePublished(other);
    PublishedEntry(w.services, w'.services, ConfigFile(name), ConfigFile(other));
    assert other in w.secrets <==> other in w.secrets - {name};
    assert other in w'.secrets <==> other in w'.secrets - {name};
    if other in w.secrets { assert (w.secrets - {name})[other] == w.secrets[other]; }
    if other in w'.secrets { assert (w'.secrets - {name})[other] == w'.secrets[other]; }
  }

  lemma WrittenElsewhere(d: Dir, d': Dir, tmp: string, target: string, node: Node, ok: bool, alive: bool)
    requires WrittenWhole(d, d', tmp, target, node, ok, alive) && !Published(tmp)
    ensures PublishedPart(d') - {target} == PublishedPart(d) - {target}
  {
    forall f | Published(f) && f != target ensures At(d', f) == At(d, f) {
      assert f in d <==> f in d - {tmp, target};
      assert f in d' <==> f in d' - {tmp, target};
      if f in d { assert (d - {tmp, target})[f] == d[f]; }
      if f in d' { assert (d' - {tmp, target})[f] == d'[f]; }
    }
  }

  // ---------------------------------------------------------------- a kill anywhere in Save

  predicate OwnerBitsKept(os: Platform) {
    !os.umask.user.r && !os.umask.user.w && !os.umask.user.x
  }

  lemma SavingConfigWhole(os: Platform, s: Sys, svc: Service)
    ensures var (s', ok) := SavingConfig(os, s, svc);
      var n := svc.config.name;
      && s'.w == s.w.(services := s'.w.services)
      && PublishedPart(s'.w.services) - {ConfigFile(n)} == PublishedPart(s.w.services) - {ConfigFile(n)}
      && (ConfigAt(s'.w, n) == ConfigAt(s.w, n) || ConfigAt(s'.w, n) == Some(ConfigNode(svc)))
      && (ok ==> s'.alive && ConfigAt(s'.w, n) == Some(ConfigNode(svc)))
      && (!ok && s'.alive ==> ConfigAt(s'.w, n) == ConfigAt(s.w, n))
      && (s'.alive ==> s.alive)
      && (!s.alive ==> s' == s)
      && (s.script == Calm && s.alive && ConfigAt(s.w, n) != Some(Folder) ==> ok && s'.script == Calm)
  {
    hide WriteAtomic, PublishedPart, TempName;
    var n := svc.config.name;
    var s1 := Call(s).0;
    ConfigFilePublished(n);
    if Call(s).1.Ok? {
      WriteAtomicWhole(os, s1, Services, TEMP, ConfigFile(n), M0644, ConfigDoc(Filled(svc).config), true);
      var (s', ok) := WriteAtomic(os, s1, Services, TEMP, ConfigFile(n), M0644, ConfigDoc(Filled(svc).config), true);
      WrittenElsewhere(s.w.services, s'.w.services, TempName(os, s.w.services, TEMP), ConfigFile(n), ConfigNode(svc), ok, s'.alive);
    }
  }

  /** The mode a secrets directory may have after an interrupted Save. */
  predicate DirModeAfter(os: Platform, w: World, w': World, name: string) {
    name in w'.secrets ==>
      || w'.secrets[name].mode == M0700
      || (name in w.secrets && w'.secrets[name].mode == w.secrets[name].mode)
      || (name !in w.secrets && w'.secrets[name].mode == Masked(M0700, os.umask))
  }

  lemma SavingSecretsWhole(os: Platform, s: Sys, svc: Service)
    ensures var (s', ok) := SavingSecrets(os, s, svc);
      var n := svc.config.name;
      && s'.w == s.w.(secrets := s'.w.secrets)
      && s'.w.secrets - {n} == s.w.secrets - {n}
      && (SecretsAt(s'.w, n) == SecretsAt(s.w, n) || SecretsAt(s'.w, n) == Some(SecretsNode(svc)))
      && (n in s.w.secrets ==> n in s'.w.secrets)
      && DirModeAfter(os, s.w, s'.w, n)
      && (ok ==> s'.alive && SecretsAt(s'.w, n) == Some(SecretsNode(svc)) && s'.w.secrets[n].mode == M0700)
      && (!ok && s'.alive ==> SecretsAt(s'.w, n) == SecretsAt(s.w, n))
      && (s'.alive ==> s.alive)
      && (!s.alive ==> s' == s)
      && (s.script == Calm && s.alive && SecretsAt(s.w, n) != Some(Folder) ==> ok && s'.script == Calm)
  {
    hide WriteAtomic, TempName;
    var n := svc.config.name;
    ConfigFilePublished(n);
    var (s1, made) := MakeSecretDir(os, s, n);
    assert s1.w.secrets - {n} == s.w.secrets - {n};
    if made {
      var (s2, moded) := ChmodSecretDir(s1, n);
      assert s2.w.secrets - {n} == s.w.secrets - {n};
      if moded {
        WriteAtomicWhole(os, s2, SecretsOf(n), TEMP, ENV_FILE, M0600, SecretsDoc(Filled(svc).secrets), true);
        var (s', ok) := WriteAtomic(os, s2, SecretsOf(n), TEMP, ENV_FILE, M0600, SecretsDoc(Filled(svc).secrets), true);
        assert s'.w.secrets - {n} == s2.w.secrets - {n};
      }
    }
  }

  /** A kill or failure anywhere in Save leaves (config, secrets) as they were, with the new
      config only, or both new: never new secrets under an old config, never part of a file.
      The result tells the survivor exactly which, and no other service is touched. */
  lemma SaveCrashSafe(os: Platform, s: Sys, svc: Service)
    ensures var (s', r) := Saving(os, s, svc);
      var n := svc.config.name;
      var before := (ConfigAt(s.w, n), SecretsAt(s.w, n));
      var mixed := (Some(ConfigNode(svc)), SecretsAt(s.w, n));
      var after := (Some(ConfigNode(svc)), Some(SecretsNode(svc)));
      var now := (ConfigAt(s'.w, n), SecretsAt(s'.w, n));
      && OnlyRegistration(s.w, s'.w, n)
      && (now == before || now == mixed || now == after)
      && (r.Saved? ==> s'.alive && now == after && s'.w.secrets[n].mode == M0700)
      && (s'.alive && r.NotSaved? ==> now == before)
      && (r.NotSaved? ==> s'.w.secrets == s.w.secrets)
      && (s'.alive && r.PartialWrite? ==> now == mixed)
      && (n in s.w.secrets ==> n in s'.w.secrets)
      && DirModeAfter(os, s.w, s'.w, n)
      && (s'.alive ==> s.alive)
      && (!s.alive ==> s' == s)
  {
    hide SavingConfig, SavingSecrets, PublishedPart;
    SavingConfigWhole(os, s, svc);
    SavingSecretsWhole(os, SavingConfig(os, s, svc).0, svc);
  }

  lemma SaveSucceeds(os: Platform, s: Sys, svc: Service)
    requires s.script == Calm && s.alive && svc.config.name != ""
    requires ConfigAt(s.w, svc.config.name) != Some(Folder) && SecretsAt(s.w, svc.config.name) != Some(Folder)
    ensures Saving(os, s, svc).1 == Saved && Saving(os, s, svc).0.script == Calm
  {
    hide SavingConfig, SavingSecrets, PublishedPart;
    SavingConfigWhole(os, s, svc);
    SavingSecretsWhole(os, SavingConfig(os, s, svc).0, svc);
  }

  // ---------------------------------------------------------------- a kill anywhere in Delete

  /** A kill or failure anywhere in Delete leaves both files, the config alone, or neither;
      success means neither, and no other service is touched. */
  lemma DeleteCrashSafe(s: Sys, n: string)
    ensures var (s', ok) := Deleting(s, n);
      var before := (ConfigAt(s.w, n), SecretsAt(s.w, n));
      var now := (ConfigAt(s'.w, n), SecretsAt(s'.w, n));
      && OnlyRegistration(s.w, s'.w, n)
      && (now == before || now == (ConfigAt(s.w, n), None) || now == (None, None))
      && (ok ==> s'.alive && ConfigAt(s'.w, n) == None && n !in s'.w.secrets)
      && (!ok && s'.alive ==> ConfigAt(s'.w, n) == ConfigAt(s.w, n))
      && (n in s'.w.secrets ==> n in s.w.secrets && s'.w.secrets[n].mode == s.w.secrets[n].mode)
      && (s'.alive ==> s.alive)
      && (!s.alive ==> s' == s)
  {
    hide PublishedPart;
    var (s1, file) := Remove(s, SecretsOf(n), ENV_FILE);
    assert s1.w.secrets - {n} == s.w.secrets - {n};
    if file {
      var (s2, dir) := RemoveSecretDir(s1, n);
      assert s2.w.secrets - {n} == s1.w.secrets - {n};
      if dir {
        RemovedElsewhere(s2.w.services, Remove(s2, Services, ConfigFile(n)).0.w.services, ConfigFile(n));
      }
    }
  }

  lemma RemovedElsewhere(d: Dir, d': Dir, target: string)
    requires d' - {target} == d - {target}
    ensures PublishedPart(d') - {target} == PublishedPart(d) - {target}
  {
    forall f | Published(f) && f != target ensures At(d', f) == At(d, f) {
      assert f in d <==> f in d - {target};
      assert f in d' <==> f in d' - {target};
      if f in d { assert (d - {target})[f] == d[f]; }
      if f in d' { assert (d' - {target})[f] == d'[f]; }
    }
  }

  /** Undisturbed, Delete succeeds exactly when the secrets directory holds nothing but the
      secrets file. */
  lemma DeleteSucceedsExactly(s: Sys, n: string)
    requires s.script == Calm && s.alive
    ensures Deleting(s, n).1 <==> (n in s.w.secrets ==> s.w.secrets[n].files.Keys <= {ENV_FILE})
    ensures Deleting(s, n).0.script == Calm
    ensures !Deleting(s, n).1 ==> ConfigAt(Deleting(s, n).0.w, n) == ConfigAt(s.w, n) && SecretsAt(Deleting(s, n).0.w, n) == None
  {
    var (s1, file) := Remove(s, SecretsOf(n), ENV_FILE);
    if n in s.w.secrets {
      var files := s.w.secrets[n].files;
      assert s1.w.secrets[n].files == files - {ENV_FILE};
      assert files - {ENV_FILE} == map[] <==> files.Keys <= {ENV_FILE} by {
        assert forall f :: f in files && f != ENV_FILE ==> f in files - {ENV_FILE};
      }
    }
  }

  // ---------------------------------------------------------------- what Load answers

  function ConfigOf(w: World, name: string): ServiceConfig
    requires HasConfig(w, name)
  {
    w.services[name + ".toml"].doc.config
  }

  /** There is a whole config file. */
  predicate HasConfig(w: World, name: string) {
    var f := name + ".toml";
    f in w.services && w.services[f].File? && w.services[f].doc.ConfigDoc?
  }

  predicate RightSchema(w: World, name: string) { HasConfig(w, name) && ConfigOf(w, name).schemaVersion == 1 }

  predicate RightMounts(w: World, name: string) { RightSchema(w, name) && Mounts.ValidMounts(ConfigOf(w, name).mounts) }

  /** The config file is one that Load accepts. */
  predicate GoodConfig(w: World, name: string) { RightMounts(w, name) && ConfigOf(w, name).strategy in {"", "recreate"} }

  predicate LacksSecrets(w: World, name: string) {
    name !in w.secrets || (w.secrets[name].mode == Octal(7, 0, 0) && "env.toml" !in w.secrets[name].files)
  }

  /** There is a secrets file, private in a private directory. */
  predicate PrivateSecrets(w: World, name: string) {
    && name in w.secrets && w.secrets[name].mode == Octal(7, 0, 0)
    && "env.toml" in w.secrets[name].files
    && w.secrets[name].files["env.toml"].File? && w.secrets[name].files["env.toml"].mode == Octal(6, 0, 0)
  }

  predicate WholeSecrets(w: World, name: string) {
    PrivateSecrets(w, name) && w.secrets[name].files["env.toml"].doc.SecretsDoc?
  }

  function SecretsIn(w: World, name: string): ServiceSecrets
    requires WholeSecrets(w, name)
  {
    w.secrets[name].files["env.toml"].doc.secrets
  }

  /** Each answer of Load, from the files alone: the config is judged first, by its text, schema,
      mounts and strategy in this order, and only a good one lets the secrets be looked at, by
      their presence, modes, text and schema. */
  lemma LoadExactly(w: World, name: string)
    ensures Load(w, name) == NotLoaded(NotRegistered) <==> name + ".toml" !in w.services
    ensures Load(w, name) == NotLoaded(ReadFailed) <==> name + ".toml" in w.services && w.services[name + ".toml"].Folder?
    ensures Load(w, name) == NotLoaded(Undecodable) <==>
      || (name + ".toml" in w.services && w.services[name + ".toml"].File? && !HasConfig(w, name))
      || (GoodConfig(w, name) && PrivateSecrets(w, name) && !WholeSecrets(w, name))
    ensures Load(w, name) == NotLoaded(SchemaMismatch) <==>
      || (HasConfig(w, name) && !RightSchema(w, name))
      || (GoodConfig(w, name) && WholeSecrets(w, name) && SecretsIn(w, name).schemaVersion != 1)
    ensures Load(w, name) == NotLoaded(InvalidMount) <==> RightSchema(w, name) && !RightMounts(w, name)
    ensures Load(w, name) == NotLoaded(InvalidStrategy) <==> RightMounts(w, name) && !GoodConfig(w, name)
    ensures Load(w, name) == NotLoaded(SecretsMissing) <==> GoodConfig(w, name) && LacksSecrets(w, name)
    ensures Load(w, name) == NotLoaded(PermissionMode) <==>
      GoodConfig(w, name) && !LacksSecrets(w, name) && !PrivateSecrets(w, name)
    ensures Load(w, name).Loaded? <==>
      GoodConfig(w, name) && WholeSecrets(w, name) && SecretsIn(w, name).schemaVersion == 1
    ensures Load(w, name).Loaded? ==>
      Load(w, name).service == Service(ConfigOf(w, name).(name := name), SecretsIn(w, name))
  {
    hide Mounts.ValidMounts;
  }

  /** The files of a name are in a state that Load rejects for good: a config that is no good, or a
      good one whose secrets are neither missing nor good. */
  predicate Corrupt(w: World, name: string) {
    && name + ".toml" in w.services
    && !(GoodConfig(w, name) && (LacksSecrets(w, name) || (WholeSecrets(w, name) && SecretsIn(w, name).schemaVersion == 1)))
  }

  /** What a successful Save has written, whatever was there before: the config, readable by all,
      and the secrets, private in a private directory, both with their defaults filled in. */
  lemma SavedExactly(os: Platform, s: Sys, svc: Service)
    ensures var (s', r) := Saving(os, s, svc);
      var n := svc.config.name;
      var schema := if svc.config.schemaVersion == 0 then 1 else svc.config.schemaVersion;
      var secretsSchema := if svc.secrets.schemaVersion == 0 then 1 else svc.secrets.schemaVersion;
      var owner := if svc.secrets.name == "" then svc.config.name else svc.secrets.name;
      r == Saved ==>
        && n != ""
        && At(s'.w.services, n + ".toml") == Some(File(Octal(6, 4, 4), ConfigDoc(svc.config.(schemaVersion := schema))))
        && n in s'.w.secrets && s'.w.secrets[n].mode == Octal(7, 0, 0)
        && At(s'.w.secrets[n].files, "env.toml") ==
            Some(File(Octal(6, 0, 0), SecretsDoc(ServiceSecrets(secretsSchema, owner, svc.secrets.env))))
  {
    hide SavingConfig, SavingSecrets, PublishedPart;
    SavingConfigWhole(os, s, svc);
    SavingSecretsWhole(os, SavingConfig(os, s, svc).0, svc);
  }

  // ---------------------------------------------------------------- leftovers

  /** A file called f, not the secrets file, lies in the secrets directory of name. */
  predicate Leftover(w: World, name: string, f: string) {
    f != ENV_FILE && name in w.secrets && f in w.secrets[name].files
  }

  /** Save, whatever fails, removes no file it did not create. */
  lemma SaveKeepsLeftover(os: Platform, s: Sys, svc: Service, name: string, f: string)
    requires Leftover(s.w, name, f)
    ensures Leftover(Saving(os, s, svc).0.w, name, f)
  {
    hide WriteAtomic, TempName, PublishedPart, SavingConfig;
    var n := svc.config.name;
    SavingConfigWhole(os, s, svc);
    var (s1, config) := SavingConfig(os, s, svc);
    var (s2, made) := MakeSecretDir(os, s1, n);
    if made {
      var (s3, moded) := ChmodSecretDir(s2, n);
      if moded {
        ConfigFilePublished(n);
        var doc := SecretsDoc(Filled(svc).secrets);
        WriteAtomicWhole(os, s3, SecretsOf(n), TEMP, ENV_FILE, M0600, doc, true);
        var s4 := WriteAtomic(os, s3, SecretsOf(n), TEMP, ENV_FILE, M0600, doc, true).0;
        if name == n { EntryKept(s3.w.secrets[n].files, s4.w.secrets[n].files, TempName(os, s3.w.secrets[n].files, TEMP), ENV_FILE, f); }
      }
    }
  }

  lemma EntryKept(d: Dir, d': Dir, a: string, b: string, f: string)
    requires d' - {a, b} == d - {a, b} && f in d && f != a && f != b
    ensures f in d'
  {
    assert f in d - {a, b};
  }

  /** Delete never gets past one, and leaves it there. */
  lemma DeleteKeepsLeftover(s: Sys, n: string, name: string, f: string)
    requires Leftover(s.w, name, f)
    ensures Leftover(Deleting(s, n).0.w, name, f)
    ensures n == name ==> !Deleting(s, n).1
  {
    hide PublishedPart;
    var (s1, file) := Remove(s, SecretsOf(n), ENV_FILE);
    if name == n {
      var d, d' := s.w.secrets[n].files, s1.w.secrets[n].files;
      assert f in d - {ENV_FILE};
      assert f in d';
    }
  }

  // ---------------------------------------------------------------- sound registries

  /** What a deploy writes for the service called name. */
  predicate ValidConfig(name: string, c: ServiceConfig) {
    && c.schemaVersion == SCHEMA_VERSION
    && Mounts.ValidMounts(c.mounts)
    && c.strategy == RECREATE
    && c.name == name
    && c.containerName == ContainerName(name)
    && c.network == NETWORK
    && c.restart == RESTART
  }

  predicate SoundConfig(name: string, n: Node) { n.File? && n.doc.ConfigDoc? && ValidConfig(name, n.doc.config) }

  predicate SoundSecrets(n: Node) {
    n.File? && n.mode == M0600 && n.doc.SecretsDoc? && n.doc.secrets.schemaVersion == SCHEMA_VERSION
  }

  ghost predicate SoundName(w: World, name: string) {
    && (ConfigAt(w, name).Some? ==> SoundConfig(name, ConfigAt(w, name).value))
    && (name in w.secrets ==> w.secrets[name].mode == M0700)
    && (SecretsAt(w, name).Some? ==> SoundSecrets(SecretsAt(w, name).value))
  }

  /** Every published file of every service is whole, valid and of the right mode. */
  ghost predicate Sound(w: World) { forall name :: SoundName(w, name) }

  /** In a sound registry a service loads exactly when both its files are there; the only
      errors are the two that a deploy accepts. */
  lemma SoundLoads(w: World, n: string)
    requires SoundName(w, n)
    ensures ConfigAt(w, n) == None <==> Load(w, n) == NotLoaded(NotRegistered)
    ensures ConfigAt(w, n).Some? && SecretsAt(w, n) == None <==> Load(w, n) == NotLoaded(SecretsMissing)
    ensures ConfigAt(w, n).Some? && SecretsAt(w, n).Some? <==> Load(w, n).Loaded?
    ensures ConfigAt(w, n).Some? && SecretsAt(w, n).Some? ==>
      Load(w, n) == Loaded(Service(w.services[ConfigFile(n)].doc.config, w.secrets[n].files[ENV_FILE].doc.secrets))
    ensures Load(w, n).Loaded? || Load(w, n) == NotLoaded(NotRegistered) || Load(w, n) == NotLoaded(SecretsMissing)
  {
  }

  predicate ValidService(svc: Service) {
    ValidConfig(svc.config.name, Filled(svc).config) && Filled(svc).secrets.schemaVersion == SCHEMA_VERSION
  }

  lemma ElsewhereSound(w: World, w': World, n: string)
    requires OnlyRegistration(w, w', n) && Sound(w) && SoundName(w', n)
    ensures Sound(w')
  {
    forall m ensures SoundName(w', m) {
      assert SoundName(w, m);
      if m != n { OthersUntouched(w, w', n, m); }
    }
  }

  lemma SaveKeepsSound(os: Platform, s: Sys, svc: Service)
    requires Sound(s.w) && ValidService(svc) && OwnerBitsKept(os)
    ensures Sound(Saving(os, s, svc).0.w)
  {
    hide Saving;
    SaveCrashSafe(os, s, svc);
    assert SoundName(s.w, svc.config.name);
    assert Masked(M0700, os.umask) == M0700;
    ElsewhereSound(s.w, Saving(os, s, svc).0.w, svc.config.name);
  }

  /** A Save that succeeds needs no help from the umask: it has set the directory's mode. */
  lemma SavedKeepsSound(os: Platform, s: Sys, svc: Service)
    requires Sound(s.w) && ValidService(svc)
    ensures Saving(os, s, svc).1 == Saved ==> Sound(Saving(os, s, svc).0.w)
  {
    hide Saving;
    SaveCrashSafe(os, s, svc);
    assert SoundName(s.w, svc.config.name);
    if Saving(os, s, svc).1 == Saved { ElsewhereSound(s.w, Saving(os, s, svc).0.w, svc.config.name); }
  }

  lemma DeleteKeepsSound(s: Sys, n: string)
    requires Sound(s.w)
    ensures Sound(Deleting(s, n).0.w)
  {
    hide Deleting;
    DeleteCrashSafe(s, n);
    assert SoundName(s.w, n);
    ElsewhereSound(s.w, Deleting(s, n).0.w, n);
  }

  /** What Save lets through and Load does not. */
  predicate Readable(svc: Service) {
    && svc.config.schemaVersion in {0, SCHEMA_VERSION} && svc.secrets.schemaVersion in {0, SCHEMA_VERSION}
    && Mounts.ValidMounts(svc.config.mounts)
    && svc.config.strategy in {"", RECREATE}
  }

  /** After a successful Save, under any faults, Load returns what was saved exactly when its
      schema versions, mounts and strategy are the ones Load knows; Save itself checks none of
      them. */
  lemma SavedLoads(os: Platform, s: Sys, svc: Service)
    ensures var (s', r) := Saving(os, s, svc);
      var l := Load(s'.w, svc.config.name);
      r == Saved ==> (l == Loaded(Filled(svc)) <==> Readable(svc)) && (l.Loaded? <==> Readable(svc))
  {
    hide Saving, Mounts.ValidMounts;
    SaveCrashSafe(os, s, svc);
  }

  /** However an updating Save is interrupted, the service still loads, as one of three: the old
      registration, the new config with the old secrets, or the new registration. */
  lemma InterruptedSaveLoads(os: Platform, s: Sys, svc: Service, was: Service)
    requires Sound(s.w) && ValidService(svc) && OwnerBitsKept(os)
    requires Load(s.w, svc.config.name) == Loaded(was)
    ensures var l := Load(Saving(os, s, svc).0.w, svc.config.name);
      l == Loaded(was) || l == Loaded(Service(Filled(svc).config, was.secrets)) || l == Loaded(Filled(svc))
  {
    hide Saving, Load;
    var n, w' := svc.config.name, Saving(os, s, svc).0.w;
    SaveCrashSafe(os, s, svc);
    SaveKeepsSound(os, s, svc);
    assert SoundName(s.w, n) && SoundName(w', n);
    SoundLoads(s.w, n);
    SoundLoads(w', n);
  }

  /** The mixed registration does arise: a kill just after the config is renamed. */
  lemma KillBetweenTheFiles(os: Platform, s: Sys, svc: Service, was: Service)
    requires Sound(s.w) && ValidService(svc) && svc.config.name != ""
    requires s.alive && s.script == Fines(6, Then(Die(Nothing), Calm))
    requires Load(s.w, svc.config.name) == Loaded(was)
    ensures Load(Saving(os, s, svc).0.w, svc.config.name) == Loaded(Service(Filled(svc).config, was.secrets))
  {
    hide Load, WriteAtomic, SavingConfig;
    var n := svc.config.name;
    assert SoundName(s.w, n);
    SoundLoads(s.w, n);
    ConfigWriteUsesSixCalls(os, s, svc, Then(Die(Nothing), Calm));
    var s1 := SavingConfig(os, s, svc).0;
    assert SavingSecrets(os, s1, svc).0.w == s1.w;
    assert SoundName(s1.w, n);
    SoundLoads(s1.w, n);
  }

  /** However Delete is interrupted, Load then returns what it did before, or reports missing
      secrets, or no registration. */
  lemma InterruptedDeleteLoads(s: Sys, n: string)
    requires Sound(s.w)
    ensures var l := Load(Deleting(s, n).0.w, n);
      l == Load(s.w, n) || l == NotLoaded(SecretsMissing) || l == NotLoaded(NotRegistered)
  {
    hide Deleting, Load;
    var w' := Deleting(s, n).0.w;
    DeleteCrashSafe(s, n);
    DeleteKeepsSound(s, n);
    assert SoundName(s.w, n) && SoundName(w', n);
    SoundLoads(s.w, n);
    SoundLoads(w', n);
  }

  /** With an owner bit in the umask, a kill between mkdir and chmod in the first Save of a
      service leaves a secrets directory whose mode Load rejects. */
  lemma MaskedOwnerWedges(os: Platform, s: Sys, svc: Service)
    requires !OwnerBitsKept(os) && ValidService(svc) && svc.config.name != ""
    requires s.alive && s.script == Fines(6, Then(Die(Done), Calm))
    requires ConfigAt(s.w, svc.config.name) == None && svc.config.name !in s.w.secrets
    ensures var (s', r) := Saving(os, s, svc);
      r == PartialWrite && !s'.alive && Load(s'.w, svc.config.name) == NotLoaded(PermissionMode)
  {
    hide WriteAtomic, SavingConfig, Mounts.ValidMounts;
    var n := svc.config.name;
    ConfigWriteUsesSixCalls(os, s, svc, Then(Die(Done), Calm));
    var (s1, ok) := SavingConfig(os, s, svc);
    var s2 := MakeSecretDir(os, s1, n).0;
    assert s2.w == WithSecretDir(s1.w, n, Masked(M0700, os.umask));
    assert Masked(M0700, os.umask) != M0700;
    assert Saving(os, s, svc) == (s2, PartialWrite);
  }

  lemma ConfigWriteUsesSixCalls(os: Platform, s: Sys, svc: Service, rest: Script)
    requires s.alive && s.script == Fines(6, rest)
    requires ConfigAt(s.w, svc.config.name) != Some(Folder)
    ensures SavingConfig(os, s, svc).1
    ensures SavingConfig(os, s, svc).0.alive && SavingConfig(os, s, svc).0.script == rest
    ensures SavingConfig(os, s, svc).0.w.secrets == s.w.secrets
    ensures ConfigAt(SavingConfig(os, s, svc).0.w, svc.config.name) == Some(ConfigNode(svc))
  {
    hide TempName, WithDir, PublishedPart, Filled;
    SavingConfigWhole(os, s, svc);
    var s1 := Call(s).0;
    assert s1.script == Fines(5, rest);
    var doc := ConfigDoc(Filled(svc).config);
    var (s2, tmp, c) := CreateTemp(os, s1, Services, TEMP);
    assert s2.script == Fines(4, rest);
    var (s3, f) := Filling(s2, Services, tmp, doc);
    assert Fill(s2, Services, tmp, doc).0.script == Fines(3, rest);
    assert s3.script == Fines(2, rest);
    var (s4, m) := Chmod(s3, Services, tmp, M0644, doc);
    assert s4.script == Fines(1, rest);
    var (s5, r) := Rename(s4, Services, tmp, ConfigFile(svc.config.name));
    ConfigFilePublished(svc.config.name);
    assert s5.script == rest;
  }

  /** A kill while Save writes the secrets leaves the temporary file beside them. */
  lemma KillLeavesTemporaryFile(os: Platform, s: Sys, svc: Service)
    requires s.alive && s.script == Fines(9, Then(Die(Nothing), Calm)) && svc.config.name != ""
    requires ConfigAt(s.w, svc.config.name) != Some(Folder)
    ensures var (s', r) := Saving(os, s, svc);
      && r == PartialWrite && !s'.alive
      && ConfigAt(s'.w, svc.config.name) == Some(ConfigNode(svc))
      && exists f :: Leftover(s'.w, svc.config.name, f)
  {
    hide WriteAtomic, SavingConfig, Mounts.ValidMounts, PublishedPart, TempName;
    var n := svc.config.name;
    var end := Then(Die(Nothing), Calm);
    ConfigWriteUsesSixCalls(os, s, svc, Fines(3, end));
    var s1 := SavingConfig(os, s, svc).0;
    var s2 := MakeSecretDir(os, s1, n).0;
    assert s2.script == Fines(2, end) && n in s2.w.secrets;
    var s3 := ChmodSecretDir(s2, n).0;
    assert s3.script == Fines(1, end) && n in s3.w.secrets;
    SecretWriteKilled(os, s3, svc);
    SaveCrashSafe(os, s, svc);
  }

  lemma SecretWriteKilled(os: Platform, s: Sys, svc: Service)
    requires s.alive && s.script == Fines(1, Then(Die(Nothing), Calm)) && svc.config.name in s.w.secrets
    ensures var n := svc.config.name;
      var (s', ok) := WriteAtomic(os, s, SecretsOf(n), TEMP, ENV_FILE, M0600, SecretsDoc(Filled(svc).secrets), true);
      !ok && !s'.alive && s'.w.services == s.w.services && exists f :: Leftover(s'.w, n, f)
  {
    hide TempName;
    var p, doc := SecretsOf(svc.config.name), SecretsDoc(Filled(svc).secrets);
    var (s1, tmp, c) := CreateTemp(os, s, p, TEMP);
    assert c && s1.script == Then(Die(Nothing), Calm);
    var s2 := Filling(s1, p, tmp, doc).0;
    assert s2.w == s1.w && !s2.alive;
    TempIsNot(tmp);
    assert Leftover(s2.w, svc.config.name, tmp);
  }

  lemma TempIsNot(f: string)
    ensures IsTemp(f, TEMP) ==> f != ENV_FILE
  {
  }

  lemma SameFilesSameLoad(w: World, w': World, n: string)
    requires ConfigAt(w, n) == ConfigAt(w', n) && At(w.secrets, n) == At(w'.secrets, n)
    ensures Load(w, n) == Load(w', n)
  {
  }
}
