/** internal/dockerdrv/cli_driver.go: the `docker run` command lines of `Run` and
    `RunWithOptions`, and what docker understands by them. */
module DockerArgv {
  import opened Text
  import opened Types
  import Mounts
  import EnvCapture

  datatype PortMap = PortMap(hostBind: string, hostPort: int, containerPort: int, proto: string)

  datatype RunOptions = RunOptions(
    name: string,
    service: string,
    image: string,
    network: string,
    restart: string,
    ports: seq<PortMap>,
    volumes: seq<VolumeMount>,
    labels: Env,
    env: Env)

  datatype Argv = Argv(args: seq<string>) | ErrEmptyService | ErrInvalidService

  const SERVICE_LABEL := "decloud.service"

  // ---------------------------------------------------------------- the command lines

  function FormatPortMap(p: PortMap): string {
    var proto := if p.proto == "" then "tcp" else p.proto;
    var tail := DecInt(p.hostPort) + ":" + DecInt(p.containerPort) + "/" + proto;
    if p.hostBind == "" then tail else p.hostBind + ":" + tail
  }

  /** The published port, read from the right: the protocol after the slash, then the container
      port, the host port and whatever interface is left. */
  function ReadPortMap(s: string): Option<PortMap> {
    var halves := Split(s, '/');
    var parts := Split(halves[0], ':');
    var n := |parts|;
    if |halves| != 2 || n < 2 || !IsNumeral(parts[n - 1]) || !IsNumeral(parts[n - 2]) then None
    else Some(PortMap(Join(parts[..n - 2], ':'), FromDecInt(parts[n - 2]), FromDecInt(parts[n - 1]), halves[1]))
  }

  /** Host interface and the two ports, cut at the last two colons. */
  lemma PortsSplit(hostBind: string, hostPort: int, containerPort: int)
    ensures var ports := (if hostBind == "" then "" else hostBind + ":") + (DecInt(hostPort) + ":" + DecInt(containerPort));
      Split(ports, ':') == (if hostBind == "" then [] else Split(hostBind, ':')) + [DecInt(hostPort), DecInt(containerPort)]
  {
    hide DecInt, Split;
    var h, c := DecInt(hostPort), DecInt(containerPort);
    FromDecIntDecInt(hostPort);
    FromDecIntDecInt(containerPort);
    if hostBind == "" {
      assert [h, c][1..] == [c];
      assert Join([h, c], ':') == "" + (h + ":" + c);
      SplitJoin([h, c], ':');
      assert [] + [h, c] == [h, c];
    } else {
      var bind := Split(hostBind, ':');
      JoinAppend(bind, h, ':');
      JoinAppend(bind + [h], c, ':');
      assert bind + [h] + [c] == bind + [h, c];
      assert Join(bind + [h, c], ':') == hostBind + ":" + (h + ":" + c);
      SplitJoin(bind + [h, c], ':');
    }
  }

  /** Every published port reads back, interfaces with colons included; an empty protocol is
      tcp. */
  lemma PortMapReadsBack(p: PortMap)
    requires '/' !in p.hostBind && '/' !in p.proto
    ensures ReadPortMap(FormatPortMap(p)) == Some(p.(proto := if p.proto == "" then "tcp" else p.proto))
  {
    hide DecInt, Split;
    var proto := if p.proto == "" then "tcp" else p.proto;
    var bind := if p.hostBind == "" then [] else Split(p.hostBind, ':');
    var ports := (if p.hostBind == "" then "" else p.hostBind + ":") + (DecInt(p.hostPort) + ":" + DecInt(p.containerPort));
    PortsSplit(p.hostBind, p.hostPort, p.containerPort);
    FromDecIntDecInt(p.hostPort);
    FromDecIntDecInt(p.containerPort);
    NumeralHasNoSlash(p.hostPort);
    NumeralHasNoSlash(p.containerPort);
    assert [ports, proto][1..] == [proto];
    assert Join([ports, proto], '/') == FormatPortMap(p);
    SplitJoin([ports, proto], '/');
    var parts := bind + [DecInt(p.hostPort), DecInt(p.containerPort)];
    assert parts[..|parts| - 2] == bind;
  }

  lemma NumeralHasNoSlash(n: int)
    ensures '/' !in DecInt(n)
  {
  }

  function Head(name: string, network: string, restart: string, service: string): seq<string> {
    ["run", "-d",
     "--name", name,
     "--network", network,
     "--restart", restart,
     "--log-driver", "journald",
     "--log-opt", "tag=decloud/" + service]
  }

  /** One option given once per value. */
  function Flags(flag: string, values: seq<string>): seq<string> {
    if values == [] then [] else [flag, values[0]] + Flags(flag, values[1..])
  }

  lemma {:induction false} FlagsAppend(flag: string, values: seq<string>, v: string)
    ensures Flags(flag, values + [v]) == Flags(flag, values) + [flag, v]
  {
    if values == [] {
      assert ([v])[1..] == [];
    } else {
      assert (values + [v])[1..] == values[1..] + [v];
      FlagsAppend(flag, values[1..], v);
    }
  }

  lemma FlagsOfNothing(flag: string, values: seq<string>)
    requires values == []
    ensures Flags(flag, values) == []
  {
  }

  function Pairs(keys: seq<string>, m: Env): (r: seq<string>)
    requires forall k :: k in keys ==> k in m
    ensures |r| == |keys| && forall i :: 0 <= i < |keys| ==> keys[i] in m && r[i] == keys[i] + "=" + m[keys[i]]
  {
    seq(|keys|, i requires 0 <= i < |keys| => assert keys[i] in keys; keys[i] + "=" + m[keys[i]])
  }

  function SortedPairs(m: Env): seq<string> { Pairs(InOrder(m.Keys), m) }

  function PortArgs(ps: seq<PortMap>): (r: seq<string>)
    ensures |r| == |ps| && forall i :: 0 <= i < |ps| ==> r[i] == FormatPortMap(ps[i])
  {
    seq(|ps|, i requires 0 <= i < |ps| => FormatPortMap(ps[i]))
  }

  function ServiceGuard(service: string, args: seq<string>): Argv {
    if service == "" then ErrEmptyService
    else if '/' in service then ErrInvalidService
    else Argv(args)
  }

  function RunArgv(req: RunRequest): Argv {
    ServiceGuard(req.service,
      Head(req.name, req.network, req.restart, req.service)
      + Flags("--env", SortedPairs(req.env))
      + Flags("-v", Mounts.Formatted(req.volumes))
      + ["--label", SERVICE_LABEL + "=" + req.service]
      + [req.image])
  }

  function RunWithOptionsArgv(opts: RunOptions): Argv {
    ServiceGuard(opts.service,
      Head(opts.name, opts.network, opts.restart, opts.service)
      + Flags("--env", SortedPairs(opts.env))
      + Flags("--label", SortedPairs(opts.labels))
      + Flags("-p", PortArgs(opts.ports))
      + Flags("-v", Mounts.Formatted(opts.volumes))
      + [opts.image])
  }

  /** The sorted `flag k=v` run that both builders append for a map. */
  method AppendMap(args: seq<string>, flag: string, m: Env) returns (out: seq<string>)
    ensures out == args + Flags(flag, SortedPairs(m))
  {
    hide InOrder, Flags;
    var keys := InOrder(m.Keys);
    ghost var all := Pairs(keys, m);
    assert Flags(flag, all[..0]) == [] by { FlagsOfNothing(flag, all[..0]); }
    out := args;
    for i := 0 to |keys|
      invariant out == args + Flags(flag, all[..i])
    {
      assert keys[i] in keys;
      var word := keys[i] + "=" + m[keys[i]];
      assert all[..i + 1] == all[..i] + [word];
      FlagsAppend(flag, all[..i], word);
      assert args + Flags(flag, all[..i]) + [flag, word] == args + Flags(flag, all[..i + 1]);
      out := out + [flag, word];
    }
    assert all[..|keys|] == all;
  }

  method AppendVolumes(args: seq<string>, volumes: seq<VolumeMount>) returns (out: seq<string>)
    ensures out == args + Flags("-v", Mounts.Formatted(volumes))
  {
    var all := Mounts.Formatted(volumes);
    out := args;
    for i := 0 to |volumes|
      invariant out == args + Flags("-v", all[..i])
    {
      assert all[..i + 1] == all[..i] + [Mounts.FormatVolume(volumes[i])];
      FlagsAppend("-v", all[..i], Mounts.FormatVolume(volumes[i]));
      out := out + ["-v", Mounts.FormatVolume(volumes[i])];
    }
    assert all[..|volumes|] == all;
  }

  method AppendPorts(args: seq<string>, ports: seq<PortMap>) returns (out: seq<string>)
    ensures out == args + Flags("-p", PortArgs(ports))
  {
    hide FormatPortMap;
    var all := PortArgs(ports);
    out := args;
    for i := 0 to |ports|
      invariant out == args + Flags("-p", all[..i])
    {
      assert all[..i + 1] == all[..i] + [FormatPortMap(ports[i])];
      FlagsAppend("-p", all[..i], FormatPortMap(ports[i]));
      out := out + ["-p", FormatPortMap(ports[i])];
    }
    assert all[..|ports|] == all;
  }

  method BuildRun(req: RunRequest) returns (r: Argv)
    ensures r == RunArgv(req)
  {
    if req.service == "" { return ErrEmptyService; }
    if '/' in req.service { return ErrInvalidService; }
    var args := Head(req.name, req.network, req.restart, req.service);
    args := AppendMap(args, "--env", req.env);
    args := AppendVolumes(args, req.volumes);
    args := args + ["--label", SERVICE_LABEL + "=" + req.service];
    args := args + [req.image];
    return Argv(args);
  }

  method BuildRunWithOptions(opts: RunOptions) returns (r: Argv)
    ensures r == RunWithOptionsArgv(opts)
  {
    if opts.service == "" { return ErrEmptyService; }
    if '/' in opts.service { return ErrInvalidService; }
    var args := Head(opts.name, opts.network, opts.restart, opts.service);
    args := AppendMap(args, "--env", opts.env);
    args := AppendMap(args, "--label", opts.labels);
    args := AppendPorts(args, opts.ports);
    args := AppendVolumes(args, opts.volumes);
    args := args + [opts.image];
    return Argv(args);
  }

  // ---------------------------------------------------------------- docker's reading of them

  /** What `docker run` is asked to start. */
  datatype Launch = Launch(
    detached: bool,
    name: string,
    network: string,
    restart: string,
    logDriver: string,
    logOpts: seq<string>,
    env: Env,
    labels: Env,
    ports: seq<string>,
    volumes: seq<string>,
    image: string,
    command: seq<string>)

  const BLANK := Launch(false, "", "", "", "", [], map[], map[], [], [], "", [])

  predicate Valued(flag: string) {
    flag in ["--name", "--network", "--restart", "--log-driver", "--log-opt", "--env", "--label", "-p", "-v"]
  }

  /** A single-valued option keeps its last value, `--env` and `--label` bind a key up to the
      first `=`, the rest accumulate. */
  function Apply(l: Launch, flag: string, v: string): Launch {
    if flag == "--name" then l.(name := v)
    else if flag == "--network" then l.(network := v)
    else if flag == "--restart" then l.(restart := v)
    else if flag == "--log-driver" then l.(logDriver := v)
    else if flag == "--log-opt" then l.(logOpts := l.logOpts + [v])
    else if flag == "--env" then l.(env := EnvCapture.Read(l.env, v))
    else if flag == "--label" then l.(labels := EnvCapture.Read(l.labels, v))
    else if flag == "-p" then l.(ports := l.ports + [v])
    else l.(volumes := l.volumes + [v])
  }

  /** Options up to the first word that is not one; that word is the image. */
  function Options(l: Launch, args: seq<string>): Option<Launch>
    decreases |args|
  {
    if args == [] then None
    else if args[0] == "-d" then Options(l.(detached := true), args[1..])
    else if Valued(args[0]) then
      if |args| < 2 then None else Options(Apply(l, args[0], args[1]), args[2..])
    else if args[0] == "" || args[0][0] == '-' then None
    else Some(l.(image := args[0], command := args[1..]))
  }

  function Decode(args: seq<string>): Option<Launch> {
    if args != [] && args[0] == "run" then Options(BLANK, args[1..]) else None
  }

  function ApplyAll(l: Launch, flag: string, values: seq<string>): Launch
    decreases |values|
  {
    if values == [] then l else ApplyAll(Apply(l, flag, values[0]), flag, values[1..])
  }

  lemma OptionStep(l: Launch, flag: string, v: string, rest: seq<string>)
    requires Valued(flag)
    ensures Options(l, [flag, v] + rest) == Options(Apply(l, flag, v), rest)
  {
  }

  lemma {:induction false} OptionsOfFlags(l: Launch, flag: string, values: seq<string>, rest: seq<string>)
    requires Valued(flag)
    ensures Options(l, Flags(flag, values) + rest) == Options(ApplyAll(l, flag, values), rest)
    decreases |values|
  {
    if values == [] {
      assert Flags(flag, values) + rest == rest;
    } else {
      assert Flags(flag, values) + rest == [flag, values[0]] + (Flags(flag, values[1..]) + rest);
      OptionStep(l, flag, values[0], Flags(flag, values[1..]) + rest);
      OptionsOfFlags(Apply(l, flag, values[0]), flag, values[1..], rest);
    }
  }

  function Entries(keys: seq<string>, m: Env): Env
    requires forall k :: k in keys ==> k in m
  {
    map k | k in keys :: m[k]
  }

  lemma {:induction false} ApplyPairs(l: Launch, flag: string, keys: seq<string>, m: Env)
    requires flag == "--env" || flag == "--label"
    requires forall k :: k in keys ==> k in m && '=' !in k
    ensures ApplyAll(l, flag, Pairs(keys, m)) ==
      if flag == "--env" then l.(env := l.env + Entries(keys, m)) else l.(labels := l.labels + Entries(keys, m))
    decreases |keys|
  {
    if keys == [] {
      assert l.env + Entries(keys, m) == l.env;
      assert l.labels + Entries(keys, m) == l.labels;
    } else {
      hide Options, EnvCapture.Read;
      var k, rest := keys[0], keys[1..];
      assert k in keys;
      assert forall x :: x in rest ==> x in keys;
      EnvCapture.ReadRecord(if flag == "--env" then l.env else l.labels, (k, m[k]));
      assert Pairs(keys, m)[0] == EnvCapture.Record((k, m[k]));
      assert Pairs(keys, m)[1..] == Pairs(rest, m);
      var l' := Apply(l, flag, Pairs(keys, m)[0]);
      ApplyPairs(l', flag, rest, m);
      BindFirst(l.env, keys, m);
      BindFirst(l.labels, keys, m);
    }
  }

  lemma BindFirst(bound: Env, keys: seq<string>, m: Env)
    requires keys != [] && forall k :: k in keys ==> k in m
    ensures bound[keys[0] := m[keys[0]]] + Entries(keys[1..], m) == bound + Entries(keys, m)
  {
  }

  lemma ApplySorted(l: Launch, flag: string, m: Env)
    requires flag == "--env" || flag == "--label"
    requires forall k :: k in m ==> '=' !in k
    ensures ApplyAll(l, flag, SortedPairs(m)) ==
      if flag == "--env" then l.(env := l.env + m) else l.(labels := l.labels + m)
  {
    hide InOrder, Increasing, Apply, ApplyAll, Pairs;
    var keys := InOrder(m.Keys);
    ApplyPairs(l, flag, keys, m);
    AllEntries(keys, m);
  }

  lemma AllEntries(keys: seq<string>, m: Env)
    requires forall k :: k in keys <==> k in m
    ensures Entries(keys, m) == m
  {
  }

  lemma {:induction false} ApplyList(l: Launch, flag: string, values: seq<string>)
    requires flag == "-p" || flag == "-v"
    ensures ApplyAll(l, flag, values) ==
      if flag == "-p" then l.(ports := l.ports + values) else l.(volumes := l.volumes + values)
    decreases |values|
  {
    if values == [] {
      assert l.ports + values == l.ports && l.volumes + values == l.volumes;
    } else {
      ApplyList(Apply(l, flag, values[0]), flag, values[1..]);
      assert [values[0]] + values[1..] == values;
      assert (l.ports + [values[0]]) + values[1..] == l.ports + values;
      assert (l.volumes + [values[0]]) + values[1..] == l.volumes + values;
    }
  }

  function Started(name: string, network: string, restart: string, service: string): Launch {
    Launch(true, name, network, restart, "journald", ["tag=decloud/" + service], map[], map[], [], [], "", [])
  }

  lemma ValuedFlags()
    ensures Valued("--name") && Valued("--network") && Valued("--restart") && Valued("--log-driver") && Valued("--log-opt")
    ensures Valued("--env") && Valued("--label") && Valued("-p") && Valued("-v")
  {
  }

  lemma OptionsOfHead(name: string, network: string, restart: string, service: string, rest: seq<string>)
    ensures Decode(Head(name, network, restart, service) + rest) == Options(Started(name, network, restart, service), rest)
  {
    var l1 := BLANK.(detached := true);
    var r5 := ["--log-opt", "tag=decloud/" + service] + rest;
    var r4 := ["--log-driver", "journald"] + r5;
    var r3 := ["--restart", restart] + r4;
    var r2 := ["--network", network] + r3;
    var r1 := ["--name", name] + r2;
    var a := Head(name, network, restart, service) + rest;
    assert a == ["run", "-d"] + r1;
    assert a[0] == "run" && a[1..] == ["-d"] + r1 && (["-d"] + r1)[1..] == r1;
    assert Decode(a) == Options(l1, r1);
    ApplyHead(l1, name, network, restart, service, rest);
  }

  lemma ApplyHead(l: Launch, name: string, network: string, restart: string, service: string, rest: seq<string>)
    requires l == BLANK.(detached := true)
    ensures Options(l, ["--name", name] + (["--network", network] + (["--restart", restart]
      + (["--log-driver", "journald"] + (["--log-opt", "tag=decloud/" + service] + rest)))))
      == Options(Started(name, network, restart, service), rest)
  {
    hide Options, Valued;
    ValuedFlags();
    var r5 := ["--log-opt", "tag=decloud/" + service] + rest;
    var r4 := ["--log-driver", "journald"] + r5;
    var r3 := ["--restart", restart] + r4;
    var r2 := ["--network", network] + r3;
    OptionStep(l, "--name", name, r2);
    var l2 := l.(name := name);
    OptionStep(l2, "--network", network, r3);
    var l3 := l2.(network := network);
    OptionStep(l3, "--restart", restart, r4);
    var l4 := l3.(restart := restart);
    OptionStep(l4, "--log-driver", "journald", r5);
    var l5 := l4.(logDriver := "journald");
    OptionStep(l5, "--log-opt", "tag=decloud/" + service, rest);
    assert l5.logOpts + ["tag=decloud/" + service] == ["tag=decloud/" + service];
  }

  predicate ImageWord(image: string) { image != "" && image[0] != '-' }

  predicate PlainKeys(m: Env) { forall k :: k in m ==> '=' !in k }

  lemma OptionsOfImage(l: Launch, image: string)
    requires ImageWord(image)
    ensures Options(l, [image]) == Some(l.(image := image, command := []))
  {
    assert [image][1..] == [];
    assert !Valued(image) && image != "-d";
  }

  lemma OptionsOfEnv(l: Launch, m: Env, rest: seq<string>)
    requires PlainKeys(m) && l.env == map[]
    ensures Options(l, Flags("--env", SortedPairs(m)) + rest) == Options(l.(env := m), rest)
  {
    hide Options, SortedPairs, Apply;
    OptionsOfFlags(l, "--env", SortedPairs(m), rest);
    ApplySorted(l, "--env", m);
    assert l.env + m == m;
  }

  lemma OptionsOfLabels(l: Launch, m: Env, rest: seq<string>)
    requires PlainKeys(m) && l.labels == map[]
    ensures Options(l, Flags("--label", SortedPairs(m)) + rest) == Options(l.(labels := m), rest)
  {
    hide Options, SortedPairs, Apply;
    OptionsOfFlags(l, "--label", SortedPairs(m), rest);
    ApplySorted(l, "--label", m);
    assert l.labels + m == m;
  }

  lemma OptionsOfVolumes(l: Launch, volumes: seq<string>, rest: seq<string>)
    requires l.volumes == []
    ensures Options(l, Flags("-v", volumes) + rest) == Options(l.(volumes := volumes), rest)
  {
    hide Options, Apply;
    OptionsOfFlags(l, "-v", volumes, rest);
    ApplyList(l, "-v", volumes);
    assert l.volumes + volumes == volumes;
  }

  lemma OptionsOfPorts(l: Launch, ports: seq<string>, rest: seq<string>)
    requires l.ports == []
    ensures Options(l, Flags("-p", ports) + rest) == Options(l.(ports := ports), rest)
  {
    hide Options, Apply;
    OptionsOfFlags(l, "-p", ports, rest);
    ApplyList(l, "-p", ports);
    assert l.ports + ports == ports;
  }

  lemma ServiceLabelFlag(service: string)
    ensures Flags("--label", SortedPairs(map[SERVICE_LABEL := service])) == ["--label", SERVICE_LABEL + "=" + service]
    ensures PlainKeys(map[SERVICE_LABEL := service])
  {
    hide InOrder, Increasing;
    var m := map[SERVICE_LABEL := service];
    OneInOrder(SERVICE_LABEL);
    assert m.Keys == {SERVICE_LABEL};
    var pair := SERVICE_LABEL + "=" + service;
    assert SortedPairs(m) == [pair];
    OneFlag("--label", pair);
  }

  lemma OneInOrder(k: string)
    ensures InOrder({k}) == [k]
  {
    hide InOrder;
    var r := InOrder({k});
    assert r[0] in r;
  }

  lemma OneFlag(flag: string, value: string)
    ensures Flags(flag, [value]) == [flag, value]
  {
    assert [value][1..] == [];
  }

  lemma Reassociate<T>(a: seq<T>, b: seq<T>, c: seq<T>, d: seq<T>, e: seq<T>)
    ensures a + b + c + d + e == a + (b + (c + (d + e)))
  {
  }

  /** Both builders refuse the services without a name and those with a slash in it, telling the
      two apart, and no others. */
  lemma RefusedExactly(req: RunRequest, opts: RunOptions)
    ensures RunArgv(req) == ErrEmptyService <==> req.service == ""
    ensures RunArgv(req) == ErrInvalidService <==> '/' in req.service
    ensures RunWithOptionsArgv(opts) == ErrEmptyService <==> opts.service == ""
    ensures RunWithOptionsArgv(opts) == ErrInvalidService <==> '/' in opts.service
  {
  }

  /** Docker reads from Run's command line exactly the request: the name, network, restart
      policy, journal tag, service label, every environment variable, the volumes in order,
      and the image, with no ports published and no command override. */
  lemma RunMeaning(req: RunRequest)
    requires RunArgv(req).Argv? && ImageWord(req.image) && PlainKeys(req.env)
    ensures Decode(RunArgv(req).args) == Some(Launch(true, req.name, req.network, req.restart, "journald",
      ["tag=decloud/" + req.service], req.env, map["decloud.service" := req.service], [],
      Mounts.Formatted(req.volumes), req.image, []))
  {
    hide Options, Decode, SortedPairs, Flags, Head, PlainKeys, ImageWord;
    var l0 := Started(req.name, req.network, req.restart, req.service);
    var labels := map[SERVICE_LABEL := req.service];
    var volumes := Mounts.Formatted(req.volumes);
    ServiceLabelFlag(req.service);
    Reassociate(Head(req.name, req.network, req.restart, req.service), Flags("--env", SortedPairs(req.env)),
      Flags("-v", volumes), Flags("--label", SortedPairs(labels)), [req.image]);
    OptionsOfHead(req.name, req.network, req.restart, req.service,
      Flags("--env", SortedPairs(req.env)) + (Flags("-v", volumes) + (Flags("--label", SortedPairs(labels)) + [req.image])));
    OptionsOfEnv(l0, req.env, Flags("-v", volumes) + (Flags("--label", SortedPairs(labels)) + [req.image]));
    var l1 := l0.(env := req.env);
    OptionsOfVolumes(l1, volumes, Flags("--label", SortedPairs(labels)) + [req.image]);
    var l2 := l1.(volumes := volumes);
    OptionsOfLabels(l2, labels, [req.image]);
    OptionsOfImage(l2.(labels := labels), req.image);
  }

  /** words gives the entries of m as `key=value`, in the byte order of the keys. */
  ghost predicate Ordered(keys: seq<string>, words: seq<string>, m: Env) {
    && Increasing(keys) && |words| == |keys|
    && (forall k :: k in keys <==> k in m)
    && (forall i :: 0 <= i < |keys| ==> keys[i] in m && words[i] == keys[i] + "=" + m[keys[i]])
  }

  /** Variables and labels are given in the byte order of their names. */
  lemma KeysInOrder(m: Env)
    ensures exists keys :: Ordered(keys, SortedPairs(m), m)
  {
    hide InOrder, Increasing;
    assert Ordered(InOrder(m.Keys), SortedPairs(m), m);
  }

  /** Docker reads from RunWithOptions' command line exactly its options. */
  lemma RunWithOptionsMeaning(opts: RunOptions)
    requires RunWithOptionsArgv(opts).Argv? && ImageWord(opts.image) && PlainKeys(opts.env) && PlainKeys(opts.labels)
    ensures Decode(RunWithOptionsArgv(opts).args) == Some(Launch(true, opts.name, opts.network, opts.restart, "journald",
      ["tag=decloud/" + opts.service], opts.env, opts.labels, PortArgs(opts.ports),
      Mounts.Formatted(opts.volumes), opts.image, []))
  {
    hide Options, Decode, SortedPairs, Flags, Head, PlainKeys, ImageWord, PortArgs;
    var l0 := Started(opts.name, opts.network, opts.restart, opts.service);
    var volumes := Mounts.Formatted(opts.volumes);
    var ports := PortArgs(opts.ports);
    var tail3 := Flags("-v", volumes) + [opts.image];
    var tail2 := Flags("-p", ports) + tail3;
    var tail1 := Flags("--label", SortedPairs(opts.labels)) + tail2;
    var head := Head(opts.name, opts.network, opts.restart, opts.service);
    var env := Flags("--env", SortedPairs(opts.env));
    Reassociate(head, env, Flags("--label", SortedPairs(opts.labels)), Flags("-p", ports), tail3);
    Reassociate(head + env + Flags("--label", SortedPairs(opts.labels)) + Flags("-p", ports), Flags("-v", volumes), [opts.image], [], []);
    assert RunWithOptionsArgv(opts).args == head + (env + tail1);
    OptionsOfHead(opts.name, opts.network, opts.restart, opts.service, env + tail1);
    OptionsOfEnv(l0, opts.env, tail1);
    var l1 := l0.(env := opts.env);
    OptionsOfLabels(l1, opts.labels, tail2);
    var l2 := l1.(labels := opts.labels);
    OptionsOfPorts(l2, ports, tail3);
    var l3 := l2.(ports := ports);
    OptionsOfVolumes(l3, volumes, [opts.image]);
    OptionsOfImage(l3.(volumes := volumes), opts.image);
  }

  /** A run request as options: the service label, no published ports. */
  function Lifted(req: RunRequest): RunOptions {
    RunOptions(req.name, req.service, req.image, req.network, req.restart, [], req.volumes,
               map[SERVICE_LABEL := req.service], req.env)
  }

  /** The two builders order their flags differently and mean the same to docker; they also
      refuse the same services. */
  lemma BuildersAgree(req: RunRequest)
    requires ImageWord(req.image) && PlainKeys(req.env)
    ensures RunArgv(req).Argv? == RunWithOptionsArgv(Lifted(req)).Argv?
    ensures RunArgv(req).ErrEmptyService? == RunWithOptionsArgv(Lifted(req)).ErrEmptyService?
    ensures RunArgv(req).Argv? ==> Decode(RunArgv(req).args) == Decode(RunWithOptionsArgv(Lifted(req)).args)
  {
    hide Options, Decode, SortedPairs, Flags, Head, PlainKeys, ImageWord;
    if RunArgv(req).Argv? {
      RunMeaning(req);
      ServiceLabelFlag(req.service);
      RunWithOptionsMeaning(Lifted(req));
      assert PortArgs([]) == [];
    }
  }
}
