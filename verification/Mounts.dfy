/** internal/registry/mount.go, `toVolumeMounts` of internal/deploy/service.go, `formatVolume`
    of internal/dockerdrv/cli_driver.go and `parseMountFlags` of internal/cli/deploy_service.go. */
module Mounts {
  import opened Text
  import opened Types

  datatype Parsed<+T> = Good(value: T) | Bad

  // ---------------------------------------------------------------- one mount

  predicate IsNamed(m: Mount) { m.hostPath != "" && !HasPrefix(m.hostPath, "/") }

  predicate Alphanumeric(c: char) {
    'a' <= c <= 'z' || 'A' <= c <= 'Z' || '0' <= c <= '9'
  }

  /** `^[a-zA-Z0-9][a-zA-Z0-9_.-]+$` */
  predicate VolumeName(s: string) {
    && |s| >= 2
    && Alphanumeric(s[0])
    && forall i :: 1 <= i < |s| ==> Alphanumeric(s[i]) || s[i] in "_.-"
  }

  predicate ValidMount(m: Mount) {
    && m.hostPath != ""
    && HasPrefix(m.containerPath, "/")
    && (HasPrefix(m.hostPath, "/") || VolumeName(m.hostPath))
  }

  function ToVolume(m: Mount): VolumeMount {
    VolumeMount(m.hostPath, m.containerPath, m.readOnly, IsNamed(m))
  }

  /** `formatVolume`: the argument of docker's `-v`. */
  function FormatVolume(v: VolumeMount): string {
    var s := v.source + ":" + v.target;
    if v.readOnly then s + ":ro" else s
  }

  function ParseMountString(raw: string): (r: Parsed<Mount>) {
    if raw == "" then Bad
    else
      var parts := Split(raw, ':');
      if |parts| == 2 then Checked(Mount(parts[0], parts[1], false))
      else if |parts| == 3 then
        if parts[2] == "ro" then Checked(Mount(parts[0], parts[1], true)) else Bad
      else Bad
  }

  function Checked(m: Mount): Parsed<Mount> {
    if ValidMount(m) then Good(m) else Bad
  }

  /** The derived flag tells the two kinds of valid mounts apart. */
  lemma NamedExactly(m: Mount)
    requires ValidMount(m)
    ensures IsNamed(m) <==> VolumeName(m.hostPath)
    ensures IsNamed(m) <==> !HasPrefix(m.hostPath, "/")
  {
  }

  predicate ColonFree(m: Mount) { ':' !in m.hostPath && ':' !in m.containerPath }

  /** An accepted `--mount` string reaches docker's `-v` character for character. */
  lemma AcceptedIsVerbatim(raw: string)
    requires ParseMountString(raw).Good?
    ensures var m := ParseMountString(raw).value;
      ValidMount(m) && ColonFree(m) && FormatVolume(ToVolume(m)) == raw
  {
    var parts := Split(raw, ':');
    assert parts[0] in parts && parts[1] in parts;
    if |parts| == 2 {
      assert Join(parts[1..], ':') == parts[1];
    } else {
      assert Join(parts[1..], ':') == parts[1] + ":" + Join(parts[1..][1..], ':');
      assert Join(parts[2..], ':') == parts[2] && parts[1..][1..] == parts[2..];
      assert parts[0] + [':'] + (parts[1] + ":" + "ro") == parts[0] + ":" + parts[1] + ":ro";
    }
  }

  /** Every valid mount free of colons is what its own printed form parses to. */
  lemma PrintedParsesBack(m: Mount)
    requires ValidMount(m) && ColonFree(m)
    ensures ParseMountString(FormatVolume(ToVolume(m))) == Good(m)
  {
    hide Split, Join, VolumeName;
    PartsJoin(m);
    SplitJoin(Parts(m), ':');
  }

  function Parts(m: Mount): seq<string> {
    if m.readOnly then [m.hostPath, m.containerPath, "ro"] else [m.hostPath, m.containerPath]
  }

  lemma PartsJoin(m: Mount)
    ensures Join(Parts(m), ':') == FormatVolume(ToVolume(m))
  {
    var parts := Parts(m);
    assert Join(parts[1..], ':') ==
      if m.readOnly then m.containerPath + [':'] + Join(parts[1..][1..], ':') else m.containerPath;
    if m.readOnly {
      assert parts[1..][1..] == ["ro"];
      assert m.hostPath + [':'] + (m.containerPath + [':'] + "ro") == m.hostPath + ":" + m.containerPath + ":ro";
    }
  }

  /** The accepted strings are exactly the printed forms of valid colon-free mounts. */
  lemma AcceptedExactly(raw: string)
    ensures ParseMountString(raw).Good? <==>
      exists m :: ValidMount(m) && ColonFree(m) && FormatVolume(ToVolume(m)) == raw
  {
    if ParseMountString(raw).Good? {
      AcceptedIsVerbatim(raw);
      assert ValidMount(ParseMountString(raw).value);
    }
    if m :| ValidMount(m) && ColonFree(m) && FormatVolume(ToVolume(m)) == raw { PrintedParsesBack(m); }
  }

  predicate AsciiAlphanumeric(c: char) {
    48 <= c as int <= 57 || 65 <= c as int <= 90 || 97 <= c as int <= 122
  }

  /** A name docker takes for a volume: two or more ASCII letters, digits, `_`, `.` and `-`, the
      first a letter or digit. */
  predicate DockerVolume(s: string) {
    |s| >= 2 && AsciiAlphanumeric(s[0]) && forall c :: c in s[1..] ==> AsciiAlphanumeric(c) || c in {'_', '.', '-'}
  }

  lemma DockerVolumeIsName(s: string)
    ensures DockerVolume(s) <==> VolumeName(s)
  {
    if DockerVolume(s) {
      forall i | 1 <= i < |s| ensures Alphanumeric(s[i]) || s[i] in "_.-" { assert s[i] in s[1..]; }
    }
    if VolumeName(s) {
      forall c | c in s[1..] ensures AsciiAlphanumeric(c) || c in {'_', '.', '-'} {
        var i :| 0 <= i < |s[1..]| && s[1..][i] == c;
        assert s[i + 1] == c;
      }
    }
  }

  /** What each mount string parses to, character by character: source, colon, absolute target,
      and `:ro` or nothing, where the source is an absolute path or a volume name. */
  lemma ParsedExactly(raw: string, m: Mount)
    ensures ParseMountString(raw) == Good(m) <==>
      && raw == m.hostPath + ":" + m.containerPath + (if m.readOnly then ":ro" else "")
      && ':' !in m.hostPath && ':' !in m.containerPath
      && m.containerPath != "" && m.containerPath[0] == '/'
      && m.hostPath != "" && (m.hostPath[0] == '/' || DockerVolume(m.hostPath))
  {
    hide Split, Join, VolumeName, DockerVolume;
    DockerVolumeIsName(m.hostPath);
    if ParseMountString(raw) == Good(m) { AcceptedIsVerbatim(raw); }
    if ValidMount(m) && ColonFree(m) && FormatVolume(ToVolume(m)) == raw { PrintedParsesBack(m); }
    assert FormatVolume(ToVolume(m)) == m.hostPath + ":" + m.containerPath + (if m.readOnly then ":ro" else "");
  }

  // ---------------------------------------------------------------- lists of mounts

  predicate DistinctTargets(ms: seq<Mount>) {
    forall i, j :: 0 <= i < j < |ms| ==> ms[i].containerPath != ms[j].containerPath
  }

  /** What the loader demands of a mount list. */
  predicate ValidMounts(ms: seq<Mount>) {
    (forall i :: 0 <= i < |ms| ==> ValidMount(ms[i])) && DistinctTargets(ms)
  }

  predicate Repeats(ms: seq<Mount>, j: nat)
    requires j < |ms|
  {
    exists i :: 0 <= i < j && ms[i].containerPath == ms[j].containerPath
  }

  /** The first repeated target and the one earlier place it occurs; nothing is reported
      exactly when the targets are pairwise distinct. */
  method FindDuplicateTarget(ms: seq<Mount>) returns (first: nat, dup: nat, found: bool)
    ensures found <==> !DistinctTargets(ms)
    ensures found ==> first < dup < |ms| && ms[first].containerPath == ms[dup].containerPath
    ensures found ==> forall j :: 0 <= j < dup ==> !Repeats(ms, j)
    ensures found ==> forall i :: 0 <= i < dup && ms[i].containerPath == ms[dup].containerPath ==> i == first
    ensures !found ==> first == 0 && dup == 0
  {
    var seen: map<string, nat> := map[];
    for i := 0 to |ms|
      invariant forall k :: 0 <= k < i ==> ms[k].containerPath in seen && seen[ms[k].containerPath] == k
      invariant forall t :: t in seen ==> seen[t] < i && ms[seen[t]].containerPath == t
      invariant DistinctTargets(ms[..i])
      invariant forall j :: 0 <= j < i ==> !Repeats(ms, j)
    {
      var target := ms[i].containerPath;
      if target in seen {
        assert Repeats(ms, i);
        return seen[target], i, true;
      }
      seen := seen[target := i];
    }
    assert ms[..|ms|] == ms;
    return 0, 0, false;
  }

  /** The loader's check, entry by entry and then for duplicates. */
  method ValidateMounts(ms: seq<Mount>) returns (ok: bool)
    ensures ok <==> ValidMounts(ms)
  {
    for i := 0 to |ms|
      invariant forall k :: 0 <= k < i ==> ValidMount(ms[k])
    {
      if !ValidMount(ms[i]) { return false; }
    }
    var _, _, found := FindDuplicateTarget(ms);
    ok := !found;
  }

  method ToVolumeMounts(ms: seq<Mount>) returns (out: seq<VolumeMount>)
    ensures out == Volumes(ms)
  {
    out := [];
    for i := 0 to |ms|
      invariant out == Volumes(ms[..i])
    {
      assert ms[..i + 1][..i] == ms[..i];
      out := out + [VolumeMount(ms[i].hostPath, ms[i].containerPath, ms[i].readOnly, IsNamed(ms[i]))];
    }
    assert ms[..|ms|] == ms;
  }

  function Volumes(ms: seq<Mount>): (r: seq<VolumeMount>)
    ensures |r| == |ms| && forall i :: 0 <= i < |ms| ==> r[i] == ToVolume(ms[i])
  {
    seq(|ms|, i requires 0 <= i < |ms| => ToVolume(ms[i]))
  }

  function Formatted(vs: seq<VolumeMount>): (r: seq<string>)
    ensures |r| == |vs| && forall i :: 0 <= i < |vs| ==> r[i] == FormatVolume(vs[i])
  {
    seq(|vs|, i requires 0 <= i < |vs| => FormatVolume(vs[i]))
  }

  /** `parseMountFlags`: accepted exactly when every string parses and the targets differ;
      the accepted list satisfies the loader, and docker receives the strings unchanged. */
  method ParseMountFlags(raw: seq<string>) returns (r: Parsed<seq<Mount>>)
    ensures r.Good? ==> ValidMounts(r.value) && Formatted(Volumes(r.value)) == raw
    ensures r.Good? <==> exists ms :: ValidMounts(ms) && (forall m :: m in ms ==> ColonFree(m)) && Formatted(Volumes(ms)) == raw
  {
    var out: seq<Mount> := [];
    for i := 0 to |raw|
      invariant |out| == i
      invariant forall k :: 0 <= k < i ==> ParseMountString(raw[k]) == Good(out[k])
    {
      var m := ParseMountString(raw[i]);
      if m.Bad? {
        forall ms | ValidMounts(ms) && (forall m :: m in ms ==> ColonFree(m)) && Formatted(Volumes(ms)) == raw
          ensures false
        {
          assert ms[i] in ms;
          PrintedParsesBack(ms[i]);
        }
        return Bad;
      }
      out := out + [m.value];
    }
    forall k | 0 <= k < |raw|
      ensures ValidMount(out[k]) && ColonFree(out[k]) && FormatVolume(ToVolume(out[k])) == raw[k]
    {
      AcceptedIsVerbatim(raw[k]);
    }
    assert Formatted(Volumes(out)) == raw;
    forall ms | ValidMounts(ms) && (forall m :: m in ms ==> ColonFree(m)) && Formatted(Volumes(ms)) == raw
      ensures ms == out
    {
      forall k | 0 <= k < |raw| ensures ms[k] == out[k] {
        assert ms[k] in ms;
        PrintedParsesBack(ms[k]);
      }
    }
    var _, _, found := FindDuplicateTarget(out);
    if found { return Bad; }
    r := Good(out);
  }
}
