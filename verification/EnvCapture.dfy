/** internal/envcap/capture.go: reading the `key=value\0` stream bash emits, and keeping what
    the sourced script added to a bare shell. */
module EnvCapture {
  import opened Text
  import opened Types

  const NUL: char := '\0'

  type Binding = (string, string)

  // ---------------------------------------------------------------- the stream

  function Record(b: Binding): string { b.0 + "=" + b.1 }

  /** What captureScript prints for the exported variables, in the order it lists them. */
  function Emitted(bs: seq<Binding>): string {
    if bs == [] then "" else Record(bs[0]) + [NUL] + Emitted(bs[1..])
  }

  /** One record read into the map: empty records and records without `=` are skipped. */
  function Read(env: Env, rec: string): Env {
    var eq := IndexOf(rec, '=');
    if eq == |rec| then env else env[rec[..eq] := rec[eq + 1..]]
  }

  function ReadAll(recs: seq<string>): Env {
    if recs == [] then map[] else Read(ReadAll(recs[..|recs| - 1]), recs[|recs| - 1])
  }

  method ParseNullDelimited(data: string) returns (out: Env)
    ensures out == ReadAll(Split(data, NUL))
  {
    out := map[];
    var recs := Split(data, NUL);
    for i := 0 to |recs|
      invariant out == ReadAll(recs[..i])
    {
      var rec := recs[i];
      assert recs[..i + 1][..i] == recs[..i];
      if |rec| != 0 {
        var eq := IndexOf(rec, '=');
        if eq < |rec| {
          out := out[rec[..eq] := rec[eq + 1..]];
        }
      }
    }
    assert recs[..|recs|] == recs;
  }

  predicate Printable(b: Binding) { '=' !in b.0 && NUL !in b.0 && NUL !in b.1 }

  /** bs lists the map env, each key once, in some order. */
  ghost predicate Lists(bs: seq<Binding>, env: Env) {
    && (forall i :: 0 <= i < |bs| ==> bs[i].0 in env && env[bs[i].0] == bs[i].1)
    && (forall i, j :: 0 <= i < j < |bs| ==> bs[i].0 != bs[j].0)
    && (forall k :: k in env ==> exists i :: 0 <= i < |bs| && bs[i].0 == k)
  }

  function Records(bs: seq<Binding>): seq<string> {
    seq(|bs|, i requires 0 <= i < |bs| => Record(bs[i]))
  }

  lemma {:induction false} EmittedJoins(bs: seq<Binding>)
    ensures Emitted(bs) == Join(Records(bs) + [""], NUL)
  {
    if bs == [] {
      assert Records(bs) + [""] == [""];
    } else {
      EmittedJoins(bs[1..]);
      var parts := Records(bs) + [""];
      assert parts[1..] == Records(bs[1..]) + [""];
    }
  }

  lemma ReadRecord(env: Env, b: Binding)
    requires '=' !in b.0
    ensures Read(env, Record(b)) == env[b.0 := b.1]
  {
    IndexOfFirst(b.0, '=', b.1);
    assert b.0 + ['='] + b.1 == Record(b);
    assert Record(b)[..|b.0|] == b.0 && Record(b)[|b.0| + 1..] == b.1;
  }

  lemma {:induction false} ReadsEveryRecord(bs: seq<Binding>)
    requires forall i :: 0 <= i < |bs| ==> Printable(bs[i])
    requires forall i, j :: 0 <= i < j < |bs| ==> bs[i].0 != bs[j].0
    ensures Lists(bs, ReadAll(Records(bs)))
  {
    hide Read, Record, Lists;
    if bs != [] {
      var n := |bs| - 1;
      ReadsEveryRecord(bs[..n]);
      assert Records(bs)[..n] == Records(bs[..n]);
      ReadRecord(ReadAll(Records(bs[..n])), bs[n]);
      ListsOneMore(bs, ReadAll(Records(bs[..n])));
    } else {
      NothingListed();
    }
  }

  lemma NothingListed()
    ensures Lists([], map[])
  {
  }

  lemma ListsOneMore(bs: seq<Binding>, env: Env)
    requires bs != [] && Lists(bs[..|bs| - 1], env)
    requires forall i, j :: 0 <= i < j < |bs| ==> bs[i].0 != bs[j].0
    ensures Lists(bs, env[bs[|bs| - 1].0 := bs[|bs| - 1].1])
  {
    var n := |bs| - 1;
    var env' := env[bs[n].0 := bs[n].1];
    forall k | k in env' ensures exists i :: 0 <= i < |bs| && bs[i].0 == k {
      if k != bs[n].0 {
        var i :| 0 <= i < n && bs[..n][i].0 == k;
        assert bs[i].0 == k;
      } else {
        assert bs[n].0 == k;
      }
    }
    forall i | 0 <= i < |bs| ensures bs[i].0 in env' && env'[bs[i].0] == bs[i].1 {
      if i < n { assert bs[..n][i] == bs[i]; }
    }
  }

  lemma ListsDetermine(bs: seq<Binding>, a: Env, b: Env)
    requires Lists(bs, a) && Lists(bs, b)
    ensures a == b
  {
  }

  /** In whatever order the shell lists its variables, reading the stream gives exactly the
      environment it printed. */
  lemma StreamRoundTrip(bs: seq<Binding>, env: Env)
    requires Lists(bs, env)
    requires forall i :: 0 <= i < |bs| ==> Printable(bs[i])
    ensures ReadAll(Split(Emitted(bs), NUL)) == env
  {
    hide Record, Read, ReadAll, Split, Join, Emitted;
    EmittedJoins(bs);
    RecordsPrintable(bs);
    SplitJoin(Records(bs) + [""], NUL);
    ReadsLastEmpty(Records(bs));
    ReadsEveryRecord(bs);
    ListsDetermine(bs, env, ReadAll(Records(bs)));
  }

  lemma RecordsPrintable(bs: seq<Binding>)
    requires forall i :: 0 <= i < |bs| ==> Printable(bs[i])
    ensures forall p :: p in Records(bs) + [""] ==> NUL !in p
  {
    var parts := Records(bs) + [""];
    forall p | p in parts ensures NUL !in p {
      var i :| 0 <= i < |parts| && parts[i] == p;
      if i < |bs| { assert p == Record(bs[i]); }
    }
  }

  lemma ReadsLastEmpty(recs: seq<string>)
    ensures ReadAll(recs + [""]) == ReadAll(recs)
  {
    assert (recs + [""])[..|recs|] == recs;
    assert IndexOf("", '=') == 0;
  }

  /** The i-th record assigns v to k: the name ends at the first `=`. */
  ghost predicate Assigns(rec: string, k: string, v: string) { '=' !in k && rec == k + "=" + v }

  /** Reading any stream, well formed or not: a variable is there exactly when some record
      assigns it, with the value of the last that does; a record without `=` says nothing. */
  lemma {:induction false} ReadAllExactly(recs: seq<string>, k: string, v: string)
    ensures k in ReadAll(recs) && ReadAll(recs)[k] == v <==>
      exists i :: 0 <= i < |recs| && Assigns(recs[i], k, v) && forall j, u :: i < j < |recs| ==> !Assigns(recs[j], k, u)
    ensures k in ReadAll(recs) ==> '=' !in k
  {
    hide Read, Assigns;
    if recs != [] {
      var n := |recs| - 1;
      var before := recs[..n];
      ReadAllExactly(before, k, v);
      ReadExactly(ReadAll(before), recs[n], k);
      if k in ReadAll(recs) && ReadAll(recs)[k] == v {
        if !(exists u :: Assigns(recs[n], k, u)) {
          var i :| 0 <= i < n && Assigns(before[i], k, v) && forall j, u :: i < j < n ==> !Assigns(before[j], k, u);
          assert Assigns(recs[i], k, v) && forall j, u :: i < j < |recs| ==> !Assigns(recs[j], k, u) by {
            forall j, u | i < j < |recs| ensures !Assigns(recs[j], k, u) { if j < n { assert recs[j] == before[j]; } }
          }
        } else {
          assert Assigns(recs[n], k, v);
        }
      }
      if i :| 0 <= i < |recs| && Assigns(recs[i], k, v) && forall j, u :: i < j < |recs| ==> !Assigns(recs[j], k, u) {
        if i < n {
          assert Assigns(before[i], k, v);
          forall j, u | i < j < n ensures !Assigns(before[j], k, u) { assert recs[j] == before[j]; }
          assert forall u :: !Assigns(recs[n], k, u);
        }
      }
    }
  }

  /** One record sets the variable it assigns and no other. */
  lemma ReadExactly(env: Env, rec: string, k: string)
    ensures forall v :: Assigns(rec, k, v) ==> k in Read(env, rec) && Read(env, rec)[k] == v
    ensures (forall v :: !Assigns(rec, k, v)) ==> (k in Read(env, rec) <==> k in env) && (k in env ==> Read(env, rec)[k] == env[k])
    ensures k in Read(env, rec) && k !in env ==> '=' !in k
  {
    var eq := IndexOf(rec, '=');
    if eq < |rec| {
      assert rec == rec[..eq] + "=" + rec[eq + 1..];
      assert Assigns(rec, rec[..eq], rec[eq + 1..]);
    }
    forall v | Assigns(rec, k, v) ensures k in Read(env, rec) && Read(env, rec)[k] == v {
      IndexOfFirst(k, '=', v);
      assert k + ['='] + v == rec;
      assert rec[..|k|] == k && rec[|k| + 1..] == v;
    }
  }

  // ---------------------------------------------------------------- the difference

  predicate IsBashInternal(k: string) {
    || HasPrefix(k, "BASH_FUNC_")
    || k in ["_", "PWD", "OLDPWD", "SHLVL", "BASH", "BASH_VERSION", "BASH_VERSINFO",
             "PATH", "HOME", "IFS", "PS1", "PS2", "PS4", "UID", "EUID", "PPID",
             "HOSTNAME", "HOSTTYPE", "MACHTYPE", "OSTYPE", "TERM", "LANG",
             "SHELL", "LOGNAME", "USER"]
  }

  /** The variables bash sets for itself. */
  lemma InternalExactly(k: string)
    ensures IsBashInternal(k) <==>
      || "BASH_FUNC_" <= k
      || k in {"BASH", "BASH_VERSINFO", "BASH_VERSION", "EUID", "HOME", "HOSTNAME", "HOSTTYPE", "IFS", "LANG", "LOGNAME",
               "MACHTYPE", "OLDPWD", "OSTYPE", "PATH", "PPID", "PS1", "PS2", "PS4", "PWD", "SHELL", "SHLVL", "TERM", "UID",
               "USER", "_"}
  {
  }

  /** baseline with diff laid over it is full, as far as the non-internal keys of full go. */
  ghost predicate Restores(baseline: Env, diff: Env, full: Env) {
    forall k :: k in full && !IsBashInternal(k) ==> k in baseline + diff && (baseline + diff)[k] == full[k]
  }

  ghost predicate NewOrChanged(k: string, baseline: Env, full: Env) {
    k in full && !IsBashInternal(k) && !(k in baseline && baseline[k] == full[k])
  }

  method DiffEnv(baseline: Env, full: Env) returns (out: Env)
    ensures forall k :: k in out <==> NewOrChanged(k, baseline, full)
    ensures forall k :: k in out ==> k in full && out[k] == full[k]
    ensures Restores(baseline, out, full)
    ensures forall diff :: Restores(baseline, diff, full) ==> forall k :: k in out ==> k in diff && diff[k] == out[k]
  {
    out := map[];
    var todo := full.Keys;
    while todo != {}
      invariant todo <= full.Keys
      invariant forall k :: k in out <==> k !in todo && NewOrChanged(k, baseline, full)
      invariant forall k :: k in out ==> k in full && out[k] == full[k]
      decreases |todo|
    {
      var k :| k in todo;
      todo := todo - {k};
      if IsBashInternal(k) { continue; }
      if k in baseline && baseline[k] == full[k] { continue; }
      out := out[k := full[k]];
    }
    forall diff, k | Restores(baseline, diff, full) && k in out ensures k in diff && diff[k] == out[k] {
      assert (baseline + diff)[k] == full[k];
    }
  }

  // ---------------------------------------------------------------- the capture

  /** What stat says of the script: absent, not to be read, a directory, or anything else. */
  datatype Stat = Missing | Denied | Directory | Other

  /** A shell that ran and the variables it listed, or one that failed. */
  datatype Shell = Exited(listed: seq<Binding>) | Crashed

  datatype Captured = NoScript | ScriptMissing | ScriptUnreadable | ShellFailed | Captured(env: Env)

  /** The listing is some environment's, in some order. */
  ghost predicate ListsSome(sh: Shell, env: Env) {
    sh.Exited? ==> Lists(sh.listed, env) && forall i :: 0 <= i < |sh.listed| ==> Printable(sh.listed[i])
  }

  /** The captured environment, end to end: each way to fail exactly when it applies, and
      otherwise, from the two shells' listings in any order, exactly the variables the script
      added or changed. */
  method Capture(path: string, stat: Stat, bare: Shell, sourced: Shell, ghost baseline: Env, ghost full: Env)
    returns (r: Captured)
    requires ListsSome(bare, baseline) && ListsSome(sourced, full)
    ensures r.NoScript? <==> path == ""
    ensures r.ScriptMissing? <==> path != "" && stat.Missing?
    ensures r.ScriptUnreadable? <==> path != "" && (stat.Denied? || stat.Directory?)
    ensures r.ShellFailed? <==> path != "" && stat.Other? && (bare.Crashed? || sourced.Crashed?)
    ensures r.Captured? ==> Restores(baseline, r.env, full)
    ensures r.Captured? ==> forall k :: k in r.env <==> NewOrChanged(k, baseline, full)
    ensures r.Captured? ==> forall k :: k in r.env ==> k in full && r.env[k] == full[k] && '=' !in k
  {
    if path == "" { return NoScript; }
    match stat {
      case Missing => return ScriptMissing;
      case Denied => return ScriptUnreadable;
      case Directory => return ScriptUnreadable;
      case Other =>
    }
    if bare.Crashed? { return ShellFailed; }
    StreamRoundTrip(bare.listed, baseline);
    var b := ParseNullDelimited(Emitted(bare.listed));
    if sourced.Crashed? { return ShellFailed; }
    StreamRoundTrip(sourced.listed, full);
    var f := ParseNullDelimited(Emitted(sourced.listed));
    var env := DiffEnv(b, f);
    forall k | k in env ensures '=' !in k {
      var i :| 0 <= i < |sourced.listed| && sourced.listed[i].0 == k;
      assert Printable(sourced.listed[i]);
    }
    return Captured(env);
  }
}
