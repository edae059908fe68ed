/** One failing call, everything else fine: which step the deploy reports and what it leaves.
    This fixes the order of the deploy's calls and the error each of them maps to. */
module FirstFault {
  import opened Text
  import opened Types
  import opened Host
  import opened Registry
  import opened Orchestrator
  import opened DeployLaws
  import opened DeployTheorems

  /** A failure: whether its error chain holds a context error, and how much happened first. */
  datatype Fault = Fault(inContext: bool, effect: Effect)

  /** k calls go well, the next one fails, the rest go well. */
  function FailingAt(w: World, k: nat, x: Fault): Sys {
    Sys(w, Fines(k, Then(Fail(x.inContext, x.effect), Calm)), true)
  }

  lemma DrawsFine(w: World, k: nat, x: Fault)
    requires k > 0
    ensures Draw(FailingAt(w, k, x)) == (Fine, FailingAt(w, k - 1, x))
  {
  }

  lemma DrawsFailure(w: World, x: Fault)
    ensures Draw(FailingAt(w, 0, x)) == (Fail(x.inContext, x.effect), Sys(w, Calm, true))
  {
  }

  function LoadedOrNone(w: World, name: string): Option<Service> {
    match Load(w, name) case Loaded(svc) => Some(svc) case NotLoaded(_) => None
  }

  predicate MayDeploy(w: World, name: string) {
    Load(w, name).Loaded? || Load(w, name) == NotLoaded(NotRegistered) || Load(w, name) == NotLoaded(SecretsMissing)
  }

  // ---------------------------------------------------------------- the order of the steps

  /** The steps up to readiness. Capture is a call only when there is an env script. */
  datatype Step = Network | Capture | LoadOld | Build | LookForOrphan | StopOld | RmOld | RunNew | Probe

  function Preparation(req: Request): (steps: seq<Step>)
    ensures |steps| == if req.envFile == "" then 3 else 4
  {
    [Network] + (if req.envFile == "" then [] else [Capture]) + [LoadOld, Build]
  }

  /** Clearing what stands under the name: known tells whether the service is registered. */
  function ClearingSteps(known: bool, was: Option<Container>): seq<Step> {
    if known then [StopOld, RmOld]
    else if was.Some? then [LookForOrphan, StopOld, RmOld]
    else [LookForOrphan]
  }

  function Steps(w: World, req: Request): seq<Step> {
    Preparation(req)
    + ClearingSteps(Load(w, req.name).Loaded?, At(w.containers, ContainerName(req.name)))
    + [RunNew, Probe]
  }

  /** The error a failed step is reported as. */
  function StepError(step: Step, inContext: bool): Error {
    match step
    case Network => ErrRun
    case Capture => ErrEnvCapture
    case LoadOld => ErrLoad(ReadFailed)
    case Build => ErrBuild
    case Probe => if inContext then ErrInterrupted else ErrReadiness
    case _ => if inContext then ErrInterrupted else ErrRun
  }

  lemma PreparingFails(w: World, req: Request, k: nat, x: Fault)
    requires MayDeploy(w, req.name)
    ensures var steps := Preparation(req);
      Preparing(FailingAt(w, k, x), req) ==
        if k < |steps| then (Sys(w, Calm, true), Halt(StepError(steps[k], x.inContext)))
        else (FailingAt(w, k - |steps|, x), Go(LoadedOrNone(w, req.name)))
  {
    hide Load, FailingAt;
    if k > 0 { DrawsFine(w, k, x); FailingIn(w, k - 1, x); }
    if k > 1 { DrawsFine(w, k - 1, x); FailingIn(w, k - 2, x); }
    if k > 2 { DrawsFine(w, k - 2, x); FailingIn(w, k - 3, x); }
    if k > 3 { DrawsFine(w, k - 3, x); }
    DrawsFailure(w, x);
    FailingIn(w, k, x);
  }

  lemma FailingIn(w: World, k: nat, x: Fault)
    ensures FailingAt(w, k, x).w == w && FailingAt(w, k, x).alive
  {
  }

  lemma OtherWorld(w: World, w': World, k: nat, x: Fault)
    ensures FailingAt(w, k, x).(w := w') == FailingAt(w', k, x)
  {
  }

  // ---------------------------------------------------------------- clearing the name

  /** The world with this under the name. */
  function With(w: World, c: string, under: Option<Container>): World {
    w.(containers := if under.Some? then w.containers[c := under.value] else w.containers - {c})
  }

  lemma WithSame(w: World, c: string)
    ensures With(w, c, At(w.containers, c)) == w
  {
    if c !in w.containers { assert w.containers - {c} == w.containers; }
  }

  lemma WithTwice(w: World, c: string, a: Option<Container>, b: Option<Container>)
    ensures With(With(w, c, a), c, b) == With(w, c, b)
  {
    if a.Some? {
      assert w.containers[c := a.value] - {c} == w.containers - {c};
      if b.Some? { assert w.containers[c := a.value][c := b.value] == w.containers[c := b.value]; }
    } else {
      assert (w.containers - {c}) - {c} == w.containers - {c};
      if b.Some? { assert (w.containers - {c})[c := b.value] == w.containers[c := b.value]; }
    }
  }

  lemma WithAt(w: World, c: string, under: Option<Container>)
    ensures At(With(w, c, under).containers, c) == under
    ensures With(w, c, under).containers - {c} == w.containers - {c}
  {
  }

  function StoppedIf(was: Option<Container>, done: bool): Option<Container> {
    if was.Some? && done then Some(Stopped(was.value)) else was
  }

  /** docker stop and docker rm, fine or failing. */
  lemma StopFails(w: World, c: string, k: nat, x: Fault)
    ensures var was := At(w.containers, c);
      DockerStop(FailingAt(w, k, x), c) ==
        if k == 0 then (Sys(With(w, c, StoppedIf(was, x.effect.Done?)), Calm, true), Failed(x.inContext))
        else (FailingAt(With(w, c, StoppedIf(was, true)), k - 1, x), if was.Some? then Ok else NotFound)
  {
    hide FailingAt;
    WithSame(w, c);
    FailingIn(w, k, x);
    if k == 0 { DrawsFailure(w, x); } else {
      DrawsFine(w, k, x);
      OtherWorld(w, With(w, c, StoppedIf(At(w.containers, c), true)), k - 1, x);
    }
  }

  lemma RmFails(w: World, c: string, k: nat, x: Fault)
    requires c in w.containers ==> Removable(w.containers[c])
    ensures var was := At(w.containers, c);
      DockerRemove(FailingAt(w, k, x), c) ==
        if k == 0 then (Sys(With(w, c, if x.effect.Done? then None else was), Calm, true), Failed(x.inContext))
        else (FailingAt(With(w, c, None), k - 1, x), if was.Some? then Ok else NotFound)
  {
    hide FailingAt;
    WithSame(w, c);
    FailingIn(w, k, x);
    if k == 0 { DrawsFailure(w, x); } else {
      DrawsFine(w, k, x);
      OtherWorld(w, With(w, c, None), k - 1, x);
    }
  }

  /** With nothing failing: a container that still runs in some way is not removed. */
  lemma RmCalm(w: World, c: string)
    ensures var was := At(w.containers, c);
      DockerRemove(Sys(w, Calm, true), c) ==
        if was.Some? && !Removable(was.value) then (Sys(w, Calm, true), Failed(false))
        else (Sys(With(w, c, None), Calm, true), if was.Some? then Ok else NotFound)
  {
    WithSame(w, c);
  }

  /** A failed stop of a known service's container is looked into: an error only while it runs,
      or when docker then refuses the rm. */
  predicate StopForgiven(was: Option<Container>, e: Effect) {
    was.None? || e.Done? || Removable(was.value)
  }

  /** The error of that stop: the stop's own while the container runs, the rm's otherwise. */
  function StopError(was: Container, inContext: bool): Error {
    if was.status == Running && inContext then ErrInterrupted else ErrRun
  }

  lemma ClearingOldFails(w: World, name: string, k: nat, x: Fault)
    ensures var c := ContainerName(name);
      var was := At(w.containers, c);
      ClearingOld(FailingAt(w, k, x), name) ==
        if k == 0 then
          if StopForgiven(was, x.effect) then (Sys(With(w, c, None), Calm, true), None)
          else (Sys(w, Calm, true), Some(StopError(was.value, x.inContext)))
        else if k == 1 then
          (Sys(With(w, c, if x.effect.Done? then None else StoppedIf(was, true)), Calm, true), Some(Cancelled(x.inContext, ErrRun)))
        else (FailingAt(With(w, c, None), k - 2, x), None)
  {
    hide FailingAt, ContainerName, DockerStop, DockerRemove;
    var c := ContainerName(name);
    var was := At(w.containers, c);
    StopFails(w, c, k, x);
    WithSame(w, c);
    var w1 := With(w, c, StoppedIf(was, k > 0 || x.effect.Done?));
    WithAt(w, c, StoppedIf(was, k > 0 || x.effect.Done?));
    WithTwice(w, c, StoppedIf(was, k > 0 || x.effect.Done?), None);
    if k == 0 {
      RmCalm(w1, c);
    } else {
      RmFails(w1, c, k - 1, x);
      WithTwice(w, c, StoppedIf(was, true), if x.effect.Done? then None else StoppedIf(was, true));
    }
  }

  lemma ClearingOrphanFails(w: World, name: string, k: nat, x: Fault)
    requires ContainerName(name) in w.containers ==> w.containers[ContainerName(name)].owner == name
    ensures var c := ContainerName(name);
      var was := At(w.containers, c);
      var error := Some(Cancelled(x.inContext, ErrRun));
      ClearingOrphan(FailingAt(w, k, x), name) ==
        if k == 0 then (Sys(w, Calm, true), error)
        else if was.None? then (FailingAt(w, k - 1, x), None)
        else if k == 1 then (Sys(With(w, c, StoppedIf(was, x.effect.Done?)), Calm, true), error)
        else if k == 2 then (Sys(With(w, c, if x.effect.Done? then None else StoppedIf(was, true)), Calm, true), error)
        else (FailingAt(With(w, c, None), k - 3, x), None)
  {
    hide FailingAt, ContainerName, DockerStop, DockerRemove;
    var c := ContainerName(name);
    var was := At(w.containers, c);
    FailingIn(w, k, x);
    if k == 0 {
      DrawsFailure(w, x);
    } else {
      DrawsFine(w, k, x);
      FailingIn(w, k - 1, x);
      if was.Some? {
        StopFails(w, c, k - 1, x);
        var w1 := With(w, c, StoppedIf(was, true));
        WithAt(w, c, StoppedIf(was, true));
        if k > 1 {
          RmFails(w1, c, k - 2, x);
          WithTwice(w, c, StoppedIf(was, true), None);
          WithTwice(w, c, StoppedIf(was, true), StoppedIf(was, true));
        }
      }
    }
  }

  // ---------------------------------------------------------------- running the container

  lemma LaunchFails(os: Platform, w: World, req: Request, prev: Option<Service>, k: nat, x: Fault)
    requires k < 2 && req.name != "" && '/' !in req.name && ContainerName(req.name) !in w.containers
    ensures var c := ContainerName(req.name);
      Launching(os, FailingAt(w, k, x), req, prev) ==
        if k == 0 then Broken(Sys(With(w, c, RunLeaves(DeployRun(req), x.effect)), Calm, true), AtRun, prev, StepError(RunNew, x.inContext))
        else Broken(Sys(With(w, c, RunLeaves(DeployRun(req), Done)), Calm, true), AtReadiness, prev, StepError(Probe, x.inContext))
  {
    hide FailingAt, Saving, ContainerName, FromRequest;
    var c := ContainerName(req.name);
    FailingIn(w, k, x);
    if k == 0 {
      WithSame(w, c);
      DrawsFailure(w, x);
    } else {
      var w1 := With(w, c, RunLeaves(DeployRun(req), Done));
      DrawsFine(w, 1, x);
      OtherWorld(w, w1, 0, x);
      DrawsFailure(w1, x);
    }
  }

  /** What stands under the name after a failed run or probe: nothing or the previous container
      again, but for a container that the failed run left. */
  function LeftByLaunch(step: Step, e: Effect, req: Request, prev: Option<Service>): Option<Container> {
    if step == RunNew && !e.Nothing? then RunLeaves(DeployRun(req), e)
    else if prev.Some? then RunLeaves(RestoreRun(prev.value), Done)
    else None
  }

  lemma RelaunchFails(os: Platform, w: World, req: Request, prev: Option<Service>, k: nat, x: Fault)
    requires k < 2 && CliRequest(req) && (prev.Some? ==> prev.value.config.name == req.name)
    requires ContainerName(req.name) !in w.containers
    ensures var step := if k == 0 then RunNew else Probe;
      var a := Launching(os, FailingAt(w, k, x), req, prev);
      && a.Broken? && a.prev == prev && a.error == StepError(step, x.inContext)
      && Compensating(a.s, a.at, prev, req.name).w == With(w, ContainerName(req.name), LeftByLaunch(step, x.effect, req, prev))
  {
    hide FailingAt, Launching, Compensating, ContainerName, FromRequest, CliRequest, CleanupOf;
    NameRuns(req);
    var c := ContainerName(req.name);
    var step := if k == 0 then RunNew else Probe;
    LaunchFails(os, w, req, prev, k, x);
    var left := RunLeaves(DeployRun(req), if k == 0 then x.effect else Done);
    WithAt(w, c, left);
    var a := Launching(os, FailingAt(w, k, x), req, prev);
    RunsAs(DeployRun(req));
    CompensatesExactly(a.s, a.at, prev, req.name);
    var w' := Compensating(a.s, a.at, prev, req.name).w;
    WithSame(w', c);
    SameBut(w, w', c);
  }

  lemma SameBut(w: World, w': World, c: string)
    requires w' == w.(containers := w'.containers) && w'.containers - {c} == w.containers - {c}
    ensures w' == With(w, c, At(w'.containers, c))
  {
    if c in w'.containers {
      var v := w'.containers[c];
      assert w'.containers == (w'.containers - {c})[c := v];
      assert w.containers[c := v] == (w.containers - {c})[c := v];
    } else {
      assert w'.containers == w'.containers - {c};
    }
  }

  // ---------------------------------------------------------------- the whole deploy

  /** What stands under the name after one failed step; was is what stood there before, of a
      service known as prev. */
  function LeftUnder(step: Step, e: Effect, was: Option<Container>, req: Request, prev: Option<Service>): Option<Container> {
    match step
    case StopOld => if prev.Some? then was else StoppedIf(was, e.Done?)
    case RmOld => if e.Done? then None else StoppedIf(was, true)
    case RunNew => LeftByLaunch(step, e, req, prev)
    case Probe => LeftByLaunch(step, e, req, prev)
    case _ => was
  }

  /** The failure of a redeploy's stop that does not end the deploy. */
  predicate Forgiven(step: Step, e: Effect, was: Option<Container>, prev: Option<Service>) {
    step == StopOld && prev.Some? && StopForgiven(was, e)
  }

  function ReportedAs(step: Step, x: Fault, was: Option<Container>, prev: Option<Service>): Error {
    if step == StopOld && prev.Some? && was.Some? then StopError(was.value, x.inContext) else StepError(step, x.inContext)
  }

  /** From any world a deploy can start in, behind an open gate, one failure in any call up to
      readiness, whatever it did before it failed, is reported as that step's error. Only a
      redeploy's failed stop can be forgiven, when the container is gone or no longer runs: then
      the deploy goes on as if undisturbed. Otherwise nothing changes but what stands under the
      name, and that is as LeftUnder says: what was there, or, after a failed run or probe, the
      previous container again. The exceptions are a failed rm and an orphan's failed stop,
      which leave it stopped or gone, and a failed run that left its container. */
  lemma FaultNamesTheStep(os: Platform, w: World, req: Request, k: nat, x: Fault)
    requires CliRequest(req) && MayDeploy(w, req.name) && Gate(w, req.name) && k < |Steps(w, req)|
    ensures var step := Steps(w, req)[k];
      var c := ContainerName(req.name);
      var was, prev := At(w.containers, c), LoadedOrNone(w, req.name);
      var (s', r) := Deploying(os, FailingAt(w, k, x), req);
      if Forgiven(step, x.effect, was, prev) then (s', r) == Deploying(os, Sys(w, Calm, true), req)
      else r == Failure(ReportedAs(step, x, was, prev)) && s'.w == With(w, c, LeftUnder(step, x.effect, was, req, prev))
  {
    hide Load, FailingAt, Preparing, Clearing, Launching, Compensating, Publishing, ContainerName, FromRequest, CliRequest,
      LeftByLaunch, With;
    var c := ContainerName(req.name);
    var prev := LoadedOrNone(w, req.name);
    var j := k - |Preparation(req)|;
    PreparingFails(w, req, k, x);
    WithSame(w, c);
    if j >= 0 {
      ClearingFails(w, req.name, prev, j, x);
      var m := |ClearingSteps(prev.Some?, At(w.containers, c))|;
      if j >= m {
        LoadedIsNamed(w, req.name);
        WithAt(w, c, None);
        RelaunchFails(os, With(w, c, None), req, prev, j - m, x);
        var step := Steps(w, req)[k];
        WithTwice(w, c, None, LeftByLaunch(step, x.effect, req, prev));
      } else if j == 0 && prev.Some? {
        PreparesWithoutFaults(Sys(w, Calm, true), req);
        ClearsTheName(w, req.name, prev);
      }
    }
  }

  lemma ClearsTheName(w: World, name: string, prev: Option<Service>)
    requires prev.Some?
    ensures Clearing(Sys(w, Calm, true), name, prev) == (Sys(With(w, ContainerName(name), None), Calm, true), None)
  {
    hide Clearing;
    ClearsWithoutFaults(Sys(w, Calm, true), name, prev);
  }

  lemma ClearingFails(w: World, name: string, prev: Option<Service>, k: nat, x: Fault)
    requires prev.Some? || Owned(w, name)
    ensures var c := ContainerName(name);
      var was := At(w.containers, c);
      var steps := ClearingSteps(prev.Some?, was);
      Clearing(FailingAt(w, k, x), name, prev) ==
        if k >= |steps| then (FailingAt(With(w, c, None), k - |steps|, x), None)
        else if Forgiven(steps[k], x.effect, was, prev) then (Sys(With(w, c, None), Calm, true), None)
        else (Sys(With(w, c, if steps[k] == LookForOrphan then was
                             else if steps[k] == StopOld then (if prev.Some? then was else StoppedIf(was, x.effect.Done?))
                             else if x.effect.Done? then None else StoppedIf(was, true)), Calm, true),
              Some(ReportedAs(steps[k], x, was, prev)))
  {
    hide FailingAt, ContainerName, ClearingOld, ClearingOrphan;
    WithSame(w, ContainerName(name));
    if prev.Some? {
      ClearingOldFails(w, name, k, x);
    } else {
      ClearingOrphanFails(w, name, k, x);
    }
  }
}
