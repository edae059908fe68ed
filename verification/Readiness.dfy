/** internal/deploy/readiness.go: the retry loop that decides whether a new container is up.
    Times are milliseconds. */
module Readiness {
  import opened Types

  /** Why one probe failed. InContext is any error whose chain holds context.Canceled or
      context.DeadlineExceeded: the caller's cancellation, or the probe's own 2 s limit. */
  datatype ProbeError = NoAddress | Refused | BadStatus | InContext

  /** One round: resolving the address and one request, how long it took. */
  datatype Round = Healthy(took: nat) | Unwell(took: nat, err: ProbeError)

  datatype Verdict = Ready | TimedOut(last: ProbeError) | Cancelled

  /** The configured interval and timeout, or their defaults of 1 s and 60 s. */
  function Interval(spec: ReadinessSpec): (ms: int)
    ensures ms > 0
    ensures ms == 1000 * spec.intervalSecs || (ms == 1000 && spec.intervalSecs <= 0)
  {
    if spec.intervalSecs <= 0 then 1000 else spec.intervalSecs * 1000
  }

  function Timeout(spec: ReadinessSpec): (ms: int)
    ensures ms > 0
    ensures ms == 1000 * spec.timeoutSecs || (ms == 60000 && spec.timeoutSecs <= 0)
  {
    if spec.timeoutSecs <= 0 then 60000 else spec.timeoutSecs * 1000
  }

  /** `isCancellation` applied to Wait's error. */
  predicate ReportedAsInterrupt(v: Verdict) {
    v.Cancelled? || (v.TimedOut? && v.last.InContext?)
  }

  /** When the k-th round is over, a full interval lying between two rounds. */
  function RoundEnd(start: int, interval: int, rounds: nat -> Round, k: nat): int {
    (if k == 0 then start else RoundEnd(start, interval, rounds, k - 1) + interval) + rounds(k).took
  }

  /** The caller's context is done before the wait that begins at now is over. */
  predicate CutShort(cancelAt: Option<int>, now: int, interval: int) {
    cancelAt.Some? && cancelAt.value < now + interval
  }

  /** The k-th round fails in time and the wait after it is not cut short. */
  predicate GoesOn(start: int, spec: ReadinessSpec, rounds: nat -> Round, cancelAt: Option<int>, k: nat) {
    && rounds(k).Unwell?
    && RoundEnd(start, Interval(spec), rounds, k) <= start + Timeout(spec)
    && !CutShort(cancelAt, RoundEnd(start, Interval(spec), rounds, k), Interval(spec))
  }

  /** rounds(k) is what the k-th round will do, cancelAt the moment the caller's context is
      cancelled, if it ever is. The three verdicts are exactly told apart by the last round, its
      end, the deadline and the cancellation; no earlier round could have ended the wait. */
  method Wait(start: int, spec: ReadinessSpec, rounds: nat -> Round, cancelAt: Option<int>)
    returns (v: Verdict, end: int, n: nat)
    ensures n > 0
    ensures forall k :: 0 <= k < n - 1 ==> GoesOn(start, spec, rounds, cancelAt, k)
    ensures var deadline, interval := start + Timeout(spec), Interval(spec);
      var over := RoundEnd(start, interval, rounds, n - 1);
      && (v.Ready? <==> rounds(n - 1).Healthy?)
      && (v.TimedOut? <==> rounds(n - 1).Unwell? && over > deadline)
      && (v.Cancelled? <==> rounds(n - 1).Unwell? && over <= deadline && CutShort(cancelAt, over, interval))
      && (v.TimedOut? ==> rounds(n - 1) == Unwell(rounds(n - 1).took, v.last))
      && end == (if v.Cancelled? && cancelAt.value > over then cancelAt.value else over)
    // it returns at most one interval and one round past the limit
    ensures end <= start + Timeout(spec) + Interval(spec) + rounds(n - 1).took
    // an interrupt is the caller's cancellation or a final round that timed out by itself
    ensures ReportedAsInterrupt(v) <==>
      && rounds(n - 1).Unwell?
      && if RoundEnd(start, Interval(spec), rounds, n - 1) > start + Timeout(spec) then rounds(n - 1).err.InContext?
         else CutShort(cancelAt, RoundEnd(start, Interval(spec), rounds, n - 1), Interval(spec))
  {
    hide Interval, Timeout;
    var interval, deadline := Interval(spec), start + Timeout(spec);
    var now := start;
    n := 0;
    while true
      invariant now <= deadline + interval
      invariant now == if n == 0 then start else RoundEnd(start, interval, rounds, n - 1) + interval
      invariant forall k :: 0 <= k < n ==> GoesOn(start, spec, rounds, cancelAt, k)
      decreases deadline + interval - now
    {
      var round := rounds(n);
      n := n + 1;
      now := now + round.took;
      if round.Healthy? { return Ready, now, n; }
      if now > deadline { return TimedOut(round.err), now, n; }
      if cancelAt.Some? && cancelAt.value < now + interval {
        return Cancelled, if cancelAt.value > now then cancelAt.value else now, n;
      }
      now := now + interval;
    }
  }

  /** `int(req.ReadinessTimeout.Seconds())`: Go truncates toward zero. */
  function WholeSeconds(ms: int): int {
    if ms >= 0 then ms / 1000 else -(-ms / 1000)
  }

  function DeploySpec(path: string, timeoutMs: int): ReadinessSpec {
    ReadinessSpec("http", if path == "" then "/healthz" else path, WholeSeconds(timeoutMs), 1)
  }

  /** What the probe of a deploy is told: the path, `/healthz` when none is given, and one round
      a second for the whole seconds requested. */
  lemma DeployProbes(path: string, timeoutMs: int)
    ensures var spec := DeploySpec(path, timeoutMs);
      && spec.kind == "http" && (path == "" ==> spec.httpPath == "/healthz") && (path != "" ==> spec.httpPath == path)
      && Interval(spec) == 1000
      && (timeoutMs >= 0 ==> 0 <= timeoutMs - 1000 * spec.timeoutSecs < 1000)
      && (timeoutMs <= 0 ==> 0 <= 1000 * spec.timeoutSecs - timeoutMs < 1000)
  {
  }

  /** A requested readiness timeout is kept, to the whole second below it, exactly when it is
      at least one second; anything shorter waits 60 s. */
  lemma TimeoutKeptFromOneSecond(path: string, timeoutMs: int)
    ensures timeoutMs - 1000 < Timeout(DeploySpec(path, timeoutMs)) <= timeoutMs <==> timeoutMs >= 1000
    ensures timeoutMs < 1000 ==> Timeout(DeploySpec(path, timeoutMs)) == 60000
  {
  }
}
