/** The sentinel's liveness and cost probes, as functions of what can be read. */
module Probes {
  import opened Verdicts
  import opened Config

  datatype RunPhase = Running | Pending | Done | Crashed | Failed | Killed | OtherPhase

  datatype PodView = PodView(running: bool, uptime: real)

  /** `progressAge` is absent when nothing has been logged yet; `meanUtil` when
      no GPU metrics have. */
  datatype RunView = RunView(phase: RunPhase, progressAge: Option<real>, meanUtil: Option<real>)

  /** One look at both upstreams. An unreadable upstream is `None`. */
  datatype View = View(
    podNamed: bool, runNamed: bool, pod: Option<PodView>, run: Option<RunView>,
    elapsed: real, stallBudget: real, gpuFloor: real)

  predicate BadEnd(phase: RunPhase) {
    phase == Crashed || phase == Failed || phase == Killed
  }

  function ProgressAgeStatus(v: View): Status {
    if !v.runNamed || v.run.None? || v.run.value.progressAge.None? then Unknown
    else
      var age := v.run.value.progressAge.value;
      if age > v.stallBudget then Fail
      else if age > v.stallBudget * 0.6 then Warn
      else Ok
  }

  function RunStateStatus(v: View): Status {
    if !v.runNamed || v.run.None? then Unknown
    else
      var phase := v.run.value.phase;
      if BadEnd(phase) then Fail
      else if phase == Done || phase == Pending then Warn
      else Ok
  }

  function GpuUtilStatus(v: View): Status {
    if !v.runNamed || v.run.None? || v.run.value.meanUtil.None? then Unknown
    else if v.run.value.phase != Running then Ok
    else if v.run.value.meanUtil.value < v.gpuFloor then Fail
    else Ok
  }

  function PodStatusStatus(v: View): Status {
    if !v.podNamed || v.pod.None? then Unknown
    else if !v.pod.value.running then Fail
    else Ok
  }

  function ObserverAgreementStatus(v: View): Status {
    if !v.podNamed || !v.runNamed || v.pod.None? || v.run.None? then Unknown
    else
      var up, phase := v.pod.value.running, v.run.value.phase;
      if up && (BadEnd(phase) || phase == Done) then Fail
      else if !up && phase == Running then Warn
      else Ok
  }

  /** Hours billed: the pod's own uptime, or failing that the monitor's clock. */
  function BilledHours(v: View): Option<real> {
    if v.podNamed && v.pod.Some? then Some(v.pod.value.uptime / 3600.0)
    else if v.elapsed > 0.0 then Some(v.elapsed / 3600.0)
    else None
  }

  function SpendStatus(b: Budget, hours: Option<real>): Status {
    if hours.None? then Unknown
    else
      var spend := SpendAt(b, hours.value);
      var pct := if b.maxUsd != 0.0 then spend / b.maxUsd * 100.0 else 0.0;
      if spend >= b.maxUsd then Fail
      else if pct >= b.warnPct then Warn
      else Ok
  }

  function WallClockStatus(b: Budget, hours: Option<real>): Status {
    if hours.None? then Unknown
    else if hours.value >= b.maxWallClockHours then Fail
    else if hours.value >= b.maxWallClockHours * 0.9 then Warn
    else Ok
  }

  /** What the probes modelled here answer; the others are not this function's. */
  function StatusOf(b: Budget, probe: Probe, v: View): Option<Status> {
    match probe
    case ProgressAge => Some(ProgressAgeStatus(v))
    case RunState => Some(RunStateStatus(v))
    case GpuUtil => Some(GpuUtilStatus(v))
    case PodStatus => Some(PodStatusStatus(v))
    case ObserverAgreement => Some(ObserverAgreementStatus(v))
    case Spend => Some(SpendStatus(b, BilledHours(v)))
    case WallClock => Some(WallClockStatus(b, BilledHours(v)))
    case _ => None
  }

  predicate CapsUnreached(b: Budget, v: View) {
    BilledHours(v).Some? ==>
      SpendAt(b, BilledHours(v).value) < b.maxUsd && BilledHours(v).value < b.maxWallClockHours
  }

  /** With W&B unreadable and both caps unreached, the only probe that can still
      say `fail` is the one that reports a pod already gone. */
  lemma OutageSilencesProbes(b: Budget, probe: Probe, v: View)
    requires v.run.None? && CapsUnreached(b, v)
    ensures StatusOf(b, probe, v) == Some(Fail) <==>
              probe == PodStatus && v.podNamed && v.pod.Some? && !v.pod.value.running
  {
  }

  // --- time never makes things look better ------------------------------------------------

  /** How statuses are ranked: blind is worse than ok, and milder than a warning. */
  function Severity(status: Status): int {
    match status
    case Ok => 0
    case Unknown => 1
    case Warn => 2
    case Fail => 3
  }

  /** The same look with an older last step. */
  function Stalled(v: View, age: real): View
    requires v.run.Some?
  {
    v.(run := Some(v.run.value.(progressAge := Some(age))))
  }

  /** A loop that logs nothing only gets worse: from ok to warn to fail, with no
      way back, and to fail at exactly the phase's own budget. */
  lemma SilenceOnlyWorsens(v: View, young: real, aged: real)
    requires v.run.Some? && v.runNamed && young <= aged && v.stallBudget > 0.0
    ensures Severity(ProgressAgeStatus(Stalled(v, young))) <= Severity(ProgressAgeStatus(Stalled(v, aged)))
    ensures ProgressAgeStatus(Stalled(v, aged)) == Fail <==> aged > v.stallBudget
    ensures ProgressAgeStatus(Stalled(v, aged)) == Warn <==> v.stallBudget * 3.0 < aged * 5.0 <= v.stallBudget * 5.0
    ensures aged <= 0.0 ==> ProgressAgeStatus(Stalled(v, aged)) == Ok
  {
  }

  /** So does a bill, and a wall clock, whatever else is read. */
  lemma SpendingOnlyWorsens(b: Budget, h: real, k: real)
    requires h <= k && HourlyBurn(b) >= 0.0 && b.maxUsd > 0.0 && 0.0 < b.warnPct < 100.0 && b.maxWallClockHours > 0.0
    ensures Severity(SpendStatus(b, Some(h))) <= Severity(SpendStatus(b, Some(k)))
    ensures Severity(WallClockStatus(b, Some(h))) <= Severity(WallClockStatus(b, Some(k)))
    ensures SpendStatus(b, Some(k)) == Fail <==> SpendAt(b, k) >= b.maxUsd
    ensures SpendStatus(b, Some(k)) == Ok <==> SpendAt(b, k) * 100.0 < b.warnPct * b.maxUsd
    ensures WallClockStatus(b, Some(k)) == Fail <==> k >= b.maxWallClockHours
    ensures WallClockStatus(b, Some(k)) == Ok <==> k * 10.0 < b.maxWallClockHours * 9.0
  {
    SpendGrows(b, h, k);
    hide SpendAt, HourlyBurn;
    ShareGrows(SpendAt(b, h), SpendAt(b, k), b.maxUsd);
    ShareBelow(SpendAt(b, k), b.maxUsd, b.warnPct);
  }

  lemma ShareBelow(x: real, max: real, pct: real)
    requires max > 0.0 && 0.0 < pct < 100.0
    ensures x / max * 100.0 < pct <==> x * 100.0 < pct * max
    ensures x / max * 100.0 < pct ==> x < max
  {
    var share := x / max;
    assert share * max == x;
    if share * 100.0 < pct {
      assert (pct - share * 100.0) * max > 0.0;
      assert (100.0 - pct) * max > 0.0;
    } else {
      assert (share * 100.0 - pct) * max >= 0.0;
    }
  }

  lemma ShareGrows(x: real, y: real, max: real)
    requires x <= y && max > 0.0
    ensures x / max * 100.0 <= y / max * 100.0
  {
    assert x / max <= y / max by {
      assert (y / max - x / max) * max == y - x;
    }
  }

  // --- two observers ------------------------------------------------------------------

  predicate Readable(v: View) {
    v.podNamed && v.runNamed && v.pod.Some? && v.run.Some?
  }

  /** The alert is raised exactly on a pod that bills on over a run that is over, however
      the run ended; a pod that is gone under a run that reads as running is stale news;
      and without either observer there is nothing to compare. Where it is raised, the
      run's own state is never called healthy and the pod's is. */
  lemma DisagreementExactly(v: View)
    ensures ObserverAgreementStatus(v) == Unknown <==> !Readable(v)
    ensures ObserverAgreementStatus(v) == Fail <==>
              && Readable(v) && v.pod.value.running
              && v.run.value.phase != Running && v.run.value.phase != Pending && v.run.value.phase != OtherPhase
    ensures ObserverAgreementStatus(v) == Warn <==>
              Readable(v) && !v.pod.value.running && v.run.value.phase == Running
    ensures ObserverAgreementStatus(v) == Fail ==>
              PodStatusStatus(v) == Ok && (RunStateStatus(v) == Warn || RunStateStatus(v) == Fail)
  {
  }

  /** What one observer's word comes to: a run that ended badly fails, one that is done or
      has yet to begin is a warning; a pod that is down fails; and idle GPUs fail only
      while the run claims to be running. */
  lemma OneObserverExactly(v: View)
    ensures ProgressAgeStatus(v) == Unknown <==> !v.runNamed || v.run.None? || v.run.value.progressAge.None?
    ensures RunStateStatus(v) == Fail <==> v.runNamed && v.run.Some? && BadEnd(v.run.value.phase)
    ensures RunStateStatus(v) == Ok <==>
              v.runNamed && v.run.Some? && (v.run.value.phase == Running || v.run.value.phase == OtherPhase)
    ensures RunStateStatus(v) == Unknown <==> !v.runNamed || v.run.None?
    ensures PodStatusStatus(v) == Fail <==> v.podNamed && v.pod.Some? && !v.pod.value.running
    ensures PodStatusStatus(v) == Unknown <==> !v.podNamed || v.pod.None?
    ensures PodStatusStatus(v) != Warn && GpuUtilStatus(v) != Warn
    ensures GpuUtilStatus(v) == Fail <==>
              && v.runNamed && v.run.Some? && v.run.value.meanUtil.Some?
              && v.run.value.phase == Running && v.run.value.meanUtil.value < v.gpuFloor
    ensures GpuUtilStatus(v) == Unknown <==> !v.runNamed || v.run.None? || v.run.value.meanUtil.None?
  {
  }
}
