/** How far each probe may go, and whether the audit trail says so. */
module LadderAudit {
  import opened Verdicts
  import opened Config
  import opened Ladder
  import opened LadderTraces
  import opened LadderInvariant
  import opened LadderRuns

  // --- how far each probe may go ---------------------------------------------------------

  lemma EffectsByLevel(env: Env, n: nat, v: Verdict, target: Level, e: Effect)
    requires e in ExecuteEffects(env, n, v, target)
    ensures e.SnapshotTaken? ==> target >= SNAPSHOT
    ensures e.CheckpointRequested? || e.CheckpointWaited? ==> target >= HALT
    ensures e.Alerted? || e.Finished? || e.Killed? || e.KillImpossible? ==>
              || target == TERMINATE
              || (target == HALT && !(env.trainer && !env.calls(n).requestRaises && env.calls(n).wait == Saved))
    ensures e.Killed? ==> env.runpod && env.podId != "" && e.action == env.failsafe.onTerminal
  {
    WayDownIsSilent(env, n, env.failsafe.onTerminal);
    if e.Killed? {
      KillsNeedAClient(env, n, env.failsafe.onTerminal, e);
    }
    hide TerminateEffects, CheckpointEffects;
  }

  lemma KillsNeedAClient(env: Env, n: nat, action: TerminalAction, e: Effect)
    requires e.Killed?
    ensures e in CheckpointEffects(env, n) ==> false
    ensures e in TerminateEffects(env, n, action) ==> env.runpod && env.podId != "" && e.action == action
  {
  }

  /** Outside shutdowns no probe gets further than its own level: the one it is
      overridden to, or else its default. */
  lemma NothingPastItsLevel(env: Env, ops: seq<Op>, k: nat)
    requires k < |Run(env, ops).trace| && PastNotify(Run(env, ops).trace[k].effect)
    requires Run(env, ops).trace[k].action < |Run(env, ops).history|
    requires !IsShutdown(Run(env, ops).history[Run(env, ops).trace[k].action])
    ensures var s := Run(env, ops);
            var a, e := s.trace[k].action, s.trace[k].effect;
            var p := s.history[a].verdict.probe;
            var own := if p in env.overrides then env.overrides[p] else DefaultLevel(p);
            var saved := env.trainer && !env.calls(a).requestRaises && env.calls(a).wait == Saved;
            && own >= SNAPSHOT
            && (e.CheckpointRequested? || e.CheckpointWaited? ==> own >= HALT)
            && (e.Alerted? || e.Finished? || e.Killed? || e.KillImpossible? ==>
                  own == TERMINATE || (own == HALT && !saved))
  {
    var s := Run(env, ops);
    var a, e := s.trace[k].action, s.trace[k].effect;
    NothingPastNotifyUnconfirmed(env, ops, k);
    RunIsGood(env, ops);
    assert HandledExactly(env, s, a);
    EffectIsItsActions(s.trace, k);
    hide Good, Run, ExecuteEffects, ExecuteSteps, Of;
    EffectsByLevel(env, a, s.history[a].verdict, Aim(env, s.history[a]), e);
  }

  /** By default only a cap, or a sign that nothing trains, may end the pod on its
      own; a training metric only where no checkpoint could be had. */
  lemma OnlyTheseKill(env: Env, ops: seq<Op>, k: nat)
    requires env.overrides == map[]
    requires k < |Run(env, ops).trace| && Run(env, ops).trace[k].effect.Killed?
    requires Run(env, ops).trace[k].action < |Run(env, ops).history|
    requires !IsShutdown(Run(env, ops).history[Run(env, ops).trace[k].action])
    ensures var s := Run(env, ops);
            var a := s.trace[k].action;
            var p := s.history[a].verdict.probe;
            || p == Spend || p == WallClock || p == ObserverAgreement
            || p == ProgressAge || p == StepCounter || p == GpuUtil
            || (&& (p == RewardStd || p == KlRef || p == Entropy || p == FormatSuccess || p == RolloutDuration
                    || p == GenerationBackend || p == RewardModel || p == ReplDegeneracy || p == LossFinite)
                && !(env.trainer && !env.calls(a).requestRaises && env.calls(a).wait == Saved))
  {
    NothingPastItsLevel(env, ops, k);
  }

  /** A dry run has no RunPod client: no kill is ever called, and no run of it ends
      with the pod known to be down. */
  lemma DryRunSpares(env: Env, ops: seq<Op>)
    requires !env.runpod
    ensures var s := Run(env, ops);
            && !s.terminated
            && forall k :: 0 <= k < |s.trace| ==> !s.trace[k].effect.Killed?
  {
    var s := Run(env, ops);
    RunIsGood(env, ops);
    forall k | 0 <= k < |s.trace| && s.trace[k].effect.Killed? ensures false {
      assert PastNotify(s.trace[k].effect);
      var a, e := s.trace[k].action, s.trace[k].effect;
      EffectIsItsActions(s.trace, k);
      var r := s.history[a];
      if IsShutdown(r) {
        assert ShutExactly(env, s, a);
        KillsNeedAClient(env, a, r.steps[2].action, e);
      } else {
        assert HandledExactly(env, s, a);
        EffectsByLevel(env, a, r.verdict, Aim(env, r), e);
      }
    }
  }

  // --- the audit trail -----------------------------------------------------------------------

  lemma StepsByTarget(env: Env, n: nat, target: Level)
    ensures var steps, saved := ExecuteSteps(env, n, target), CheckpointSaved(env, n);
            && |steps| > 0 && steps[0] == LogStep
            && (NotifyStep in steps <==> target >= NOTIFY)
            && (SnapshotStep(env.diagnostics) in steps <==> target >= SNAPSHOT)
            && SnapshotStep(!env.diagnostics) !in steps
            && (HaltStep(saved) in steps <==> target >= HALT) && HaltStep(!saved) !in steps
            && (HaltTimeoutStep in steps <==> target >= HALT && !saved)
            && (TerminateStep(env.failsafe.onTerminal) in steps <==> Kills(env, n, target))
            && (forall t :: t in steps && t.TerminateStep? ==> t.action == env.failsafe.onTerminal)
  {
    var steps := ExecuteSteps(env, n, target);
    if Kills(env, n, target) {
      assert steps[|steps| - 1] == TerminateStep(env.failsafe.onTerminal);
    }
    hide CheckpointSaved;
  }

  lemma SavesByTarget(env: Env, n: nat, v: Verdict, target: Level)
    ensures CheckpointWaited(Saved) in ExecuteEffects(env, n, v, target) <==> target >= HALT && CheckpointSaved(env, n)
  {
    WayDownIsSilent(env, n, env.failsafe.onTerminal);
    SavesAreWaitedFor(env, n);
    hide TerminateEffects, CheckpointEffects, CheckpointSaved;
  }

  lemma SavesAreWaitedFor(env: Env, n: nat)
    ensures CheckpointWaited(Saved) in CheckpointEffects(env, n) <==> CheckpointSaved(env, n)
  {
    if CheckpointSaved(env, n) {
      assert CheckpointEffects(env, n)[1] == CheckpointWaited(Saved);
    }
  }

  /** A handled record's steps are what was done for it, and nothing else. */
  lemma AuditIsTrue(env: Env, ops: seq<Op>, a: nat)
    requires a < |Run(env, ops).history| && !IsShutdown(Run(env, ops).history[a])
    ensures var r, did := Run(env, ops).history[a], Of(Run(env, ops).trace, a);
            && |r.steps| > 0 && r.steps[0] == LogStep
            && (NotifyStep in r.steps <==> exists e :: e in did && e.Notified?)
            && (SnapshotStep(true) in r.steps <==> exists e :: e in did && e.SnapshotTaken?)
            && (SnapshotStep(false) in r.steps <==> r.level >= SNAPSHOT && !env.diagnostics)
            && (HaltStep(true) in r.steps <==> CheckpointWaited(Saved) in did)
            && (HaltStep(false) in r.steps <==> r.level >= HALT && CheckpointWaited(Saved) !in did)
            && (HaltTimeoutStep in r.steps <==> HaltStep(false) in r.steps)
            && (TerminateStep(env.failsafe.onTerminal) in r.steps <==>
                  exists e :: e in did && (e.Killed? || e.KillImpossible?))
            && (forall t :: t in r.steps && t.TerminateStep? ==> t.action == env.failsafe.onTerminal)
  {
    EffectsMatchLevel(env, ops, a);
    RunIsGood(env, ops);
    var s := Run(env, ops);
    var r := s.history[a];
    var aim := Aim(env, r);
    assert HandledExactly(env, s, a);
    assert r.level >= HALT <==> aim >= HALT;
    assert r.level >= SNAPSHOT <==> aim >= SNAPSHOT;
    hide Good, Run, ExecuteEffects, ExecuteSteps, Of, CheckpointSaved, TargetLevel, Aim, HandledExactly;
    StepsByTarget(env, a, aim);
    SavesByTarget(env, a, r.verdict, aim);
    KillsAreAttempted(env, a, r.verdict, aim);
  }
}
