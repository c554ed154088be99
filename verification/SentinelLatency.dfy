/** How long what a sweep can see may stay without an answer. */
module SentinelLatency {
  import opened Verdicts
  import opened Ladder
  import opened LadderInvariant
  import opened Sentinel
  import opened SentinelRuns
  import opened SentinelBounds
  import Probes

  // --- a confirmed verdict at L4 kills ------------------------------------------------------

  lemma {:induction false} FailIsDecidedAlone(env: Env, m: Memory, rs: seq<Reading>, j: nat)
    requires j < |rs| && rs[j].verdict.status == Fail
    ensures DecideAll(env, m, rs)[j] == Decision(rs[j].verdict, TargetLevel(env.overrides, rs[j].verdict))
    decreases |rs|
  {
    if j > 0 {
      FailIsDecidedAlone(env, DecideMemory(m, rs[0]), rs[1..], j - 1);
    }
  }

  lemma TerminateIsAttempted(env: Env, s: State, v: Verdict)
    ensures KillAttempted(s.trace, Finish(env, s, v, TERMINATE, true).trace)
  {
    var t := Finish(env, s, v, TERMINATE, true).trace;
    assert IsKill(t[|t| - 1].effect);
  }

  lemma {:induction false} ConfirmedDecisionKills(
    env: Env, s: State, ds: seq<Decision>, recheck: Option<Verdict -> Poll>, j: nat)
    requires j < |ds| && ds[j].target == TERMINATE && Confirms(ds[j], recheck)
    ensures KillAttempted(s.trace, SettleAll(env, s, ds, recheck).trace)
    decreases |ds|
  {
    var c := Confirms(ds[0], recheck);
    var next := Settle(env, s, ds[0], c);
    SettleGrows(env, s, ds[0], c);
    SettleAllGrows(env, next, ds[1..], recheck);
    if j == 0 {
      TerminateIsAttempted(env, s, ds[0].promoted);
    } else {
      ConfirmedDecisionKills(env, next, ds[1..], recheck, j - 1);
    }
    hide Settle, Grows, KillAttempted;
    GrowthAdds(s.trace, next.trace, SettleAll(env, next, ds[1..], recheck).trace);
  }

  lemma ConfirmedBatchKills(env: Env, s: State, rs: seq<Reading>, recheck: Verdict -> Poll, j: nat)
    requires j < |rs| && rs[j].verdict.status == Fail && SaysFail(recheck(rs[j].verdict))
    requires TargetLevel(env.overrides, rs[j].verdict) == TERMINATE
    ensures KillAttempted(s.trace, Batch(env, s, rs, Some(recheck)).trace)
  {
    FailIsDecidedAlone(env, s.memory, rs, j);
    hide DecideAll, DecideAllMemory, SettleAll, ReceiveAll, BatchConfirmEvents, KillAttempted, Grows, SaysFail;
    var ds, n := DecideAll(env, s.memory, rs), |s.history|;
    var added := ReceiveAll(n, rs) + BatchConfirmEvents(env, n, ds, Some(recheck));
    var polled := s.(memory := DecideAllMemory(s.memory, rs), trace := s.trace + added);
    assert s.trace + ReceiveAll(n, rs) + BatchConfirmEvents(env, n, ds, Some(recheck)) == s.trace + added;
    Appending(s.trace, added);
    ConfirmedDecisionKills(env, polled, ds, Some(recheck), j);
    SettleAllGrows(env, polled, ds, Some(recheck));
    GrowthAdds(s.trace, polled.trace, SettleAll(env, polled, ds, Some(recheck)).trace);
  }

  /** Both looks of probe number `j` say `fail`. */
  predicate FailsTwice(env: SentinelEnv, w: Sweep, j: nat)
    requires j < |env.probes|
  {
    && w.first(j).Says? && w.first(j).status == Fail
    && w.again(env.probes[j]).Says? && w.again(env.probes[j]).status == Fail
  }

  /** The probe's `fail` is allowed all the way. */
  predicate AtL4(env: Env, probe: Probe) {
    TargetLevel(env.overrides, Verdict(probe, Fail, map[])) == TERMINATE
  }

  lemma SweepVerdictKills(env: SentinelEnv, s: Watch, w: Sweep, j: nat)
    requires j < |env.probes| && AtL4(env.ladder, env.probes[j]) && FailsTwice(env, w, j)
    ensures KillAttempted(s.ladder.trace, ProbedLadder(env, s, w).trace)
  {
    hide Batch, KillAttempted, Tick;
    var rs, recheck := SweepReadings(env, w), Repoll(env, w);
    assert rs[j].verdict == Verdict(env.probes[j], Fail, w.first(j).evidence);
    assert SaysFail(recheck(rs[j].verdict));
    ConfirmedBatchKills(env.ladder, s.ladder, rs, recheck, j);
  }

  /** What the probes' verdicts led to is not undone by the rest of the sweep. */
  lemma ProbedKillStands(env: SentinelEnv, s: Watch, w: Sweep)
    requires !LateStart(env, s, w) && KillAttempted(s.ladder.trace, ProbedLadder(env, s, w).trace)
    ensures KillAttempted(s.ladder.trace, Tick(env, s, w).0.ladder.trace)
  {
    hide Batch, Handle, Shutdown, KillAttempted, Grows;
    var probed := ProbedLadder(env, s, w);
    BatchGrows(env.ladder, s.ladder, SweepReadings(env, w), Some(Repoll(env, w)));
    HandleGrows(env.ladder, probed, Reading(DEAD_MAN, w.lastLook), None);
    var dead := Handle(env.ladder, probed, Reading(DEAD_MAN, w.lastLook), None);
    ShutdownKills(env.ladder, dead, false, None);
    GrowthAdds(probed.trace, dead.trace, Shutdown(env.ladder, dead, false, None).trace);
    GrowthAdds(s.ladder.trace, probed.trace, Shutdown(env.ladder, dead, false, None).trace);
  }

  /** A late start either raises, exactly when the re-poll had no verdict left to
      give on a verdict that wanted one, or ends in a kill attempt. */
  lemma LateStartKillsOrRaises(env: SentinelEnv, s: Watch, w: Sweep)
    requires LateStart(env, s, w)
    ensures var (next, outcome) := Tick(env, s, w);
            && (outcome.Crashed? <==>
                  StartupPoll(env, w) == NoAnswer && TargetLevel(env.ladder.overrides, LATE_START) > NOTIFY)
            && (outcome.Returned? ==> outcome.value.terminated && KillAttempted(s.ladder.trace, next.ladder.trace))
  {
    TickGrows(env, s, w);
    hide Handle, Shutdown, KillAttempted, Grows, StartupPoll;
  }

  /** A sweep in which a probe at L4 fails twice attempts a kill, unless it raises. */
  lemma FailingTwiceKills(env: SentinelEnv, s: Watch, w: Sweep, j: nat)
    requires j < |env.probes| && AtL4(env.ladder, env.probes[j]) && FailsTwice(env, w, j)
    requires Tick(env, s, w).1.Returned?
    ensures KillAttempted(s.ladder.trace, Tick(env, s, w).0.ladder.trace)
  {
    hide Tick, Batch, KillAttempted, FailsTwice, AtL4;
    if LateStart(env, s, w) {
      LateStartKillsOrRaises(env, s, w);
    } else {
      SweepVerdictKills(env, s, w, j);
      ProbedKillStands(env, s, w);
    }
  }

  // --- one bound for every alarm ---------------------------------------------------------------

  /** Sweep `k` attempts a kill by its end, if it comes back. */
  ghost predicate KillsAt(env: SentinelEnv, s: Watch, ws: seq<Sweep>, k: nat)
    requires k < |ws|
  {
    Completes(env, s, ws, k) ==> KillAttempted(s.ladder.trace, After(env, s, ws[..k + 1]).ladder.trace)
  }

  lemma TickKillsAt(env: SentinelEnv, s: Watch, ws: seq<Sweep>, k: nat)
    requires k < |ws|
    requires var before := After(env, s, ws[..k]);
             Completes(env, s, ws, k) ==> KillAttempted(before.ladder.trace, Tick(env, before, ws[k]).0.ladder.trace)
    ensures KillsAt(env, s, ws, k)
  {
    hide Tick, KillAttempted, Grows, Good, Completes;
    var before := After(env, s, ws[..k]);
    assert ws[..k + 1][..k] == ws[..k];
    AfterKeeps(env, s, ws[..k]);
    TickGrows(env, before, ws[k]);
    GrowthAdds(s.ladder.trace, before.ladder.trace, After(env, s, ws[..k + 1]).ladder.trace);
  }

  /** An alarm is something a sweep can show, and a sweep that shows it kills. */
  ghost predicate Alarm(env: SentinelEnv, s: Watch, ws: seq<Sweep>, alarm: nat -> bool) {
    forall k: nat :: k < |ws| && alarm(k) ==> KillsAt(env, s, ws, k)
  }

  /** A kill is attempted by sweep `n`, before which none but the last had shown the
      alarm. */
  ghost predicate Heeded(env: SentinelEnv, s: Watch, ws: seq<Sweep>, alarm: nat -> bool, n: nat) {
    && 0 < n <= |ws|
    && KillAttempted(s.ladder.trace, After(env, s, ws[..n]).ladder.trace)
    && forall i: nat :: i + 1 < n ==> !alarm(i)
  }

  /** The watch ended because run and pod were over, or because a late start's
      re-poll raised, and no sweep it completed had shown the alarm. */
  ghost predicate EndsBefore(v: Vigil, alarm: nat -> bool) {
    && (v.stop == RunOver || v.stop == TickRaised)
    && forall k: nat :: k < CompletedBy(v) ==> !alarm(k)
  }

  lemma FirstAnswer(env: SentinelEnv, s: Watch, ws: seq<Sweep>, alarm: nat -> bool, m: nat) returns (n: nat)
    requires Alarm(env, s, ws, alarm) && m <= |ws|
    requires KillAttempted(s.ladder.trace, After(env, s, ws[..m]).ladder.trace)
    requires forall i: nat :: i + 1 < m ==> Completes(env, s, ws, i)
    ensures 0 < n <= m && Heeded(env, s, ws, alarm, n)
  {
    hide After, KillAttempted, Completes;
    n := FirstKill(env, s, ws, m);
    forall i: nat | i + 1 < n ensures !alarm(i) {
      if alarm(i) {
        assert KillsAt(env, s, ws, i);
        assert ws[..n - 1][..i + 1] == ws[..i + 1];
        KillStaysAttempted(env, s, ws[..n - 1], i + 1);
      }
    }
  }

  /** A watch whose sweeps go on until one shows the alarm answers it with the first
      sweep that does, if it had not attempted a kill before; or it ended earlier. */
  lemma AlarmsAreAnswered(env: SentinelEnv, s: Watch, ws: seq<Sweep>, alarm: nat -> bool) returns (n: nat)
    requires Good(env.ladder, s.ladder, []) && !s.ladder.terminated
    requires Alarm(env, s, ws, alarm) && ws != [] && alarm(|ws| - 1)
    ensures var v := KeepWatch(env, s, ws, None, 0);
            v.taken <= |ws| && ((n <= v.taken && Heeded(env, s, ws, alarm, n)) || EndsBefore(v, alarm))
  {
    hide KeepWatch, After, Good, KillAttempted, Completes, Heeded;
    var v := KeepWatch(env, s, ws, None, 0);
    var m := CompletedBy(v);
    WatchAdvances(env, s, ws);
    n := 0;
    if k: nat :| k < m && alarm(k) {
      assert KillsAt(env, s, ws, k);
      n := FirstAnswer(env, s, ws, alarm, k + 1);
    } else if v.stop == PodDown {
      n := FirstAnswer(env, s, ws, alarm, v.taken);
    }
  }

  /** Between a sweep that begins before `t` and the end of the next lie at most one
      sleep and two sweeps. */
  lemma AnswerIsTimely(
    env: SentinelEnv, s: Watch, ws: seq<Sweep>, alarm: nat -> bool, n: nat, p: real, d: real, t: real)
    requires Heeded(env, s, ws, alarm, n) && Timely(ws, p, d)
    requires ws[0].begin <= t + p + d
    requires n > 1 && !alarm(n - 2) ==> ws[n - 2].begin <= t
    ensures ws[n - 1].end <= t + p + 2.0 * d
  {
    hide KillAttempted, After;
    assert InOrder(ws[n - 1], d);
    if n > 1 {
      assert InOrder(ws[n - 2], d) && ws[n - 2 + 1].begin == ws[n - 2].end + p;
    }
  }

  // --- the startup deadline -----------------------------------------------------------------------

  /** Neither look of the sweep shows a run that has started. */
  predicate ShowsNoStart(w: Sweep) {
    !HasStarted(w.firstSummary) && !HasStarted(w.secondSummary)
  }

  function LateAlarm(env: SentinelEnv, ws: seq<Sweep>): nat -> bool {
    (k: nat) => k < |ws| && ws[k].firstLook - env.podCreatedAt > env.cfg.startup.deadline
  }

  lemma UnstartedTick(env: SentinelEnv, s: Watch, w: Sweep, d: real)
    requires !s.startupSeen && ShowsNoStart(w) && InOrder(w, d)
    ensures !Tick(env, s, w).0.startupSeen && Tick(env, s, w).1.Returned?
    ensures w.firstLook - env.podCreatedAt > env.cfg.startup.deadline ==>
              KillAttempted(s.ladder.trace, Tick(env, s, w).0.ladder.trace)
  {
    if LateStart(env, s, w) {
      LateStartKillsOrRaises(env, s, w);
    }
    hide Handle, Batch, Shutdown, KillAttempted;
  }

  lemma {:induction false} StaysUnstarted(env: SentinelEnv, s: Watch, ws: seq<Sweep>, p: real, d: real)
    requires !s.startupSeen && Timely(ws, p, d) && forall k :: 0 <= k < |ws| ==> ShowsNoStart(ws[k])
    ensures !After(env, s, ws).startupSeen
  {
    hide Tick, ShowsNoStart, InOrder;
    if ws != [] {
      var k := |ws| - 1;
      StaysUnstarted(env, s, ws[..k], p, d);
      UnstartedTick(env, After(env, s, ws[..k]), ws[k], d);
    }
  }

  lemma LateAlarmKills(env: SentinelEnv, s: Watch, ws: seq<Sweep>, p: real, d: real)
    requires !s.startupSeen && Timely(ws, p, d) && forall k :: 0 <= k < |ws| ==> ShowsNoStart(ws[k])
    ensures Alarm(env, s, ws, LateAlarm(env, ws))
    ensures forall k: nat :: k < |ws| ==> Completes(env, s, ws, k)
  {
    hide Tick, ShowsNoStart, InOrder, KillAttempted, After, KillsAt;
    forall k: nat | k < |ws|
      ensures Completes(env, s, ws, k) && (LateAlarm(env, ws)(k) ==> KillsAt(env, s, ws, k))
    {
      StaysUnstarted(env, s, ws[..k], p, d);
      UnstartedTick(env, After(env, s, ws[..k]), ws[k], d);
      if LateAlarm(env, ws)(k) {
        TickKillsAt(env, s, ws, k);
      }
    }
  }

  /** A pod that never shows a start is not kept: with a watch that begins in time and
      sweeps that go on past the deadline, a kill is attempted by a sweep that ends
      within P + 2D of it; or run and pod were over before any sweep came late. */
  lemma StartupLatency(env: SentinelEnv, s: Watch, ws: seq<Sweep>, p: real, d: real) returns (n: nat)
    requires Good(env.ladder, s.ladder, []) && !s.ladder.terminated && !s.startupSeen && ws != []
    requires Timely(ws, p, d) && forall k :: 0 <= k < |ws| ==> ShowsNoStart(ws[k])
    requires ws[0].begin <= env.podCreatedAt + env.cfg.startup.deadline + p + d
    requires ws[|ws| - 1].firstLook - env.podCreatedAt > env.cfg.startup.deadline
    ensures var v := KeepWatch(env, s, ws, None, 0);
            || (&& 0 < n <= v.taken <= |ws|
                && KillAttempted(s.ladder.trace, After(env, s, ws[..n]).ladder.trace)
                && ws[n - 1].end <= env.podCreatedAt + env.cfg.startup.deadline + p + 2.0 * d)
            || (v.stop == RunOver && EndsBefore(v, LateAlarm(env, ws)))
  {
    hide KeepWatch, After, Good, KillAttempted, Tick, ShowsNoStart, Alarm, EndsBefore;
    var alarm, t := LateAlarm(env, ws), env.podCreatedAt + env.cfg.startup.deadline;
    LateAlarmKills(env, s, ws, p, d);
    n := AlarmsAreAnswered(env, s, ws, alarm);
    if Heeded(env, s, ws, alarm, n) && n <= KeepWatch(env, s, ws, None, 0).taken {
      assert n > 1 ==> InOrder(ws[n - 2], d);
      AnswerIsTimely(env, s, ws, alarm, n, p, d, t);
    } else {
      NoRaise(env, s, ws, alarm);
    }
  }

  /** A watch whose sweeps all come back does not end by raising. */
  lemma NoRaise(env: SentinelEnv, s: Watch, ws: seq<Sweep>, alarm: nat -> bool)
    requires Good(env.ladder, s.ladder, []) && !s.ladder.terminated
    requires EndsBefore(KeepWatch(env, s, ws, None, 0), alarm)
    requires forall k: nat :: k < |ws| ==> Completes(env, s, ws, k)
    ensures KeepWatch(env, s, ws, None, 0).stop == RunOver
  {
    hide KeepWatch, After, Good, KillAttempted, Tick;
    KeepWatchIsAfter(env, s, ws, None, 0);
    var v := KeepWatch(env, s, ws, None, 0);
    if v.stop == TickRaised {
      assert Completes(env, s, ws, v.taken - 1);
    }
  }

  // --- any probe at L4 ------------------------------------------------------------------------------

  function FailAlarm(env: SentinelEnv, ws: seq<Sweep>, j: nat): nat -> bool
    requires j < |env.probes|
  {
    (k: nat) => k < |ws| && FailsTwice(env, ws[k], j)
  }

  lemma FailAlarmKills(env: SentinelEnv, s: Watch, ws: seq<Sweep>, j: nat)
    requires j < |env.probes| && AtL4(env.ladder, env.probes[j])
    ensures Alarm(env, s, ws, FailAlarm(env, ws, j))
  {
    hide Tick, FailsTwice, AtL4, KillAttempted, After, KillsAt;
    forall k: nat | k < |ws| && FailAlarm(env, ws, j)(k) ensures KillsAt(env, s, ws, k) {
      if Completes(env, s, ws, k) {
        FailingTwiceKills(env, After(env, s, ws[..k]), ws[k], j);
      }
      TickKillsAt(env, s, ws, k);
    }
  }

  /** Whatever makes a probe at L4 fail at both looks of every sweep begun after `t`
      is answered by a sweep that ends within P + 2D of `t`; or the watch ended before
      a completed sweep failed twice. */
  lemma ProbeLatency(env: SentinelEnv, s: Watch, ws: seq<Sweep>, j: nat, t: real, p: real, d: real) returns (n: nat)
    requires Good(env.ladder, s.ladder, []) && !s.ladder.terminated && ws != [] && Timely(ws, p, d)
    requires j < |env.probes| && AtL4(env.ladder, env.probes[j])
    requires forall k :: 0 <= k < |ws| && ws[k].begin > t ==> FailsTwice(env, ws[k], j)
    requires ws[0].begin <= t + p + d && ws[|ws| - 1].begin > t
    ensures var v := KeepWatch(env, s, ws, None, 0);
            || (&& 0 < n <= v.taken <= |ws|
                && KillAttempted(s.ladder.trace, After(env, s, ws[..n]).ladder.trace)
                && ws[n - 1].end <= t + p + 2.0 * d)
            || EndsBefore(v, FailAlarm(env, ws, j))
  {
    hide KeepWatch, After, Good, KillAttempted, FailsTwice, AtL4, Timely, Alarm, EndsBefore;
    FailAlarmKills(env, s, ws, j);
    n := AlarmsAreAnswered(env, s, ws, FailAlarm(env, ws, j));
    if Heeded(env, s, ws, FailAlarm(env, ws, j), n) && n <= KeepWatch(env, s, ws, None, 0).taken {
      AnswerIsTimely(env, s, ws, FailAlarm(env, ws, j), n, p, d, t);
    }
  }

  // --- the wedged loop ------------------------------------------------------------------------------

  /** When a sweep's two looks at the run were taken, and what they saw. */
  datatype Looking = Looking(at: real, view: Probes.View, againAt: real, againView: Probes.View)

  /** Nothing has been logged since `last`, and the look can read that. */
  predicate SeesSilence(v: Probes.View, last: real, at: real, budget: real) {
    && v.runNamed && v.run.Some? && v.run.value.progressAge == Some(at - last) && v.stallBudget == budget
  }

  predicate SweepsSilence(env: SentinelEnv, w: Sweep, j: nat, last: real, budget: real, look: Looking)
    requires j < |env.probes|
  {
    && w.begin <= look.at <= look.againAt <= w.end
    && SeesSilence(look.view, last, look.at, budget) && SeesSilence(look.againView, last, look.againAt, budget)
    && w.first(j).Says? && w.first(j).status == Probes.ProgressAgeStatus(look.view)
    && w.again(ProgressAge).Says? && w.again(ProgressAge).status == Probes.ProgressAgeStatus(look.againView)
  }

  /** A training loop that stops logging, however healthy everything else looks, meets
      a kill attempt within its phase's budget + P + 2D of the last thing it logged. */
  lemma WedgedLoopLatency(
    env: SentinelEnv, s: Watch, ws: seq<Sweep>, j: nat, last: real, budget: real, looks: seq<Looking>, p: real, d: real)
    returns (n: nat)
    requires Good(env.ladder, s.ladder, []) && !s.ladder.terminated && ws != [] && Timely(ws, p, d)
    requires j < |env.probes| && env.probes[j] == ProgressAge && ProgressAge !in env.ladder.overrides
    requires |looks| == |ws| && forall k :: 0 <= k < |ws| ==> SweepsSilence(env, ws[k], j, last, budget, looks[k])
    requires ws[0].begin <= last + budget + p + d && ws[|ws| - 1].begin > last + budget
    ensures var v := KeepWatch(env, s, ws, None, 0);
            || (&& 0 < n <= v.taken <= |ws|
                && KillAttempted(s.ladder.trace, After(env, s, ws[..n]).ladder.trace)
                && ws[n - 1].end <= last + budget + p + 2.0 * d)
            || EndsBefore(v, FailAlarm(env, ws, j))
  {
    hide KeepWatch, After, Good, KillAttempted, Timely, EndsBefore;
    forall k | 0 <= k < |ws| && ws[k].begin > last + budget ensures FailsTwice(env, ws[k], j) {
      assert SweepsSilence(env, ws[k], j, last, budget, looks[k]);
    }
    hide SweepsSilence, FailsTwice;
    n := ProbeLatency(env, s, ws, j, last + budget, p, d);
  }

  // --- the pod that outlives its run ------------------------------------------------------------------

  /** Both observers answer, the pod is up, and the run has ended, well or badly. */
  predicate SeesEmptyPod(v: Probes.View) {
    && v.podNamed && v.runNamed && v.pod.Some? && v.run.Some? && v.pod.value.running
    && var phase := v.run.value.phase;
    phase.Done? || phase.Crashed? || phase.Failed? || phase.Killed?
  }

  predicate AsksAgreement(env: SentinelEnv, w: Sweep, j: nat, look: Looking)
    requires j < |env.probes|
  {
    && w.first(j).Says? && w.first(j).status == Probes.ObserverAgreementStatus(look.view)
    && w.again(ObserverAgreement).Says?
    && w.again(ObserverAgreement).status == Probes.ObserverAgreementStatus(look.againView)
  }

  /** A pod that goes on billing once its run is over, be it a clean exit, meets a kill
      attempt within P + 2D of the time from which both observers show it. */
  lemma EmptyPodLatency(
    env: SentinelEnv, s: Watch, ws: seq<Sweep>, j: nat, t: real, looks: seq<Looking>, p: real, d: real)
    returns (n: nat)
    requires Good(env.ladder, s.ladder, []) && !s.ladder.terminated && ws != [] && Timely(ws, p, d)
    requires j < |env.probes| && env.probes[j] == ObserverAgreement && ObserverAgreement !in env.ladder.overrides
    requires |looks| == |ws| && forall k :: 0 <= k < |ws| ==> AsksAgreement(env, ws[k], j, looks[k])
    requires forall k :: 0 <= k < |ws| && ws[k].begin > t ==>
               SeesEmptyPod(looks[k].view) && SeesEmptyPod(looks[k].againView)
    requires ws[0].begin <= t + p + d && ws[|ws| - 1].begin > t
    ensures var v := KeepWatch(env, s, ws, None, 0);
            || (&& 0 < n <= v.taken <= |ws|
                && KillAttempted(s.ladder.trace, After(env, s, ws[..n]).ladder.trace)
                && ws[n - 1].end <= t + p + 2.0 * d)
            || EndsBefore(v, FailAlarm(env, ws, j))
  {
    hide KeepWatch, After, Good, KillAttempted, Timely, EndsBefore;
    forall k | 0 <= k < |ws| && ws[k].begin > t ensures FailsTwice(env, ws[k], j) {
      assert AsksAgreement(env, ws[k], j, looks[k]);
    }
    hide AsksAgreement, FailsTwice, SeesEmptyPod;
    n := ProbeLatency(env, s, ws, j, t, p, d);
  }
}
