/** Whole watches: what every run of sweeps keeps, and why a watch ends. */
module SentinelRuns {
  import opened Verdicts
  import opened Config
  import opened Ladder
  import opened LadderInvariant
  import opened LadderRuns
  import F = LadderFilings
  import opened Sentinel

  /** The state after all of `ws`, were nothing to stop the watch. */
  function After(env: SentinelEnv, s: Watch, ws: seq<Sweep>): Watch {
    if ws == [] then s
    else Tick(env, After(env, s, ws[..|ws| - 1]), ws[|ws| - 1]).0
  }

  predicate IsKill(e: Effect) {
    e.Killed? || e.KillImpossible?
  }

  /** A kill call that did not raise. */
  predicate Landed(e: Effect) {
    e.Killed? && !e.raised
  }

  /** `_terminate` was called between the two traces. */
  ghost predicate KillAttempted(before: seq<Event>, now: seq<Event>) {
    exists k :: |before| <= k < |now| && IsKill(now[k].effect)
  }

  // --- traces only grow -----------------------------------------------------------

  ghost predicate Grows(before: seq<Event>, now: seq<Event>) {
    |before| <= |now| && now[..|before|] == before
  }

  lemma GrowthAdds(a: seq<Event>, b: seq<Event>, c: seq<Event>)
    requires Grows(a, b) && Grows(b, c)
    ensures Grows(a, c)
    ensures KillAttempted(a, b) || KillAttempted(b, c) <==> KillAttempted(a, c)
  {
    assert forall k :: 0 <= k < |b| ==> c[k] == c[..|b|][k];
  }

  lemma SettleGrows(env: Env, s: State, d: Decision, c: bool)
    ensures Grows(s.trace, Settle(env, s, d, c).trace)
  {
    hide Settle;
    var added := SettleAppends(env, s, d, c);
  }

  lemma {:induction false} SettleAllGrows(env: Env, s: State, ds: seq<Decision>, recheck: Option<Verdict -> Poll>)
    ensures Grows(s.trace, SettleAll(env, s, ds, recheck).trace)
    decreases |ds|
  {
    hide Settle, Grows;
    assert Grows(s.trace, s.trace) by { GrowsSelf(s.trace); }
    if ds != [] {
      var next := Settle(env, s, ds[0], Confirms(ds[0], recheck));
      SettleGrows(env, s, ds[0], Confirms(ds[0], recheck));
      SettleAllGrows(env, next, ds[1..], recheck);
      GrowthAdds(s.trace, next.trace, SettleAll(env, next, ds[1..], recheck).trace);
    }
  }

  lemma GrowsSelf(t: seq<Event>)
    ensures Grows(t, t)
  {
  }

  lemma Appending(t: seq<Event>, u: seq<Event>)
    ensures Grows(t, t + u)
  {
  }

  lemma HandleGrows(env: Env, s: State, r: Reading, poll: Option<Poll>)
    ensures Grows(s.trace, Handle(env, s, r, poll).trace)
  {
    hide Settle, Decide, DecideMemory;
    var d, heard := Decide(env, s.memory, r), Receive(s, |s.history|, r);
    var asked := if poll.Some? && d.target > NOTIFY
                 then ConfirmEvents(env, |s.history|, d.promoted.probe, poll.value) else [];
    var polled := heard.(trace := s.trace + ([Event(|s.history|, Received(r))] + asked));
    assert heard.trace + asked == polled.trace;
    assert asked == [] ==> polled == heard;
    Appending(s.trace, [Event(|s.history|, Received(r))] + asked);
    var c := d.target > NOTIFY && poll.Some? && SaysFail(poll.value);
    SettleGrows(env, polled, d, c);
    hide Grows;
    GrowthAdds(s.trace, polled.trace, Settle(env, polled, d, c).trace);
  }

  lemma BatchGrows(env: Env, s: State, rs: seq<Reading>, recheck: Option<Verdict -> Poll>)
    ensures Grows(s.trace, Batch(env, s, rs, recheck).trace)
  {
    hide DecideAll, DecideAllMemory, SettleAll, ReceiveAll, BatchConfirmEvents;
    var ds, n := DecideAll(env, s.memory, rs), |s.history|;
    var added := ReceiveAll(n, rs) + BatchConfirmEvents(env, n, ds, recheck);
    var polled := s.(memory := DecideAllMemory(s.memory, rs), trace := s.trace + added);
    assert s.trace + ReceiveAll(n, rs) + BatchConfirmEvents(env, n, ds, recheck) == s.trace + added;
    Appending(s.trace, added);
    SettleAllGrows(env, polled, ds, recheck);
    GrowthAdds(s.trace, polled.trace, SettleAll(env, polled, ds, recheck).trace);
  }

  lemma ShutdownKills(env: Env, s: State, crashed: bool, action: Option<TerminalAction>)
    ensures Grows(s.trace, Shutdown(env, s, crashed, action).trace)
    ensures KillAttempted(s.trace, Shutdown(env, s, crashed, action).trace)
  {
    var t := Shutdown(env, s, crashed, action).trace;
    assert IsKill(t[|t| - 1].effect);
  }

  /** A late start that is handled to the end, and a dead man's switch that
      fires, both call `_terminate`. */
  lemma TickGrows(env: SentinelEnv, s: Watch, w: Sweep)
    ensures var (next, outcome) := Tick(env, s, w);
            && Grows(s.ladder.trace, next.ladder.trace)
            && (outcome.Returned? && outcome.value.terminated ==> KillAttempted(s.ladder.trace, next.ladder.trace))
  {
    hide Handle, Batch, Shutdown, Grows, KillAttempted;
    var l := env.ladder;
    if LateStart(env, s, w) {
      var r, poll := Reading(LATE_START, w.firstLook), Some(StartupPoll(env, w));
      var handled := Handle(l, s.ladder, r, poll);
      HandleGrows(l, s.ladder, r, poll);
      ShutdownKills(l, handled, false, None);
      GrowthAdds(s.ladder.trace, handled.trace, Shutdown(l, handled, false, None).trace);
    } else {
      var probed := ProbedLadder(env, s, w);
      BatchGrows(l, s.ladder, SweepReadings(env, w), Some(Repoll(env, w)));
      var handled := Handle(l, probed, Reading(DEAD_MAN, w.lastLook), None);
      HandleGrows(l, probed, Reading(DEAD_MAN, w.lastLook), None);
      ShutdownKills(l, handled, false, None);
      GrowthAdds(probed.trace, handled.trace, Shutdown(l, handled, false, None).trace);
      GrowthAdds(s.ladder.trace, probed.trace, Shutdown(l, handled, false, None).trace);
    }
  }

  lemma TickKeepsGood(env: SentinelEnv, s: Watch, w: Sweep)
    requires Good(env.ladder, s.ladder, [])
    ensures Good(env.ladder, Tick(env, s, w).0.ladder, [])
  {
    hide Good, Handle, Batch, Shutdown;
    var l := env.ladder;
    if LateStart(env, s, w) {
      var op := HandleOp(Reading(LATE_START, w.firstLook), Some(StartupPoll(env, w)));
      ApplyKeepsGood(l, s.ladder, op);
      ApplyKeepsGood(l, Apply(l, s.ladder, op), ShutdownOp(false, None));
    } else {
      var op := BatchOp(SweepReadings(env, w), Some(Repoll(env, w)));
      ApplyKeepsGood(l, s.ladder, op);
      var probed := Apply(l, s.ladder, op);
      var dead := HandleOp(Reading(DEAD_MAN, w.lastLook), None);
      ApplyKeepsGood(l, probed, dead);
      ApplyKeepsGood(l, Apply(l, probed, dead), ShutdownOp(false, None));
    }
  }

  lemma {:induction false} AfterKeeps(env: SentinelEnv, s: Watch, ws: seq<Sweep>)
    ensures Grows(s.ladder.trace, After(env, s, ws).ladder.trace)
    ensures Good(env.ladder, s.ladder, []) ==> Good(env.ladder, After(env, s, ws).ladder, [])
  {
    hide Tick, Good, Grows;
    GrowsSelf(s.ladder.trace);
    if ws != [] {
      var k := |ws| - 1;
      var before := After(env, s, ws[..k]);
      AfterKeeps(env, s, ws[..k]);
      TickGrows(env, before, ws[k]);
      GrowthAdds(s.ladder.trace, before.ladder.trace, After(env, s, ws).ladder.trace);
      if Good(env.ladder, s.ladder, []) {
        TickKeepsGood(env, before, ws[k]);
      }
    }
  }

  /** A kill attempted during some sweeps stays attempted. */
  lemma KillStaysAttempted(env: SentinelEnv, s: Watch, ws: seq<Sweep>, m: nat)
    requires m <= |ws| && KillAttempted(s.ladder.trace, After(env, s, ws[..m]).ladder.trace)
    ensures KillAttempted(s.ladder.trace, After(env, s, ws).ladder.trace)
  {
    hide Tick, Grows, KillAttempted, After;
    AfterSplit(env, s, ws, m);
    AfterKeeps(env, s, ws[..m]);
    AfterKeeps(env, After(env, s, ws[..m]), ws[m..]);
    GrowthAdds(s.ladder.trace, After(env, s, ws[..m]).ladder.trace, After(env, s, ws).ladder.trace);
  }

  lemma {:induction false} AfterSplit(env: SentinelEnv, s: Watch, ws: seq<Sweep>, m: nat)
    requires m <= |ws|
    ensures After(env, s, ws) == After(env, After(env, s, ws[..m]), ws[m..])
    decreases |ws|
  {
    hide Tick;
    if m == |ws| {
      assert ws[..m] == ws;
    } else {
      var k := |ws| - 1;
      AfterSplit(env, s, ws[..k], m);
      assert ws[..k][..m] == ws[..m] && ws[..k][m..] == ws[m..][..k - m];
    }
  }

  // --- what a sweep makes of its probes ----------------------------------------------

  /** A sweep files one record for each of its probes, in order. It goes past a message
      exactly when the probe said `fail`, may go that far, and said `fail` again when the
      sweep asked it again; a probe that crashes, at either look, never gets there. */
  lemma SweepEscalatesIff(env: SentinelEnv, s: Watch, w: Sweep, i: nat)
    requires !LateStart(env, s, w) && i < |env.probes|
    ensures var n, history := |s.ladder.history|, Tick(env, s, w).0.ladder.history;
            var p, overrides := env.probes[i], env.ladder.overrides;
            var own := if p in overrides then overrides[p] else DefaultLevel(p);
            && n + i < |history| && history[..n] == s.ladder.history
            && history[n + i].verdict.probe == p
            && (history[n + i].level > NOTIFY <==>
                  && w.first(i).Says? && w.first(i).status == Fail && own > NOTIFY
                  && w.again(p).Says? && w.again(p).status == Fail)
  {
    hide Batch, Handle, Shutdown;
    var l, rs, recheck := env.ladder, SweepReadings(env, w), Some(Repoll(env, w));
    var probed := ProbedLadder(env, s, w);
    assert rs[i].verdict == VerdictOf(env.probes[i], w.first(i));
    F.BatchEscalatesIff(l, s.ladder, rs, recheck, i);
    assert |rs| == |env.probes|;
    var dead := Reading(DEAD_MAN, w.lastLook);
    F.HandleEscalatesIff(l, probed, dead, None);
    F.ShutdownExactly(l, Handle(l, probed, dead, None), false, None);
    var handled, now := Handle(l, probed, dead, None).history, DeadManLadder(env, probed, w).history;
    assert handled[..|probed.history|] == probed.history && now[..|handled|] == handled;
    var k := |s.ladder.history| + i;
    assert now[k] == handled[k] == probed.history[k];
    assert now[..|s.ladder.history|] == probed.history[..|s.ladder.history|];
  }

  // --- why a watch ends --------------------------------------------------------------

  lemma AfterFirst(env: SentinelEnv, s: Watch, ws: seq<Sweep>, n: nat)
    requires 1 <= n <= |ws|
    ensures After(env, s, ws[..n]) == After(env, Tick(env, s, ws[0]).0, ws[1..][..n - 1])
  {
    hide Tick;
    AfterSplit(env, s, ws[..n], 1);
    assert ws[..n][..1] == [ws[0]] && ws[..n][1..] == ws[1..][..n - 1] && [ws[0]][..0] == [];
    assert After(env, s, [ws[0]]) == Tick(env, After(env, s, []), ws[0]).0;
  }

  /** The last sweep of a watch that ended on what that sweep brought. */
  predicate StopsOn(env: SentinelEnv, before: Watch, w: Sweep, stop: Stop) {
    var (next, outcome) := Tick(env, before, w);
    match stop
    case TickRaised => outcome.Crashed?
    case PodDown => outcome.Returned? && (outcome.value.terminated || next.ladder.terminated)
    case RunOver => RunIsOver(w)
    case OutOfScript | OutOfTicks => false
  }

  /** `v` took whole sweeps off the front of `ws`, and stopped on the last one if
      it stopped on what a sweep brought. */
  predicate Took(env: SentinelEnv, s: Watch, ws: seq<Sweep>, v: Vigil, taken: nat) {
    var n := v.taken - taken;
    && 0 <= n <= |ws| && v.state == After(env, s, ws[..n])
    && (v.stop == OutOfScript ==> n == |ws|)
    && (v.stop == PodDown || v.stop == RunOver || v.stop == TickRaised ==>
          n > 0 && StopsOn(env, After(env, s, ws[..n - 1]), ws[n - 1], v.stop))
  }

  lemma TookOne(env: SentinelEnv, s: Watch, ws: seq<Sweep>, v: Vigil, taken: nat)
    requires ws != [] && v.taken == taken + 1 && v.state == Tick(env, s, ws[0]).0
    requires StopsOn(env, s, ws[0], v.stop)
    ensures Took(env, s, ws, v, taken)
  {
    assert v.stop != OutOfScript;
    hide Tick, StopsOn;
    assert ws[..1] == [ws[0]] && ws[..0] == [] && [ws[0]][..0] == [];
    assert After(env, s, [ws[0]]) == Tick(env, After(env, s, []), ws[0]).0;
  }

  lemma TookMore(env: SentinelEnv, s: Watch, ws: seq<Sweep>, v: Vigil, taken: nat)
    requires ws != [] && Took(env, Tick(env, s, ws[0]).0, ws[1..], v, taken + 1)
    ensures Took(env, s, ws, v, taken)
  {
    var n := v.taken - taken;
    hide Tick, StopsOn, After;
    AfterFirst(env, s, ws, n);
    if n > 1 {
      AfterFirst(env, s, ws, n - 1);
      assert ws[1..][n - 2] == ws[n - 1];
    }
  }

  lemma TookNone(env: SentinelEnv, s: Watch, ws: seq<Sweep>, stop: Stop, taken: nat)
    requires stop == OutOfTicks || (stop == OutOfScript && ws == [])
    ensures Took(env, s, ws, Vigil(s, taken, stop), taken)
  {
    assert ws[..0] == [];
  }

  lemma {:induction false} KeepWatchIsAfter(env: SentinelEnv, s: Watch, ws: seq<Sweep>, max: Option<nat>, taken: nat)
    ensures Took(env, s, ws, KeepWatch(env, s, ws, max, taken), taken)
    decreases |ws|
  {
    hide Took, Tick, RunIsOver, After;
    if max.Some? && taken >= max.value {
      TookNone(env, s, ws, OutOfTicks, taken);
    } else if ws == [] {
      TookNone(env, s, ws, OutOfScript, taken);
    } else {
      var next, v := Tick(env, s, ws[0]).0, KeepWatch(env, s, ws, max, taken);
      if StopsOn(env, s, ws[0], TickRaised) || StopsOn(env, s, ws[0], PodDown) || StopsOn(env, s, ws[0], RunOver) {
        TookOne(env, s, ws, v, taken);
      } else {
        KeepWatchIsAfter(env, next, ws[1..], max, taken + 1);
        TookMore(env, s, ws, v, taken);
      }
    }
  }

  lemma {:induction false} TicksRunOut(env: SentinelEnv, s: Watch, ws: seq<Sweep>, max: Option<nat>, taken: nat)
    requires KeepWatch(env, s, ws, max, taken).stop == OutOfTicks
    requires max.Some? ==> taken <= max.value
    ensures max == Some(KeepWatch(env, s, ws, max, taken).taken)
    decreases |ws|
  {
    hide Tick, RunIsOver;
    if !(max.Some? && taken >= max.value) && ws != [] {
      TicksRunOut(env, Tick(env, s, ws[0]).0, ws[1..], max, taken + 1);
    }
  }

  /** A sweep that gives no reason to stop. */
  predicate GoesOn(env: SentinelEnv, before: Watch, w: Sweep) {
    && !StopsOn(env, before, w, TickRaised) && !StopsOn(env, before, w, PodDown) && !StopsOn(env, before, w, RunOver)
  }

  ghost predicate KeptGoing(env: SentinelEnv, s: Watch, ws: seq<Sweep>, m: int) {
    m <= |ws| && forall i: nat :: i < m ==> GoesOn(env, After(env, s, ws[..i]), ws[i])
  }

  lemma KeptGoingMore(env: SentinelEnv, s: Watch, ws: seq<Sweep>, m: int)
    requires ws != [] && GoesOn(env, s, ws[0]) && KeptGoing(env, Tick(env, s, ws[0]).0, ws[1..], m)
    ensures KeptGoing(env, s, ws, m + 1)
  {
    hide GoesOn, Tick;
    forall i: nat | i < m + 1 ensures GoesOn(env, After(env, s, ws[..i]), ws[i]) {
      if i == 0 {
        assert ws[..0] == [];
      } else {
        AfterFirst(env, s, ws, i);
        assert ws[1..][i - 1] == ws[i];
      }
    }
  }

  /** And it stops at once: no sweep before its last gave a reason to, and with a
      tick limit it never takes more sweeps than that. */
  lemma {:induction false} WatchStopsAtOnce(env: SentinelEnv, s: Watch, ws: seq<Sweep>, max: Option<nat>, taken: nat)
    requires max.Some? ==> taken <= max.value
    ensures var v := KeepWatch(env, s, ws, max, taken);
            && KeptGoing(env, s, ws, v.taken - taken - if v.stop == OutOfScript || v.stop == OutOfTicks then 0 else 1)
            && (max.Some? ==> v.taken <= max.value)
    decreases |ws|
  {
    hide Tick, RunIsOver, After, KeptGoing;
    if (max.Some? && taken >= max.value) || ws == [] || !GoesOn(env, s, ws[0]) {
      NothingYetToStop(env, s, ws);
    } else {
      var next, v := Tick(env, s, ws[0]).0, KeepWatch(env, s, ws, max, taken);
      WatchStopsAtOnce(env, next, ws[1..], max, taken + 1);
      KeptGoingMore(env, s, ws,
                    v.taken - taken - 1 - if v.stop == OutOfScript || v.stop == OutOfTicks then 0 else 1);
    }
  }

  /** In what the sweeps read: none before a watch's last reports a termination, leaves
      the pod known to be down, raises, or shows run and pod both over. */
  lemma NothingEndedItSooner(env: SentinelEnv, s: Watch, ws: seq<Sweep>, max: Option<nat>, i: nat)
    requires i + 1 < KeepWatch(env, s, ws, max, 0).taken
    ensures i < |ws| && !(ws[i].runEnded == Some(true) && ws[i].podRunning == Some(false))
    ensures var (next, outcome) := Tick(env, After(env, s, ws[..i]), ws[i]);
            outcome.Returned? && !outcome.value.terminated && !next.ladder.terminated
  {
    hide KeepWatch, After;
    WatchStopsAtOnce(env, s, ws, max, 0);
    assert GoesOn(env, After(env, s, ws[..i]), ws[i]);
    hide Tick;
  }

  /** A live pod is never left alone: a watch whose every sweep reads the pod as running,
      or cannot read it, is not ended by the run being over, whatever W&B says. */
  lemma LivePodIsWatched(env: SentinelEnv, s: Watch, ws: seq<Sweep>, max: Option<nat>)
    requires Good(env.ladder, s.ladder, []) && !s.ladder.terminated
    requires forall i :: 0 <= i < |ws| ==> ws[i].podRunning != Some(false)
    ensures var v := KeepWatch(env, s, ws, max, 0);
            match v.stop
            case OutOfScript => v.taken == |ws|
            case OutOfTicks => max == Some(v.taken)
            case RunOver => false
            case PodDown => KillAttempted(s.ladder.trace, v.state.ladder.trace)
            case TickRaised => 0 < v.taken <= |ws| && StartupPoll(env, ws[v.taken - 1]) == NoAnswer
  {
    hide KeepWatch, After, Good, StartupPoll, KillAttempted;
    WatchEndsForAReason(env, s, ws, max);
  }

  lemma NothingYetToStop(env: SentinelEnv, s: Watch, ws: seq<Sweep>)
    ensures KeptGoing(env, s, ws, 0)
  {
  }

  /** Sweep `i` came back. */
  predicate Completes(env: SentinelEnv, s: Watch, ws: seq<Sweep>, i: nat)
    requires i < |ws|
  {
    Tick(env, After(env, s, ws[..i]), ws[i]).1.Returned?
  }

  /** How many of its sweeps came back to a watch: all, or all but the last. */
  function CompletedBy(v: Vigil): int {
    if v.stop == TickRaised then v.taken - 1 else v.taken
  }

  ghost predicate AllComplete(env: SentinelEnv, s: Watch, ws: seq<Sweep>, m: int) {
    m <= |ws| && forall i: nat :: i < m ==> Completes(env, s, ws, i)
  }

  lemma AllCompleteMore(env: SentinelEnv, s: Watch, ws: seq<Sweep>, m: int)
    requires ws != [] && Tick(env, s, ws[0]).1.Returned?
    requires m >= 0 && AllComplete(env, Tick(env, s, ws[0]).0, ws[1..], m)
    ensures AllComplete(env, s, ws, m + 1)
  {
    hide Tick;
    forall i: nat | i < m + 1 ensures Completes(env, s, ws, i) {
      if i == 0 {
        assert ws[..0] == [];
      } else {
        AfterFirst(env, s, ws, i);
        assert Completes(env, Tick(env, s, ws[0]).0, ws[1..], i - 1);
      }
    }
  }

  /** Only the last sweep of a watch can have raised, and then it is why it ended. */
  lemma {:induction false} SweepsComplete(env: SentinelEnv, s: Watch, ws: seq<Sweep>, max: Option<nat>, taken: nat)
    ensures var v := KeepWatch(env, s, ws, max, taken);
            CompletedBy(v) >= taken && AllComplete(env, s, ws, CompletedBy(v) - taken)
    decreases |ws|
  {
    hide Tick, RunIsOver, After, AllComplete;
    NothingToComplete(env, s, ws);
    if !(max.Some? && taken >= max.value) && ws != [] && Tick(env, s, ws[0]).1.Returned? {
      var next, v := Tick(env, s, ws[0]).0, KeepWatch(env, s, ws, max, taken);
      NothingToComplete(env, next, ws[1..]);
      AllCompleteMore(env, s, ws, 0);
      if GoesOn(env, s, ws[0]) {
        SweepsComplete(env, next, ws[1..], max, taken + 1);
        AllCompleteMore(env, s, ws, CompletedBy(v) - taken - 1);
      }
    }
  }

  lemma NothingToComplete(env: SentinelEnv, s: Watch, ws: seq<Sweep>)
    ensures AllComplete(env, s, ws, 0)
  {
  }

  lemma RaisingIsAnEmptyRepoll(env: SentinelEnv, before: Watch, w: Sweep)
    requires StopsOn(env, before, w, TickRaised)
    ensures LateStart(env, before, w) && StartupPoll(env, w) == NoAnswer
  {
    hide Handle, Shutdown, Batch;
  }

  /** A watch is always a run of whole sweeps, and it ends because it ran out of
      ticks, because `_terminate` was called, because the run reads terminal and
      the pod not running, or because the startup re-poll had no verdict to give. */
  lemma WatchEndsForAReason(env: SentinelEnv, s: Watch, ws: seq<Sweep>, max: Option<nat>)
    requires Good(env.ladder, s.ladder, []) && !s.ladder.terminated
    ensures var v := KeepWatch(env, s, ws, max, 0);
            var n := v.taken;
            && n <= |ws| && v.state == After(env, s, ws[..n])
            && match v.stop
               case OutOfScript => n == |ws|
               case OutOfTicks => max == Some(n)
               case RunOver => n > 0 && ws[n - 1].runEnded == Some(true) && ws[n - 1].podRunning == Some(false)
               case PodDown => n > 0 && KillAttempted(s.ladder.trace, v.state.ladder.trace)
               case TickRaised => n > 0 && LateStart(env, After(env, s, ws[..n - 1]), ws[n - 1])
                                  && StartupPoll(env, ws[n - 1]) == NoAnswer
  {
    KeepWatchIsAfter(env, s, ws, max, 0);
    var v := KeepWatch(env, s, ws, max, 0);
    var n := v.taken;
    hide KeepWatch, Good, After, LateStart, StartupPoll, KillAttempted;
    match v.stop {
      case OutOfScript =>
      case OutOfTicks => TicksRunOut(env, s, ws, max, 0);
      case RunOver =>
      case TickRaised =>
        RaisingIsAnEmptyRepoll(env, After(env, s, ws[..n - 1]), ws[n - 1]);
      case PodDown =>
        assert ws[..n][..n - 1] == ws[..n - 1];
        PodDownMeansKilled(env, s, ws[..n]);
    }
  }

  /** The same, as what a watch with no tick limit has to show for itself. */
  lemma WatchAdvances(env: SentinelEnv, s: Watch, ws: seq<Sweep>)
    requires Good(env.ladder, s.ladder, []) && !s.ladder.terminated
    ensures var v := KeepWatch(env, s, ws, None, 0);
            && 0 <= CompletedBy(v) <= v.taken <= |ws| && v.stop != OutOfTicks
            && (forall i: nat :: i < CompletedBy(v) ==> Completes(env, s, ws, i))
            && (v.stop == OutOfScript ==> CompletedBy(v) == |ws|)
            && (v.stop == PodDown ==> CompletedBy(v) == v.taken > 0
                                      && KillAttempted(s.ladder.trace, After(env, s, ws[..v.taken]).ladder.trace))
  {
    hide KeepWatch, After, Good, KillAttempted, Completes, LateStart, StartupPoll, RunIsOver;
    WatchEndsForAReason(env, s, ws, None);
    SweepsComplete(env, s, ws, None, 0);
  }

  lemma PodDownMeansKilled(env: SentinelEnv, s: Watch, ws: seq<Sweep>)
    requires Good(env.ladder, s.ladder, []) && !s.ladder.terminated && ws != []
    requires StopsOn(env, After(env, s, ws[..|ws| - 1]), ws[|ws| - 1], PodDown)
    ensures KillAttempted(s.ladder.trace, After(env, s, ws).ladder.trace)
  {
    var k := |ws| - 1;
    var before, now := After(env, s, ws[..k]), After(env, s, ws);
    hide Good, Tick, After, Grows;
    AfterKeeps(env, s, ws[..k]);
    AfterKeeps(env, s, ws);
    TickGrows(env, before, ws[k]);
    GrowthAdds(s.ladder.trace, before.ladder.trace, now.ladder.trace);
    if now.ladder.terminated {
      GoodIsLatched(env.ladder, s.ladder);
      GoodIsLatched(env.ladder, now.ladder);
      hide KillAttempted;
      LandingIsNew(s.ladder.trace, now.ladder.trace);
    }
  }

  lemma LandingIsNew(before: seq<Event>, now: seq<Event>)
    requires Grows(before, now)
    requires !exists k :: 0 <= k < |before| && Landed(before[k].effect)
    requires exists k :: 0 <= k < |now| && Landed(now[k].effect)
    ensures KillAttempted(before, now)
  {
    var k :| 0 <= k < |now| && Landed(now[k].effect);
    assert forall i :: 0 <= i < |before| ==> before[i] == now[..|before|][i];
    assert IsKill(now[k].effect);
  }

  lemma GoodIsLatched(env: Env, s: State)
    requires Good(env, s, [])
    ensures s.terminated <==> exists k :: 0 <= k < |s.trace| && Landed(s.trace[k].effect)
  {
    assert Latched(s);
    hide ActsExactly, Backed, Remembers, TracksBlindness, PromotesExactly;
  }

  /** A sweep is a late start exactly when it looks past the deadline and no sign of a
      start was seen by then: `startup_ok`, a step or a timestamp, any of them will do.
      It leaves the latch set exactly when such a sign had been seen, shows at its first
      look, or shows at the re-poll that a late start makes when its verdict may go past
      L1; and it raises exactly when that re-poll has no verdict left to give. */
  lemma LatchIsSetExactly(env: SentinelEnv, s: Watch, w: Sweep)
    ensures var at, now := w.firstSummary, w.secondSummary;
            var shown := at.Summary? && (at.startupOk || at.logged);
            var shownNow := now.Summary? && (now.startupOk || now.logged);
            var deadline := env.podCreatedAt + env.cfg.startup.deadline;
            var late := !s.startupSeen && !shown && w.firstLook > deadline;
            var overrides := env.ladder.overrides;
            var asked := (if StartupDeadline in overrides then overrides[StartupDeadline] else SNAPSHOT) > NOTIFY;
            && (LateStart(env, s, w) <==> late)
            && (Tick(env, s, w).0.startupSeen <==> s.startupSeen || shown || (late && asked && shownNow))
            && (Tick(env, s, w).1.Crashed? <==> late && asked && (shownNow || w.secondLook <= deadline))
  {
    hide Handle, Batch, Shutdown;
  }

  /** Once the run is known to have started it stays known, and no later sweep
      takes the startup-deadline shutdown. */
  lemma {:induction false} StartupLatchHolds(env: SentinelEnv, s: Watch, ws: seq<Sweep>, w: Sweep)
    requires s.startupSeen
    ensures After(env, s, ws).startupSeen
    ensures !LateStart(env, After(env, s, ws), w)
    ensures Tick(env, After(env, s, ws), w).1.Returned?
  {
    if ws != [] {
      StartupLatchHolds(env, s, ws[..|ws| - 1], ws[|ws| - 1]);
    }
  }
}
