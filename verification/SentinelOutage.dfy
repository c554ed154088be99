/** What an outage of W&B can and cannot do to the pod. */
module SentinelOutage {
  import opened Verdicts
  import opened Config
  import opened Ladder
  import opened LadderInvariant
  import opened LadderRuns
  import opened Sentinel
  import opened SentinelRuns
  import opened SentinelBounds
  import opened SentinelLatency
  import opened SentinelMoney
  import Probes

  // --- sweeps that only send messages -----------------------------------------------------------

  /** Nothing past a message happened between the two traces. */
  ghost predicate OnlyMessages(before: seq<Event>, now: seq<Event>) {
    && Grows(before, now)
    && forall k :: |before| <= k < |now| ==> !PastNotify(now[k].effect)
  }

  lemma {:induction false} MildDecisions(env: Env, m: Memory, rs: seq<Reading>)
    requires forall i :: 0 <= i < |rs| ==> TargetLevel(env.overrides, rs[i].verdict) <= NOTIFY
    ensures forall i :: 0 <= i < |rs| ==> DecideAll(env, m, rs)[i].target <= NOTIFY
    decreases |rs|
  {
    if rs != [] {
      MildDecisions(env, DecideMemory(m, rs[0]), rs[1..]);
    }
  }

  lemma MildFinish(env: Env, s: State, v: Verdict, target: Level)
    requires target <= NOTIFY
    ensures OnlyMessages(s.trace, Finish(env, s, v, target, false).trace)
  {
    EffectsAreVisible(env, |s.history|, v, target);
    hide ExecuteEffects, PastNotify;
    var added := Stamp(|s.history|, ExecuteEffects(env, |s.history|, v, target));
    Appending(s.trace, added);
  }

  lemma {:induction false} MildSettling(env: Env, s: State, ds: seq<Decision>, recheck: Option<Verdict -> Poll>)
    requires forall i :: 0 <= i < |ds| ==> ds[i].target <= NOTIFY
    ensures OnlyMessages(s.trace, SettleAll(env, s, ds, recheck).trace)
    decreases |ds|
  {
    hide Finish, OnlyMessages;
    if ds == [] {
      NothingButMessages(s.trace);
    } else {
      var next := Settle(env, s, ds[0], false);
      MildFinish(env, s, ds[0].promoted, ds[0].target);
      MildSettling(env, next, ds[1..], recheck);
      MessagesAdd(s.trace, next.trace, SettleAll(env, next, ds[1..], recheck).trace);
    }
  }

  lemma NothingButMessages(t: seq<Event>)
    ensures OnlyMessages(t, t)
  {
  }

  lemma MildBatch(env: Env, s: State, rs: seq<Reading>, recheck: Option<Verdict -> Poll>)
    requires forall i :: 0 <= i < |rs| ==> TargetLevel(env.overrides, rs[i].verdict) <= NOTIFY
    ensures OnlyMessages(s.trace, Batch(env, s, rs, recheck).trace)
  {
    MildDecisions(env, s.memory, rs);
    hide DecideAll, DecideAllMemory, SettleAll, PastNotify;
    var ds, n := DecideAll(env, s.memory, rs), |s.history|;
    assert BatchConfirmEvents(env, n, ds, recheck) == [];
    var polled := s.(memory := DecideAllMemory(s.memory, rs),
                     trace := s.trace + ReceiveAll(n, rs) + BatchConfirmEvents(env, n, ds, recheck));
    MildSettling(env, polled, ds, recheck);
    var now := SettleAll(env, polled, ds, recheck).trace;
    assert polled.trace == s.trace + ReceiveAll(n, rs);
    forall k | |s.trace| <= k < |now| ensures !PastNotify(now[k].effect) {
      if k < |polled.trace| {
        assert now[k] == now[..|polled.trace|][k] == ReceiveAll(n, rs)[k - |s.trace|];
        ReceivingIsMild(n, rs, k - |s.trace|);
      }
    }
    assert now[..|s.trace|] == now[..|polled.trace|][..|s.trace|];
  }

  lemma ReceivingIsMild(n: nat, rs: seq<Reading>, i: nat)
    requires i < |rs|
    ensures !PastNotify(ReceiveAll(n, rs)[i].effect)
  {
  }

  /** The sweep's answers are those of the probes, looking at `views`. Probes not
      modelled here are taken to be blind without W&B: they do not say `fail`. */
  ghost predicate SweptBlind(env: SentinelEnv, w: Sweep, views: nat -> Probes.View) {
    forall i: nat :: i < |env.probes| ==>
      && views(i).run.None?
      && Probes.CapsUnreached(env.cfg.budget, views(i))
      && match Probes.StatusOf(env.cfg.budget, env.probes[i], views(i))
         case Some(status) => w.first(i).Says? ==> w.first(i).status == status
         case None => w.first(i).Says? ==> w.first(i).status != Fail
  }

  lemma BlindSweepIsMild(env: SentinelEnv, w: Sweep, views: nat -> Probes.View)
    requires SweptBlind(env, w, views) && PodStatus !in env.ladder.overrides
    ensures forall i :: 0 <= i < |env.probes| ==>
              TargetLevel(env.ladder.overrides, SweepReadings(env, w)[i].verdict) <= NOTIFY
  {
    forall i: nat | i < |env.probes|
      ensures TargetLevel(env.ladder.overrides, VerdictOf(env.probes[i], w.first(i))) <= NOTIFY
    {
      Probes.OutageSilencesProbes(env.cfg.budget, env.probes[i], views(i));
    }
  }

  /** A W&B outage alone never kills. With the startup latch set, RunPod answering
      every sweep and both caps unreached, any length of W&B failure leads to log
      lines and messages only, and no sweep reports the pod terminated. */
  lemma {:induction false} OutageNeverKills(
    env: SentinelEnv, s: Watch, ws: seq<Sweep>, views: seq<nat -> Probes.View>)
    requires s.startupSeen && PodStatus !in env.ladder.overrides && |views| == |ws|
    requires forall k :: 0 <= k < |ws| ==> ws[k].podAnswers && SweptBlind(env, ws[k], views[k])
    ensures OnlyMessages(s.ladder.trace, After(env, s, ws).ladder.trace)
    ensures forall n: nat :: n < |ws| ==>
              var outcome := Tick(env, After(env, s, ws[..n]), ws[n]).1;
              outcome.Returned? && !outcome.value.terminated
  {
    hide Tick, SweptBlind, OnlyMessages, LateStart, Batch, TargetLevel, SweepReadings, Repoll;
    NothingButMessages(s.ladder.trace);
    if ws != [] {
      var k := |ws| - 1;
      OutageNeverKills(env, s, ws[..k], views[..k]);
      var before := After(env, s, ws[..k]);
      StartupLatchHolds(env, s, ws[..k], ws[k]);
      BlindSweepIsMild(env, ws[k], views[k]);
      assert |SweepReadings(env, ws[k])| == |env.probes| by { CountReadings(env, ws[k]); }
      MildBatch(env.ladder, before.ladder, SweepReadings(env, ws[k]), Some(Repoll(env, ws[k])));
      FullTickIsBatch(env, before, ws[k]);
      MessagesAdd(s.ladder.trace, before.ladder.trace, After(env, s, ws).ladder.trace);
      forall n: nat | n < |ws|
        ensures var outcome := Tick(env, After(env, s, ws[..n]), ws[n]).1;
                outcome.Returned? && !outcome.value.terminated
      {
        if n < k {
          assert ws[..k][..n] == ws[..n] && ws[..k][n] == ws[n];
        }
      }
    }
  }

  /** Nor does it end the watch, which cannot read the run as over: it takes every
      sweep there is, or as many as its tick limit allows. */
  lemma OutageKeepsWatching(
    env: SentinelEnv, s: Watch, ws: seq<Sweep>, views: seq<nat -> Probes.View>, max: Option<nat>)
    requires Good(env.ladder, s.ladder, []) && !s.ladder.terminated
    requires s.startupSeen && PodStatus !in env.ladder.overrides && |views| == |ws|
    requires forall k :: 0 <= k < |ws| ==> ws[k].podAnswers && ws[k].runEnded.None? && SweptBlind(env, ws[k], views[k])
    ensures var v := KeepWatch(env, s, ws, max, 0);
            && v.taken == (if max.Some? && max.value < |ws| then max.value else |ws|)
            && (v.stop == OutOfTicks <==> max.Some? && max.value <= |ws|)
            && (v.stop == OutOfScript <==> max.None? || max.value > |ws|)
  {
    hide KeepWatch, Tick, SweptBlind, Good, After, KeptGoing, OnlyMessages, KillAttempted, LateStart, StartupPoll;
    var v := KeepWatch(env, s, ws, max, 0);
    var n := v.taken;
    WatchEndsForAReason(env, s, ws, max);
    WatchStopsAtOnce(env, s, ws, max, 0);
    if v.stop == PodDown {
      OutageNeverKills(env, s, ws[..n], views[..n]);
      MessagesAreNoKill(s.ladder.trace, After(env, s, ws[..n]).ladder.trace);
    } else if v.stop == TickRaised {
      StartupLatchHolds(env, s, ws[..n - 1], ws[n - 1]);
    } else if v.stop == OutOfScript {
      OutOfScriptMeansMore(env, s, ws, max, 0);
    }
  }

  lemma {:induction false} OutOfScriptMeansMore(
    env: SentinelEnv, s: Watch, ws: seq<Sweep>, max: Option<nat>, taken: nat)
    requires KeepWatch(env, s, ws, max, taken).stop == OutOfScript
    ensures max.Some? ==> KeepWatch(env, s, ws, max, taken).taken < max.value
    decreases |ws|
  {
    hide Tick, RunIsOver;
    if ws != [] {
      OutOfScriptMeansMore(env, Tick(env, s, ws[0]).0, ws[1..], max, taken + 1);
    }
  }

  lemma CountReadings(env: SentinelEnv, w: Sweep)
    ensures |SweepReadings(env, w)| == |env.probes|
  {
  }

  lemma FullTickIsBatch(env: SentinelEnv, s: Watch, w: Sweep)
    requires !LateStart(env, s, w) && w.podAnswers
    ensures Tick(env, s, w).0.ladder == ProbedLadder(env, s, w)
    ensures Tick(env, s, w).1.Returned? && !Tick(env, s, w).1.value.terminated
  {
    hide Batch, Handle, Shutdown;
  }

  lemma MessagesAdd(a: seq<Event>, b: seq<Event>, c: seq<Event>)
    requires OnlyMessages(a, b) && OnlyMessages(b, c)
    ensures OnlyMessages(a, c)
  {
    GrowthAdds(a, b, c);
    assert forall k :: 0 <= k < |b| ==> c[k] == c[..|b|][k];
  }

  // --- every way an outage can end in a kill ----------------------------------------------------

  lemma MessagesAreNoKill(a: seq<Event>, b: seq<Event>)
    requires OnlyMessages(a, b)
    ensures !KillAttempted(a, b)
  {
  }

  /** W&B shows nothing at either look, and the clock does not run backwards. */
  predicate SummaryLost(w: Sweep) {
    w.firstSummary == NoSummary && w.secondSummary == NoSummary && w.firstLook <= w.secondLook
  }

  predicate PastDeadline(env: SentinelEnv, w: Sweep) {
    w.firstLook - env.podCreatedAt > env.cfg.startup.deadline
  }

  /** What the probes see in one sweep: `first(i)` is the look of probe number i,
      `again(probe)` that of its re-poll. */
  datatype Looks = Looks(first: nat -> Probes.View, again: Probe -> Probes.View)

  /** The sweep's answers are those of the probes without W&B; RunPod may or may not
      be there. Probes not modelled here do not say `fail` without W&B. */
  ghost predicate SweptDark(env: SentinelEnv, w: Sweep, looks: Looks) {
    && (forall i: nat :: i < |env.probes| ==> DarkAnswer(env.cfg.budget, env.probes[i], w.first(i), looks.first(i)))
    && (forall cap :: IsCap(cap) ==> DarkAnswer(env.cfg.budget, cap, w.again(cap), looks.again(cap)))
  }

  predicate DarkAnswer(b: Budget, probe: Probe, answer: Answer, view: Probes.View) {
    && view.run.None?
    && (answer.Says? ==>
          match Probes.StatusOf(b, probe, view)
          case Some(status) => answer.status == status
          case None => answer.status != Fail)
  }

  /** One look, answered, that reads the cap as reached. */
  predicate ReadsCap(b: Budget, cap: Probe, answer: Answer, view: Probes.View) {
    answer.Says? && Probes.BilledHours(view).Some? && CapReached(b, cap, Probes.BilledHours(view).value)
  }

  /** Both looks of a cap's probe read it as reached. */
  predicate CapTwice(env: SentinelEnv, w: Sweep, looks: Looks, i: nat)
    requires i < |env.probes|
  {
    var cap := env.probes[i];
    && IsCap(cap)
    && ReadsCap(env.cfg.budget, cap, w.first(i), looks.first(i))
    && ReadsCap(env.cfg.budget, cap, w.again(cap), looks.again(cap))
  }

  predicate SomeCapTwice(env: SentinelEnv, w: Sweep, looks: Looks) {
    exists i: nat :: i < |env.probes| && CapTwice(env, w, looks, i)
  }

  predicate DefaultLevels(env: Env) {
    PodStatus !in env.overrides && Spend !in env.overrides && WallClock !in env.overrides
  }

  lemma DarkFailIsACap(b: Budget, probe: Probe, answer: Answer, view: Probes.View)
    requires DarkAnswer(b, probe, answer, view)
    ensures answer.Says? && answer.status == Fail && probe != PodStatus ==> IsCap(probe)
    ensures IsCap(probe) ==> (answer.Says? && answer.status == Fail <==> ReadsCap(b, probe, answer, view))
  {
  }

  // --- which sweeps' verdicts kill -----------------------------------------------------------------

  lemma {:induction false} DecidedByStatus(env: Env, m: Memory, rs: seq<Reading>, i: nat)
    requires i < |rs|
    ensures var d := DecideAll(env, m, rs)[i];
            if rs[i].verdict.status == Fail then d == Decision(rs[i].verdict, TargetLevel(env.overrides, rs[i].verdict))
            else d.target <= NOTIFY
    decreases |rs|
  {
    hide DecideMemory;
    if i > 0 {
      DecidedByStatus(env, DecideMemory(m, rs[0]), rs[1..], i - 1);
    }
  }

  /** A message, or everything at once. */
  predicate AllOrNothing(d: Decision) {
    d.target <= NOTIFY || d.target == TERMINATE
  }

  predicate KillsFor(d: Decision, recheck: Option<Verdict -> Poll>) {
    d.target == TERMINATE && Confirms(d, recheck)
  }

  lemma SettlingKillsIff(env: Env, s: State, d: Decision, recheck: Option<Verdict -> Poll>)
    requires AllOrNothing(d)
    ensures KillAttempted(s.trace, Settle(env, s, d, Confirms(d, recheck)).trace) <==> KillsFor(d, recheck)
  {
    if KillsFor(d, recheck) {
      TerminateIsAttempted(env, s, d.promoted);
    } else {
      var v := if d.target > NOTIFY then Downgrade(d.promoted) else d.promoted;
      var target := if d.target > NOTIFY then NOTIFY else d.target;
      MildFinish(env, s, v, target);
      assert Confirms(d, recheck) ==> d.target > NOTIFY;
      hide Finish, OnlyMessages, KillAttempted, Confirms;
      MessagesAreNoKill(s.trace, Finish(env, s, v, target, false).trace);
    }
  }

  lemma {:induction false} SettlingAllKillsIff(
    env: Env, s: State, ds: seq<Decision>, recheck: Option<Verdict -> Poll>)
    requires forall i :: 0 <= i < |ds| ==> AllOrNothing(ds[i])
    ensures KillAttempted(s.trace, SettleAll(env, s, ds, recheck).trace) <==>
              exists i :: 0 <= i < |ds| && KillsFor(ds[i], recheck)
    decreases |ds|
  {
    hide Settle, KillAttempted, Grows, KillsFor, Confirms, AllOrNothing;
    if ds == [] {
      NothingYet(s.trace);
    } else {
      var c := Confirms(ds[0], recheck);
      var next := Settle(env, s, ds[0], c);
      SettlingKillsIff(env, s, ds[0], recheck);
      SettleGrows(env, s, ds[0], c);
      SettleAllGrows(env, next, ds[1..], recheck);
      SettlingAllKillsIff(env, next, ds[1..], recheck);
      GrowthAdds(s.trace, next.trace, SettleAll(env, next, ds[1..], recheck).trace);
      FirstOrLater(ds, recheck);
    }
  }

  lemma FirstOrLater(ds: seq<Decision>, recheck: Option<Verdict -> Poll>)
    requires ds != []
    ensures (exists i :: 0 <= i < |ds| && KillsFor(ds[i], recheck)) <==>
              KillsFor(ds[0], recheck) || exists i :: 0 <= i < |ds[1..]| && KillsFor(ds[1..][i], recheck)
  {
    hide KillsFor;
    if i :| 0 <= i < |ds| && KillsFor(ds[i], recheck) {
      assert i > 0 ==> ds[1..][i - 1] == ds[i];
    }
    if i :| 0 <= i < |ds[1..]| && KillsFor(ds[1..][i], recheck) {
      assert ds[i + 1] == ds[1..][i];
    }
  }

  lemma BatchKillsIff(
    env: Env, s: State, rs: seq<Reading>, ds: seq<Decision>, recheck: Option<Verdict -> Poll>)
    requires ds == DecideAll(env, s.memory, rs) && forall i :: 0 <= i < |ds| ==> AllOrNothing(ds[i])
    ensures KillAttempted(s.trace, Batch(env, s, rs, recheck).trace) <==>
              exists i :: 0 <= i < |ds| && KillsFor(ds[i], recheck)
  {
    hide DecideAll, DecideAllMemory, SettleAll, KillsFor, AllOrNothing, KillAttempted, Grows;
    hide BatchConfirmEvents, ReceiveAll;
    var n := |s.history|;
    var added := ReceiveAll(n, rs) + BatchConfirmEvents(env, n, ds, recheck);
    var polled := s.(memory := DecideAllMemory(s.memory, rs), trace := s.trace + added);
    assert s.trace + ReceiveAll(n, rs) + BatchConfirmEvents(env, n, ds, recheck) == s.trace + added;
    Appending(s.trace, added);
    AskingIsNoKill(env, s.trace, n, rs, ds, recheck);
    SettlingAllKillsIff(env, polled, ds, recheck);
    SettleAllGrows(env, polled, ds, recheck);
    GrowthAdds(s.trace, polled.trace, SettleAll(env, polled, ds, recheck).trace);
    assert Batch(env, s, rs, recheck) == SettleAll(env, polled, ds, recheck);
  }

  lemma AskingIsNoKill(
    env: Env, t: seq<Event>, n: nat, rs: seq<Reading>, ds: seq<Decision>, recheck: Option<Verdict -> Poll>)
    ensures !KillAttempted(t, t + (ReceiveAll(n, rs) + BatchConfirmEvents(env, n, ds, recheck)))
  {
    if recheck.Some? {
      RepollsAreQuiet(n, ds, recheck.value);
    }
    hide RepollAll, NeedsConfirmation;
    var asked := BatchConfirmEvents(env, n, ds, recheck);
    assert forall i :: 0 <= i < |asked| ==> !IsKill(asked[i].effect);
  }

  /** Without W&B, a sweep's verdicts end in a kill exactly when both looks of a
      cap's probe read its cap as reached. */
  lemma DarkSweepKillsIff(env: SentinelEnv, s: Watch, w: Sweep, looks: Looks)
    requires SweptDark(env, w, looks) && DefaultLevels(env.ladder)
    ensures KillAttempted(s.ladder.trace, ProbedLadder(env, s, w).trace) <==> SomeCapTwice(env, w, looks)
  {
    var rs, recheck := SweepReadings(env, w), Some(Repoll(env, w));
    var ds := DecideAll(env.ladder, s.ladder.memory, rs);
    CountReadings(env, w);
    forall i: nat | i < |rs|
      ensures AllOrNothing(ds[i]) && (KillsFor(ds[i], recheck) <==> CapTwice(env, w, looks, i))
    {
      DecidedByStatus(env.ladder, s.ladder.memory, rs, i);
      hide DecideAll, ReadsCap;
      DarkDecision(env, w, looks, i, ds[i]);
    }
    hide DecideAll, Batch, SweptDark, CapTwice, KillsFor, AllOrNothing, KillAttempted, SweepReadings, Repoll;
    BatchKillsIff(env.ladder, s.ladder, rs, ds, recheck);
    if i :| 0 <= i < |rs| && KillsFor(ds[i], recheck) {
      assert CapTwice(env, w, looks, i);
    }
    if i: nat :| i < |env.probes| && CapTwice(env, w, looks, i) {
      assert KillsFor(ds[i], recheck);
    }
  }

  lemma DarkDecision(env: SentinelEnv, w: Sweep, looks: Looks, i: nat, d: Decision)
    requires SweptDark(env, w, looks) && DefaultLevels(env.ladder) && i < |env.probes|
    requires var v := VerdictOf(env.probes[i], w.first(i));
             if v.status == Fail then d == Decision(v, TargetLevel(env.ladder.overrides, v)) else d.target <= NOTIFY
    ensures AllOrNothing(d) && (KillsFor(d, Some(Repoll(env, w))) <==> CapTwice(env, w, looks, i))
  {
    var probe := env.probes[i];
    DarkFailIsACap(env.cfg.budget, probe, w.first(i), looks.first(i));
    hide Probes.StatusOf, ReadsCap;
    if IsCap(probe) {
      DarkFailIsACap(env.cfg.budget, probe, w.again(probe), looks.again(probe));
    }
    hide DarkAnswer;
  }

  // --- the whole sweep, and the whole outage -----------------------------------------------------------

  /** Every reason for which a sweep without W&B attempts a kill: startup looks late,
      nothing has answered for the timeout, or a cap reads as reached twice. */
  predicate KillsInTheDark(env: SentinelEnv, before: Watch, w: Sweep, looks: Looks) {
    || (!before.startupSeen && PastDeadline(env, w))
    || DeadManDue(env, before, w)
    || SomeCapTwice(env, w, looks)
  }

  lemma DarkTick(env: SentinelEnv, s: Watch, w: Sweep, looks: Looks)
    requires SummaryLost(w) && SweptDark(env, w, looks) && DefaultLevels(env.ladder)
    ensures var next := Tick(env, s, w).0;
            && next.startupSeen == s.startupSeen
            && Grows(s.ladder.trace, next.ladder.trace)
            && (KillAttempted(s.ladder.trace, next.ladder.trace) <==> KillsInTheDark(env, s, w, looks))
  {
    TickGrows(env, s, w);
    DarkSweepKillsIff(env, s, w, looks);
    hide Handle, Batch, Shutdown, Grows, KillAttempted, SweptDark, SomeCapTwice;
    if LateStart(env, s, w) {
      LateStartKillsOrRaises(env, s, w);
    } else if SomeCapTwice(env, w, looks) {
      ProbedKillStands(env, s, w);
    }
  }

  /** "Blindness never kills" has exceptions, and these are all of them. Over any
      outage of W&B, whatever RunPod does, a kill is attempted if and only if in some
      sweep the run was not known to have started and the startup deadline was past,
      or nothing had answered for the dead man's timeout, or a cap read as reached
      twice, be it only on the monitor's own clock. */
  lemma {:induction false} OutageKillsExactly(
    env: SentinelEnv, s: Watch, ws: seq<Sweep>, looks: seq<Looks>)
    requires DefaultLevels(env.ladder) && |looks| == |ws|
    requires forall k :: 0 <= k < |ws| ==> SummaryLost(ws[k]) && SweptDark(env, ws[k], looks[k])
    ensures After(env, s, ws).startupSeen == s.startupSeen
    ensures KillAttempted(s.ladder.trace, After(env, s, ws).ladder.trace) <==>
              exists k: nat :: KillsInTheDarkAt(env, s, ws, looks, k)
  {
    hide Tick, Grows, KillAttempted, SweptDark, SummaryLost, KillsInTheDark, KillsInTheDarkAt, Good, DefaultLevels;
    if ws == [] {
      NothingYet(s.ladder.trace);
      NowhereInTheDark(env, s, looks);
    } else {
      var k := |ws| - 1;
      var before := After(env, s, ws[..k]);
      OutageKillsExactly(env, s, ws[..k], looks[..k]);
      AfterKeeps(env, s, ws[..k]);
      DarkTick(env, before, ws[k], looks[k]);
      GrowthAdds(s.ladder.trace, before.ladder.trace, After(env, s, ws).ladder.trace);
      SomewhereInTheDark(env, s, ws, looks);
    }
  }

  lemma SomewhereInTheDark(env: SentinelEnv, s: Watch, ws: seq<Sweep>, looks: seq<Looks>)
    requires ws != [] && |looks| == |ws|
    ensures var k := |ws| - 1;
            (exists i: nat :: KillsInTheDarkAt(env, s, ws, looks, i)) <==>
              (exists i: nat :: KillsInTheDarkAt(env, s, ws[..k], looks[..k], i))
              || KillsInTheDark(env, After(env, s, ws[..k]), ws[k], looks[k])
  {
    hide After, KillsInTheDark, KillsInTheDarkAt;
    var k := |ws| - 1;
    EarlierOrLast(env, s, ws, looks, k);
    if i: nat :| KillsInTheDarkAt(env, s, ws, looks, i) {
      EarlierOrLast(env, s, ws, looks, i);
    }
    if i: nat :| KillsInTheDarkAt(env, s, ws[..k], looks[..k], i) {
      EarlierOrLast(env, s, ws, looks, i);
    }
  }

  predicate KillsInTheDarkAt(env: SentinelEnv, s: Watch, ws: seq<Sweep>, looks: seq<Looks>, k: nat) {
    k < |ws| == |looks| && KillsInTheDark(env, After(env, s, ws[..k]), ws[k], looks[k])
  }

  lemma NowhereInTheDark(env: SentinelEnv, s: Watch, looks: seq<Looks>)
    ensures forall k: nat :: !KillsInTheDarkAt(env, s, [], looks, k)
  {
  }

  lemma EarlierOrLast(env: SentinelEnv, s: Watch, ws: seq<Sweep>, looks: seq<Looks>, i: nat)
    requires ws != [] && |looks| == |ws|
    ensures var k := |ws| - 1;
            KillsInTheDarkAt(env, s, ws, looks, i) <==>
              KillsInTheDarkAt(env, s, ws[..k], looks[..k], i)
              || (i == k && KillsInTheDark(env, After(env, s, ws[..k]), ws[k], looks[k]))
  {
    var k := |ws| - 1;
    hide After, KillsInTheDark;
    assert i < k ==> ws[..k][..i] == ws[..i];
  }

  /** Of the three, only the first is left while RunPod answers and both caps are
      unreached at every first look. */
  lemma OutageWithRunPodKillsExactly(env: SentinelEnv, s: Watch, ws: seq<Sweep>, looks: seq<Looks>)
    requires DefaultLevels(env.ladder) && |looks| == |ws|
    requires forall k :: 0 <= k < |ws| ==> SummaryLost(ws[k]) && SweptDark(env, ws[k], looks[k])
    requires forall k :: 0 <= k < |ws| ==> ws[k].podAnswers && CapsUnread(env, looks[k])
    ensures KillAttempted(s.ladder.trace, After(env, s, ws).ladder.trace) <==>
              !s.startupSeen && exists k :: 0 <= k < |ws| && PastDeadline(env, ws[k])
  {
    OutageKillsExactly(env, s, ws, looks);
    forall k: nat | k < |ws|
      ensures KillsInTheDarkAt(env, s, ws, looks, k) <==> !s.startupSeen && PastDeadline(env, ws[k])
    {
      OutageKillsExactly(env, s, ws[..k], looks[..k]);
      hide After, PastDeadline, SweptDark, KillAttempted;
      UnreadCapsAreNotTwice(env, ws[k], looks[k]);
    }
    hide KillsInTheDark, After, SweptDark, SummaryLost, KillAttempted, PastDeadline, CapsUnread;
  }

  ghost predicate CapsUnread(env: SentinelEnv, looks: Looks) {
    forall i: nat :: i < |env.probes| ==> Probes.CapsUnreached(env.cfg.budget, looks.first(i))
  }

  lemma UnreadCapsAreNotTwice(env: SentinelEnv, w: Sweep, looks: Looks)
    requires CapsUnread(env, looks)
    ensures !SomeCapTwice(env, w, looks)
  {
    hide SpendAt;
    forall i: nat | i < |env.probes| ensures !CapTwice(env, w, looks, i) {
      assert Probes.CapsUnreached(env.cfg.budget, looks.first(i));
    }
  }
}
