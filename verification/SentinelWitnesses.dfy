/** One concrete sweep for each way an outage of W&B ends in a kill, and for the
    late start that raises: an accepted configuration, an ordinary ladder. */
module SentinelWitnesses {
  import opened Verdicts
  import opened Config
  import opened Ladder
  import opened Sentinel
  import opened SentinelRuns
  import opened SentinelLatency
  import opened SentinelOutage
  import Probes
  import SentinelMoney

  const FAILSAFE := Failsafe(120.0, 900.0, 1800.0, 600.0, Stop, false)

  const CONFIG := RunConfig(
    "pod", Startup(900.0, Terminate), StallThreshold(300.0, 4.0, 600.0, map[]),
    Budget(1.0, 5.0, 75.0, 24.0, 0.0, 0.0), FAILSAFE, 60.0)

  const LADDER := Env(
    FAILSAFE, "pod", map[], false, false, true, None, (_: nat) => Calls(false, TimedOut, false, false, false))

  function Watching(probes: seq<Probe>): SentinelEnv {
    SentinelEnv(CONFIG, LADDER, probes, 0.0)
  }

  /** A fresh ladder; `seen` says whether the run is known to have started. */
  function Fresh(lastContact: real, seen: bool): Watch {
    Watch(START, lastContact, seen, 0, [])
  }

  /** One instant without W&B, and what the two caps' probes say in it. */
  function DarkSweep(at: real, podAnswers: bool, spend: Status, clock: Status, second: Summary): Sweep {
    Sweep(at, None, podAnswers, false, at, NoSummary, at, second,
          (_: nat) => Says(spend, map[]), (p: Probe) => Says(if p == Spend then spend else clock, map[]),
          (_: nat) => at, at, None, None, at)
  }

  /** A look with neither upstream, by a monitor that started `elapsed` ago. */
  function DarkView(elapsed: real): Probes.View {
    Probes.View(true, true, None, None, elapsed, 300.0, 5.0)
  }

  function DarkLooks(elapsed: real): Looks {
    Looks((_: nat) => DarkView(elapsed), (_: Probe) => DarkView(elapsed))
  }

  /** A monitor that has just started cannot tell what is billed. */
  lemma NothingBilledYet()
    ensures Probes.StatusOf(CONFIG.budget, Spend, DarkView(0.0)) == Some(Unknown)
    ensures Probes.StatusOf(CONFIG.budget, WallClock, DarkView(0.0)) == Some(Unknown)
    ensures Probes.BilledHours(DarkView(0.0)) == None
  {
  }

  lemma FiveHoursCostFive()
    ensures SpendAt(CONFIG.budget, 5.0) == 5.0
  {
    SpendIsLinear(CONFIG.budget, 5.0);
    hide SpendAt;
  }

  lemma FiveHoursBilled()
    ensures Probes.BilledHours(DarkView(18000.0)) == Some(5.0)
  {
  }

  /** After five hours, at a dollar an hour, the spend cap is reached. */
  lemma FiveDollarsBilled()
    ensures Probes.StatusOf(CONFIG.budget, Spend, DarkView(18000.0)) == Some(Fail)
    ensures Probes.StatusOf(CONFIG.budget, WallClock, DarkView(18000.0)) == Some(Ok)
    ensures Probes.BilledHours(DarkView(18000.0)) == Some(5.0)
    ensures SentinelMoney.CapReached(CONFIG.budget, Spend, 5.0)
  {
    hide SpendAt, Probes.BilledHours;
    FiveHoursCostFive();
    FiveHoursBilled();
  }

  lemma EarlySweepIsDark(at: real, podAnswers: bool)
    ensures SweptDark(Watching([]), DarkSweep(at, podAnswers, Unknown, Unknown, NoSummary), DarkLooks(0.0))
  {
    hide Probes.StatusOf, Probes.BilledHours;
    NothingBilledYet();
  }

  /** A thousand seconds after the pod was created, with RunPod answering. */
  lemma LateOutageKills()
    ensures var env, s, w := Watching([]), Fresh(0.0, false), DarkSweep(1000.0, true, Unknown, Unknown, NoSummary);
            && Accepted(env.cfg) && SummaryLost(w) && SweptDark(env, w, DarkLooks(0.0))
            && w.podAnswers && !SomeCapTwice(env, w, DarkLooks(0.0))
            && KillAttempted(s.ladder.trace, Tick(env, s, w).0.ladder.trace)
  {
    hide Tick, KillAttempted, SweptDark;
    var env, s, w := Watching([]), Fresh(0.0, false), DarkSweep(1000.0, true, Unknown, Unknown, NoSummary);
    EarlySweepIsDark(1000.0, true);
    DarkTick(env, s, w, DarkLooks(0.0));
  }

  /** Half an hour after the last contact, on a run known to have started. */
  lemma SilenceKills()
    ensures var env, s, w := Watching([]), Fresh(0.0, true), DarkSweep(1800.0, false, Unknown, Unknown, NoSummary);
            && Accepted(env.cfg) && SummaryLost(w) && SweptDark(env, w, DarkLooks(0.0))
            && s.startupSeen && !SomeCapTwice(env, w, DarkLooks(0.0))
            && KillAttempted(s.ladder.trace, Tick(env, s, w).0.ladder.trace)
  {
    hide Tick, KillAttempted, SweptDark;
    var env, s, w := Watching([]), Fresh(0.0, true), DarkSweep(1800.0, false, Unknown, Unknown, NoSummary);
    EarlySweepIsDark(1800.0, false);
    DarkTick(env, s, w, DarkLooks(0.0));
  }

  lemma LateSweepIsDark()
    ensures var env, w := Watching([Spend]), DarkSweep(18000.0, false, Fail, Ok, NoSummary);
            SweptDark(env, w, DarkLooks(18000.0)) && SomeCapTwice(env, w, DarkLooks(18000.0))
  {
    hide Probes.StatusOf, Probes.BilledHours, SentinelMoney.CapReached;
    FiveDollarsBilled();
    assert CapTwice(Watching([Spend]), DarkSweep(18000.0, false, Fail, Ok, NoSummary), DarkLooks(18000.0), 0);
  }

  /** Five hours in, five dollars spent by the monitor's own clock, and nothing heard
      for one minute only. */
  lemma OwnClockKills()
    ensures var env, s, w := Watching([Spend]), Fresh(17940.0, true), DarkSweep(18000.0, false, Fail, Ok, NoSummary);
            && Accepted(env.cfg) && SummaryLost(w) && SweptDark(env, w, DarkLooks(18000.0))
            && s.startupSeen && !DeadManDue(env, s, w)
            && KillAttempted(s.ladder.trace, Tick(env, s, w).0.ladder.trace)
  {
    hide Tick, KillAttempted, SweptDark, SomeCapTwice;
    var env, s, w := Watching([Spend]), Fresh(17940.0, true), DarkSweep(18000.0, false, Fail, Ok, NoSummary);
    LateSweepIsDark();
    DarkTick(env, s, w, DarkLooks(18000.0));
  }

  /** The same late look, but the re-poll finds the run started: the sweep raises. */
  lemma StartedAfterAllRaises()
    ensures var env, s := Watching([]), Fresh(0.0, false);
            var w := DarkSweep(1000.0, true, Unknown, Unknown, Summary(true, false));
            && LateStart(env, s, w) && StartupPoll(env, w) == NoAnswer && Tick(env, s, w).1.Crashed?
  {
    hide Tick, KillAttempted;
    var env, s := Watching([]), Fresh(0.0, false);
    var w := DarkSweep(1000.0, true, Unknown, Unknown, Summary(true, false));
    LateStartKillsOrRaises(env, s, w);
  }
}
