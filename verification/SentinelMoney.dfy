/** Money: both caps are enforced within a bound. */
module SentinelMoney {
  import opened Verdicts
  import opened Config
  import opened LadderInvariant
  import opened Sentinel
  import opened SentinelRuns
  import opened SentinelBounds
  import opened SentinelLatency
  import Probes

  // --- the two caps --------------------------------------------------------------------------

  /** The caps that nothing switches off: on spend and on wall-clock time. */
  predicate IsCap(cap: Probe) {
    cap == Spend || cap == WallClock
  }

  predicate CapReached(b: Budget, cap: Probe, hours: real) {
    if cap == Spend then SpendAt(b, hours) >= b.maxUsd else hours >= b.maxWallClockHours
  }

  predicate WithinCap(b: Budget, cap: Probe, hours: real) {
    if cap == Spend then SpendAt(b, hours) <= b.maxUsd else hours <= b.maxWallClockHours
  }

  /** A cap that stays reached: of spend this needs a burn rate that is not negative. */
  predicate Lasting(b: Budget, cap: Probe) {
    cap == Spend ==> HourlyBurn(b) >= 0.0
  }

  lemma CapStaysReached(b: Budget, cap: Probe, h: real, k: real)
    requires Lasting(b, cap) && h <= k && CapReached(b, cap, h)
    ensures CapReached(b, cap, k)
  {
    if cap == Spend {
      SpendGrows(b, h, k);
    }
    hide SpendAt, HourlyBurn;
  }

  /** Hours from `born` to `t`. */
  function Hours(born: real, t: real): real {
    (t - born) / 3600.0
  }

  /** The two looks a cap's probe gets at the billed time in one sweep. */
  datatype Metering = Metering(at: real, view: Probes.View, againAt: real, againView: Probes.View)

  /** What is billed by `t` can be read, and is behind by at most `lag`. */
  predicate Meters(v: Probes.View, born: real, t: real, lag: real) {
    Probes.BilledHours(v).Some? && Probes.BilledHours(v).value >= Hours(born, t - lag)
  }

  /** RunPod's own uptime is not behind at all; without RunPod the monitor's clock
      is behind by the head start the pod had. */
  lemma MetersByUptimeOrClock(v: Probes.View, born: real, started: real, t: real)
    requires v.podNamed && v.pod.Some? ==> v.pod.value.uptime == t - born
    requires !(v.podNamed && v.pod.Some?) ==> v.elapsed == t - started > 0.0
    ensures Meters(v, born, t, if v.podNamed && v.pod.Some? then 0.0 else started - born)
  {
  }

  predicate Metered(env: SentinelEnv, w: Sweep, j: nat, cap: Probe, born: real, lag: real, m: Metering) {
    && w.begin <= m.at <= m.againAt <= w.end
    && Meters(m.view, born, m.at, lag) && Meters(m.againView, born, m.againAt, lag)
    && w.first(j).Says? && Some(w.first(j).status) == Probes.StatusOf(env.cfg.budget, cap, m.view)
    && w.again(cap).Says? && Some(w.again(cap).status) == Probes.StatusOf(env.cfg.budget, cap, m.againView)
  }

  lemma ReachedFails(b: Budget, cap: Probe, v: Probes.View)
    requires IsCap(cap) && Probes.BilledHours(v).Some?
    ensures Probes.StatusOf(b, cap, v) == Some(Fail) <==> CapReached(b, cap, Probes.BilledHours(v).value)
  {
  }

  /** Two looks that must both read a cap as reached. */
  lemma MeteredFails(env: SentinelEnv, w: Sweep, j: nat, cap: Probe, born: real, lag: real, m: Metering)
    requires IsCap(cap) && Lasting(env.cfg.budget, cap) && Metered(env, w, j, cap, born, lag, m)
    requires CapReached(env.cfg.budget, cap, Hours(born, m.at - lag))
    ensures w.first(j).status == Fail && w.again(cap).status == Fail
  {
    var b := env.cfg.budget;
    ReachedFails(b, cap, m.view);
    ReachedFails(b, cap, m.againView);
    CapStaysReached(b, cap, Hours(born, m.at - lag), Probes.BilledHours(m.view).value);
    CapStaysReached(b, cap, Hours(born, m.at - lag), Probes.BilledHours(m.againView).value);
    hide Probes.StatusOf, CapReached, Lasting, Probes.BilledHours;
  }

  /** A sweep that reads a cap as reached attempts a kill, unless it raises: what
      is billed does not fall, so the re-poll always agrees. */
  lemma CapBreachKills(
    env: SentinelEnv, s: Watch, w: Sweep, j: nat, cap: Probe, born: real, lag: real, m: Metering)
    requires j < |env.probes| && env.probes[j] == cap && IsCap(cap) && cap !in env.ladder.overrides
    requires Lasting(env.cfg.budget, cap) && Metered(env, w, j, cap, born, lag, m)
    requires CapReached(env.cfg.budget, cap, Hours(born, m.at - lag))
    requires Tick(env, s, w).1.Returned?
    ensures KillAttempted(s.ladder.trace, Tick(env, s, w).0.ladder.trace)
  {
    MeteredFails(env, w, j, cap, born, lag, m);
    hide Tick, KillAttempted, Metered, CapReached, Lasting;
    FailingTwiceKills(env, s, w, j);
  }

  // --- how far past a cap a watch can run ---------------------------------------------------

  /** The cap's probe is number `j` of the sweep and keeps its default level, it was
      metered in every sweep, and the sweeps are timely. */
  ghost predicate CapWatched(
    env: SentinelEnv, ws: seq<Sweep>, j: nat, cap: Probe, born: real, lag: real, ms: seq<Metering>, p: real, d: real)
  {
    && j < |env.probes| && env.probes[j] == cap && IsCap(cap) && cap !in env.ladder.overrides
    && Lasting(env.cfg.budget, cap) && p >= 0.0 && d >= 0.0
    && Timely(ws, p, d) && |ms| == |ws|
    && (forall k :: 0 <= k < |ws| ==> Metered(env, ws[k], j, cap, born, lag, ms[k]))
  }

  /** Sweep `k`'s reading has the cap reached. */
  function CapAlarm(b: Budget, cap: Probe, born: real, lag: real, ms: seq<Metering>): nat -> bool {
    (k: nat) => k < |ms| && CapReached(b, cap, Hours(born, ms[k].at - lag))
  }

  lemma CapAlarmKills(
    env: SentinelEnv, s: Watch, ws: seq<Sweep>, j: nat, cap: Probe, born: real, lag: real, ms: seq<Metering>,
    p: real, d: real)
    requires CapWatched(env, ws, j, cap, born, lag, ms, p, d)
    ensures Alarm(env, s, ws, CapAlarm(env.cfg.budget, cap, born, lag, ms))
  {
    hide Tick, KillAttempted, Metered, CapReached, Lasting, IsCap, Timely, After, KillsAt;
    forall k: nat | k < |ws| && CapAlarm(env.cfg.budget, cap, born, lag, ms)(k) ensures KillsAt(env, s, ws, k) {
      if Completes(env, s, ws, k) {
        CapBreachKills(env, After(env, s, ws[..k]), ws[k], j, cap, born, lag, ms[k]);
      }
      TickKillsAt(env, s, ws, k);
    }
  }

  /** `t` is a time at which the cap was not yet overrun, and a kill is attempted
      within one sleep and two sweeps of it. */
  ghost predicate TimelyKill(
    env: SentinelEnv, s: Watch, ws: seq<Sweep>, cap: Probe, born: real, lag: real, p: real, d: real, n: nat, t: real)
  {
    && 0 < n <= |ws|
    && KillAttempted(s.ladder.trace, After(env, s, ws[..n]).ladder.trace)
    && WithinCap(env.cfg.budget, cap, Hours(born, t - lag))
    && ws[n - 1].end <= t + p + 2.0 * d
  }

  /** The sweep before the one that answers had read the cap as unreached. */
  lemma AnswerIsWithin(
    env: SentinelEnv, s: Watch, ws: seq<Sweep>, j: nat, cap: Probe, born: real, lag: real, ms: seq<Metering>,
    p: real, d: real, n: nat)
    returns (t: real)
    requires CapWatched(env, ws, j, cap, born, lag, ms, p, d) && ws != []
    requires WithinCap(env.cfg.budget, cap, Hours(born, ws[0].begin - lag))
    requires Heeded(env, s, ws, CapAlarm(env.cfg.budget, cap, born, lag, ms), n)
    ensures TimelyKill(env, s, ws, cap, born, lag, p, d, n, t)
  {
    hide After, KillAttempted, CapReached, WithinCap, Lasting, Metered, IsCap;
    assert InOrder(ws[n - 1], d);
    if n == 1 {
      t := ws[0].begin;
    } else {
      t := ms[n - 2].at;
      assert !CapAlarm(env.cfg.budget, cap, born, lag, ms)(n - 2);
      UnreachedIsWithin(env.cfg.budget, cap, Hours(born, t - lag));
      assert Metered(env, ws[n - 2], j, cap, born, lag, ms[n - 2]);
      assert InOrder(ws[n - 2], d) && ws[n - 2 + 1].begin == ws[n - 2].end + p;
      MeteredInside(env, ws[n - 2], j, cap, born, lag, ms[n - 2]);
    }
  }

  lemma UnreachedIsWithin(b: Budget, cap: Probe, hours: real)
    ensures CapReached(b, cap, hours) || WithinCap(b, cap, hours)
  {
  }

  lemma MeteredInside(env: SentinelEnv, w: Sweep, j: nat, cap: Probe, born: real, lag: real, m: Metering)
    requires Metered(env, w, j, cap, born, lag, m)
    ensures w.begin <= m.at <= w.end
  {
  }

  /** Bounded overshoot, of either cap. Whatever RunPod answers, let every sweep
      meter the billed time to within `lag`. A watch whose sweeps go on until the cap
      is reached attempts a kill, in a sweep that it takes and that ends within
      P + 2D of a time by which the cap was not overrun; or it ended earlier, because
      run and pod were over or because a late start's re-poll raised. */
  lemma CapOvershoot(
    env: SentinelEnv, s: Watch, ws: seq<Sweep>, j: nat, cap: Probe, born: real, lag: real, ms: seq<Metering>,
    p: real, d: real)
    returns (n: nat, t: real)
    requires Good(env.ladder, s.ladder, []) && !s.ladder.terminated && ws != []
    requires CapWatched(env, ws, j, cap, born, lag, ms, p, d)
    requires WithinCap(env.cfg.budget, cap, Hours(born, ws[0].begin - lag))
    requires CapReached(env.cfg.budget, cap, Hours(born, ws[|ws| - 1].begin - lag))
    ensures var v := KeepWatch(env, s, ws, None, 0);
            || (n <= v.taken && TimelyKill(env, s, ws, cap, born, lag, p, d, n, t))
            || EndsBefore(v, CapAlarm(env.cfg.budget, cap, born, lag, ms))
  {
    hide KeepWatch, After, Good, KillAttempted, TimelyKill, WithinCap, CapWatched, Alarm, Heeded, EndsBefore;
    var alarm := CapAlarm(env.cfg.budget, cap, born, lag, ms);
    CapAlarmKills(env, s, ws, j, cap, born, lag, ms, p, d);
    LastReadingReaches(env, ws, j, cap, born, lag, ms, p, d);
    n := AlarmsAreAnswered(env, s, ws, alarm);
    t := 0.0;
    if Heeded(env, s, ws, alarm, n) {
      t := AnswerIsWithin(env, s, ws, j, cap, born, lag, ms, p, d, n);
    }
  }

  lemma LastReadingReaches(
    env: SentinelEnv, ws: seq<Sweep>, j: nat, cap: Probe, born: real, lag: real, ms: seq<Metering>, p: real, d: real)
    requires CapWatched(env, ws, j, cap, born, lag, ms, p, d) && ws != []
    requires CapReached(env.cfg.budget, cap, Hours(born, ws[|ws| - 1].begin - lag))
    ensures CapAlarm(env.cfg.budget, cap, born, lag, ms)(|ws| - 1)
  {
    var k := |ws| - 1;
    assert Metered(env, ws[k], j, cap, born, lag, ms[k]);
    CapStaysReached(env.cfg.budget, cap, Hours(born, ws[k].begin - lag), Hours(born, ms[k].at - lag));
  }

  /** In dollars: the first attempt comes before the spend has passed its cap by more
      than the burn of P + 2D and the meter's lag. */
  lemma SpendOvershoot(
    env: SentinelEnv, s: Watch, ws: seq<Sweep>, j: nat, born: real, lag: real, ms: seq<Metering>, p: real, d: real)
    returns (n: nat)
    requires Good(env.ladder, s.ladder, []) && !s.ladder.terminated && ws != []
    requires CapWatched(env, ws, j, Spend, born, lag, ms, p, d)
    requires SpendAt(env.cfg.budget, Hours(born, ws[0].begin - lag)) <= env.cfg.budget.maxUsd
    requires env.cfg.budget.maxUsd <= SpendAt(env.cfg.budget, Hours(born, ws[|ws| - 1].begin - lag))
    ensures var b, v := env.cfg.budget, KeepWatch(env, s, ws, None, 0);
            || (&& 0 < n <= v.taken && n <= |ws|
                && KillAttempted(s.ladder.trace, After(env, s, ws[..n]).ladder.trace)
                && SpendAt(b, Hours(born, ws[n - 1].end)) <=
                     b.maxUsd + HourlyBurn(b) * ((p + 2.0 * d + lag) / 3600.0))
            || EndsBefore(v, CapAlarm(env.cfg.budget, Spend, born, lag, ms))
  {
    hide KeepWatch, After, KillAttempted, EndsBefore, Good, CapWatched, SpendAt, HourlyBurn;
    var t;
    n, t := CapOvershoot(env, s, ws, j, Spend, born, lag, ms, p, d);
    assert HourlyBurn(env.cfg.budget) >= 0.0 by { SpendIsLasting(env, ws, j, born, lag, ms, p, d); }
    if TimelyKill(env, s, ws, Spend, born, lag, p, d, n, t) {
      SpendWithin(env.cfg.budget, Hours(born, t - lag), Hours(born, ws[n - 1].end), (p + 2.0 * d + lag) / 3600.0);
    }
  }

  lemma SpendIsLasting(
    env: SentinelEnv, ws: seq<Sweep>, j: nat, born: real, lag: real, ms: seq<Metering>, p: real, d: real)
    requires CapWatched(env, ws, j, Spend, born, lag, ms, p, d)
    ensures HourlyBurn(env.cfg.budget) >= 0.0
  {
    hide HourlyBurn, Timely, Metered;
  }

  lemma SpendWithin(b: Budget, h: real, k: real, limit: real)
    requires HourlyBurn(b) >= 0.0 && k - h <= limit
    ensures SpendAt(b, k) <= SpendAt(b, h) + HourlyBurn(b) * limit
  {
    SpendIsLinear(b, h);
    SpendIsLinear(b, k);
    hide SpendAt;
    var burn, more := HourlyBurn(b), k - h;
    hide HourlyBurn;
    Scale(burn, more, limit);
    assert burn * k == burn * h + burn * more;
  }

  lemma Scale(a: real, x: real, y: real)
    requires a >= 0.0 && x <= y
    ensures a * x <= a * y
  {
    assert a * (y - x) >= 0.0;
    assert a * y == a * x + a * (y - x);
  }

  /** In hours: likewise, for the wall-clock cap. */
  lemma WallClockOvershoot(
    env: SentinelEnv, s: Watch, ws: seq<Sweep>, j: nat, born: real, lag: real, ms: seq<Metering>, p: real, d: real)
    returns (n: nat)
    requires Good(env.ladder, s.ladder, []) && !s.ladder.terminated && ws != []
    requires CapWatched(env, ws, j, WallClock, born, lag, ms, p, d)
    requires Hours(born, ws[0].begin - lag) <= env.cfg.budget.maxWallClockHours
    requires env.cfg.budget.maxWallClockHours <= Hours(born, ws[|ws| - 1].begin - lag)
    ensures var v := KeepWatch(env, s, ws, None, 0);
            || (&& 0 < n <= v.taken && n <= |ws|
                && KillAttempted(s.ladder.trace, After(env, s, ws[..n]).ladder.trace)
                && Hours(born, ws[n - 1].end) <=
                     env.cfg.budget.maxWallClockHours + (p + 2.0 * d + lag) / 3600.0)
            || EndsBefore(v, CapAlarm(env.cfg.budget, WallClock, born, lag, ms))
  {
    hide KeepWatch, After, KillAttempted, EndsBefore, Good, CapWatched;
    var t;
    n, t := CapOvershoot(env, s, ws, j, WallClock, born, lag, ms, p, d);
  }
}
