/** The parts of the run configuration that decide money, time and deletion. */
module Config {
  import opened Verdicts

  datatype TerminalAction = Terminate | Stop | OtherAction(text: string)

  datatype Startup = Startup(deadline: real, onFailure: TerminalAction)

  datatype Setting = Auto | Seconds(seconds: real)

  datatype StallThreshold = StallThreshold(
    default: real, autoMultiplier: real, autoFloor: real, phases: map<string, Setting>)

  datatype Budget = Budget(
    hourlyRate: real, maxUsd: real, warnPct: real, maxWallClockHours: real,
    storageGb: real, storageUsdPerGbMonth: real)

  datatype Failsafe = Failsafe(
    confirmDelay: real, unknownTolerance: real, deadMansTimeout: real, checkpointTimeout: real,
    onTerminal: TerminalAction, checkpointOnNetworkVolume: bool)

  datatype RunConfig = RunConfig(
    podId: string, startup: Startup, stall: StallThreshold, budget: Budget,
    failsafe: Failsafe, pollInterval: real)

  datatype ConfigError =
    | StartupTooShort | StartupAction
    | StallDefault | StallAuto | StallPhase
    | HourlyRate | MaxUsd | WarnPct | MaxWallClock
    | TerminalActionName | FailsafeDelay | DeadManBeforeConfirm
    | PollInterval | DeletesCheckpoints

  function ValidateStartup(s: Startup): Option<ConfigError> {
    if s.deadline <= 0.0 then Some(StartupTooShort)
    else if s.onFailure.OtherAction? then Some(StartupAction)
    else None
  }

  function ValidateStall(s: StallThreshold): Option<ConfigError> {
    if s.default <= 0.0 then Some(StallDefault)
    else if s.autoMultiplier <= 0.0 || s.autoFloor <= 0.0 then Some(StallAuto)
    else if exists p :: p in s.phases && s.phases[p].Seconds? && s.phases[p].seconds <= 0.0 then Some(StallPhase)
    else None
  }

  function ValidateBudget(b: Budget): Option<ConfigError> {
    if b.hourlyRate < 0.0 then Some(HourlyRate)
    else if b.maxUsd <= 0.0 then Some(MaxUsd)
    else if !(0.0 < b.warnPct < 100.0) then Some(WarnPct)
    else if b.maxWallClockHours <= 0.0 then Some(MaxWallClock)
    else None
  }

  function ValidateFailsafe(f: Failsafe): Option<ConfigError> {
    if f.onTerminal.OtherAction? then Some(TerminalActionName)
    else if f.confirmDelay <= 0.0 || f.unknownTolerance <= 0.0
         || f.deadMansTimeout <= 0.0 || f.checkpointTimeout <= 0.0 then Some(FailsafeDelay)
    else if f.deadMansTimeout <= f.confirmDelay then Some(DeadManBeforeConfirm)
    else None
  }

  /** The first thing `RunConfig.validate` would raise, if anything. */
  function Validate(cfg: RunConfig): Option<ConfigError> {
    var startup, stall := ValidateStartup(cfg.startup), ValidateStall(cfg.stall);
    var budget, failsafe := ValidateBudget(cfg.budget), ValidateFailsafe(cfg.failsafe);
    if startup.Some? then startup
    else if stall.Some? then stall
    else if budget.Some? then budget
    else if failsafe.Some? then failsafe
    else if cfg.pollInterval <= 0.0 then Some(PollInterval)
    else if cfg.failsafe.onTerminal == Terminate && !cfg.failsafe.checkpointOnNetworkVolume
    then Some(DeletesCheckpoints)
    else None
  }

  predicate Accepted(cfg: RunConfig) {
    Validate(cfg).None?
  }

  predicate KnownAction(action: TerminalAction) {
    action == Terminate || action == Stop
  }

  /** A configuration is accepted exactly when every delay, budget and threshold is a
      positive amount, the warning lies strictly below the cap, both actions are ones
      there are, the dead man waits longer than a confirmation does, and nothing deletes
      a pod that holds the only checkpoints. */
  lemma AcceptedExactly(cfg: RunConfig)
    ensures Accepted(cfg) <==>
              && cfg.startup.deadline > 0.0 && KnownAction(cfg.startup.onFailure)
              && cfg.stall.default > 0.0 && cfg.stall.autoMultiplier > 0.0 && cfg.stall.autoFloor > 0.0
              && (forall p :: p in cfg.stall.phases && cfg.stall.phases[p].Seconds? ==>
                    cfg.stall.phases[p].seconds > 0.0)
              && cfg.budget.hourlyRate >= 0.0 && cfg.budget.maxUsd > 0.0
              && cfg.budget.warnPct > 0.0 && cfg.budget.warnPct < 100.0 && cfg.budget.maxWallClockHours > 0.0
              && KnownAction(cfg.failsafe.onTerminal) && cfg.failsafe.confirmDelay > 0.0
              && cfg.failsafe.unknownTolerance > 0.0 && cfg.failsafe.checkpointTimeout > 0.0
              && cfg.failsafe.deadMansTimeout > cfg.failsafe.confirmDelay
              && cfg.pollInterval > 0.0
              && (cfg.failsafe.onTerminal == Terminate ==> cfg.failsafe.checkpointOnNetworkVolume)
  {
  }

  // --- staleness -------------------------------------------------------------

  /** Per-phase staleness budget. An unmeasured `auto` phase gets the floor, a measured
      one the smallest budget that is at least the floor and the multiple measured. */
  function Resolve(s: StallThreshold, phase: Option<string>, baselines: map<string, real>): (budget: real)
    ensures phase.None? || phase.value !in s.phases ==> budget == s.default
    ensures phase.Some? && phase.value in s.phases ==>
              match s.phases[phase.value]
              case Seconds(n) => budget == n
              case Auto =>
                && budget >= s.autoFloor
                && (phase.value !in baselines ==> budget == s.autoFloor)
                && (phase.value in baselines ==>
                      && budget >= s.autoMultiplier * baselines[phase.value]
                      && (budget == s.autoFloor || budget == s.autoMultiplier * baselines[phase.value]))
  {
    if phase.None? || phase.value !in s.phases then s.default
    else match s.phases[phase.value]
         case Seconds(n) => n
         case Auto =>
           if phase.value !in baselines then s.autoFloor
           else
             var scaled := s.autoMultiplier * baselines[phase.value];
             if s.autoFloor >= scaled then s.autoFloor else scaled
  }

  /** An accepted threshold table never yields a budget that is already spent:
      whatever the phase and whatever was measured, there is time left. */
  lemma StallBudgetIsPositive(cfg: RunConfig, phase: Option<string>, baselines: map<string, real>)
    requires Accepted(cfg)
    ensures Resolve(cfg.stall, phase, baselines) > 0.0
  {
    if phase.Some? && phase.value in cfg.stall.phases {
      var setting := cfg.stall.phases[phase.value];
      assert setting.Seconds? ==> setting.seconds > 0.0;
    }
  }

  // --- money -----------------------------------------------------------------

  /** Accrued spend after `hours` of billed time: compute plus storage. */
  function SpendAt(b: Budget, hours: real): real {
    b.hourlyRate * hours + b.storageGb * b.storageUsdPerGbMonth * (hours / 730.0)
  }

  /** Dollars per billed hour. */
  function HourlyBurn(b: Budget): real {
    b.hourlyRate + b.storageGb * b.storageUsdPerGbMonth / 730.0
  }

  lemma SpendIsLinear(b: Budget, hours: real)
    ensures SpendAt(b, hours) == HourlyBurn(b) * hours
  {
    var g := b.storageGb * b.storageUsdPerGbMonth;
    assert g * (hours / 730.0) == (g / 730.0) * hours;
  }

  /** A month has 730 hours: over one of them the bill is the pod's hours and one month of
      storage, and every other bill is its share of that. */
  lemma SpendByTheMonth(b: Budget, hours: real)
    ensures SpendAt(b, 730.0) == 730.0 * b.hourlyRate + b.storageGb * b.storageUsdPerGbMonth
    ensures 730.0 * SpendAt(b, hours) == hours * SpendAt(b, 730.0)
  {
    SpendIsLinear(b, hours);
    SpendIsLinear(b, 730.0);
    var burn := HourlyBurn(b);
    assert 730.0 * (burn * hours) == hours * (burn * 730.0);
  }

  lemma SpendGrows(b: Budget, h: real, k: real)
    requires HourlyBurn(b) >= 0.0 && h <= k
    ensures SpendAt(b, h) <= SpendAt(b, k)
  {
    SpendIsLinear(b, h);
    SpendIsLinear(b, k);
    var burn, more := HourlyBurn(b), k - h;
    assert burn * more >= 0.0;
    assert burn * k == burn * h + burn * more;
  }

  /** Spend never falls exactly when the burn rate is not negative. */
  lemma SpendIsMonotoneIff(b: Budget)
    ensures (forall h, k :: h <= k ==> SpendAt(b, h) <= SpendAt(b, k)) <==> HourlyBurn(b) >= 0.0
  {
    SpendIsLinear(b, 0.0);
    SpendIsLinear(b, 1.0);
    if HourlyBurn(b) >= 0.0 {
      forall h, k | h <= k ensures SpendAt(b, h) <= SpendAt(b, k) {
        SpendGrows(b, h, k);
      }
    } else {
      assert SpendAt(b, 1.0) < SpendAt(b, 0.0);
    }
  }

  /** Validation does not rule a shrinking bill out: it never looks at storage. */
  lemma AcceptedSpendMayShrink() returns (cfg: RunConfig)
    ensures Accepted(cfg)
    ensures SpendAt(cfg.budget, 1.0) < SpendAt(cfg.budget, 0.0)
  {
    var stall := StallThreshold(300.0, 4.0, 600.0, map[]);
    var budget := Budget(0.0, 5.0, 75.0, 24.0, 730.0, -1.0);
    var failsafe := Failsafe(120.0, 900.0, 1800.0, 600.0, Stop, false);
    cfg := RunConfig("pod", Startup(900.0, Terminate), stall, budget, failsafe, 60.0);
  }
}
