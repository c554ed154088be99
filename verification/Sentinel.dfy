/** The external sentinel: one sweep, and what it does to everything it holds. */
module Sentinel {
  import opened Verdicts
  import opened Config
  import opened Ladder

  /** What the run's summary shows: unreadable, or whether `startup_ok` is set and
      whether a step or a timestamp has been logged. */
  datatype Summary = NoSummary | Summary(startupOk: bool, logged: bool)

  /** What `probe.check` does: a verdict under the probe's own name, or a crash. */
  datatype Answer = Says(status: Status, evidence: map<string, string>) | Raises

  /** Everything the world answers during one sweep. Times are readings of the
      sentinel's clock; `heardAt` those of the ladder's own. */
  datatype Sweep = Sweep(
    begin: real, billedHours: Option<real>,
    podAnswers: bool, runAnswers: bool,
    firstLook: real, firstSummary: Summary,
    secondLook: real, secondSummary: Summary,
    first: nat -> Answer, again: Probe -> Answer, heardAt: nat -> real,
    lastLook: real,
    runEnded: Option<bool>, podRunning: Option<bool>, end: real)

  datatype SentinelEnv = SentinelEnv(cfg: RunConfig, ladder: Env, probes: seq<Probe>, podCreatedAt: real)

  datatype TickResult = TickResult(
    verdicts: seq<Verdict>, spend: Option<real>, projected: Option<real>, terminated: bool)

  datatype Watch = Watch(
    ladder: State, lastContact: real, startupSeen: bool, ticks: nat, history: seq<TickResult>)

  // --- the startup deadline -----------------------------------------------------

  predicate HasStarted(summary: Summary) {
    summary.Summary? && (summary.startupOk || summary.logged)
  }

  const LATE_START := Verdict(StartupDeadline, Fail, map[])

  /** `startup_ok_seen` after a look at the summary. */
  function SeenAfter(seen: bool, summary: Summary): bool {
    seen || HasStarted(summary)
  }

  function StartupVerdict(env: SentinelEnv, seen: bool, look: real, summary: Summary): Option<Verdict> {
    if seen || HasStarted(summary) || look - env.podCreatedAt <= env.cfg.startup.deadline then None
    else Some(LATE_START)
  }

  predicate LateStart(env: SentinelEnv, s: Watch, w: Sweep) {
    StartupVerdict(env, s.startupSeen, w.firstLook, w.firstSummary).Some?
  }

  /** The re-poll of the startup verdict: a verdict again, or nothing at all. */
  function StartupPoll(env: SentinelEnv, w: Sweep): Poll {
    var second := StartupVerdict(env, false, w.secondLook, w.secondSummary);
    if second.Some? then Answered(second.value) else NoAnswer
  }

  // --- one sweep ------------------------------------------------------------------

  function Money(env: SentinelEnv, w: Sweep): (Option<real>, Option<real>) {
    if w.billedHours.None? then (None, None)
    else (Some(SpendAt(env.cfg.budget, w.billedHours.value)),
          Some(SpendAt(env.cfg.budget, env.cfg.budget.maxWallClockHours)))
  }

  predicate Contacted(w: Sweep) {
    w.podAnswers || w.runAnswers
  }

  /** A probe that crashes is blind; it never fails. */
  function VerdictOf(probe: Probe, answer: Answer): Verdict {
    match answer
    case Says(status, evidence) => Verdict(probe, status, evidence)
    case Raises => Verdict(probe, Unknown, map["error" := "raised"])
  }

  function SweepVerdicts(env: SentinelEnv, w: Sweep): seq<Verdict> {
    seq(|env.probes|, i requires 0 <= i < |env.probes| => VerdictOf(env.probes[i], w.first(i)))
  }

  function SweepReadings(env: SentinelEnv, w: Sweep): seq<Reading> {
    seq(|env.probes|, i requires 0 <= i < |env.probes| => Reading(VerdictOf(env.probes[i], w.first(i)), w.heardAt(i)))
  }

  /** The sweep's re-poll: the probe of that name, asked again. */
  function Repoll(env: SentinelEnv, w: Sweep): Verdict -> Poll {
    (v: Verdict) =>
      if v.probe !in env.probes then Answered(Verdict(v.probe, Unknown, map[]))
      else match w.again(v.probe)
           case Says(status, evidence) => Answered(Verdict(v.probe, status, evidence))
           case Raises => Poll.Raised
  }

  const DEAD_MAN := Verdict(DeadMansSwitch, Fail, map[])

  predicate DeadManDue(env: SentinelEnv, s: Watch, w: Sweep) {
    !Contacted(w) && w.lastLook - s.lastContact >= env.cfg.failsafe.deadMansTimeout
  }

  /** Startup was late: handle that, shut down, and leave the sweep. The handler
      raises instead when the run turns out to have started in the meantime. */
  function LateTick(env: SentinelEnv, s: Watch, w: Sweep): (Watch, Outcome<TickResult>) {
    var r := Reading(LATE_START, w.firstLook);
    var poll := Some(StartupPoll(env, w));
    var asked := Escalates(env.ladder, s.ladder.memory, r);
    var handled := s.(ladder := Handle(env.ladder, s.ladder, r, poll),
                      startupSeen := asked && HasStarted(w.secondSummary));
    if HandleCrashes(env.ladder, s.ladder, r, poll) then (handled, Crashed)
    else
      var result := TickResult([LATE_START], Money(env, w).0, Money(env, w).1, true);
      (handled.(ladder := Shutdown(env.ladder, handled.ladder, false, None),
                ticks := s.ticks + 1, history := s.history + [result]),
       Returned(result))
  }

  function ProbedLadder(env: SentinelEnv, s: Watch, w: Sweep): State {
    Batch(env.ladder, s.ladder, SweepReadings(env, w), Some(Repoll(env, w)))
  }

  function DeadManLadder(env: SentinelEnv, s: State, w: Sweep): State {
    Shutdown(env.ladder, Handle(env.ladder, s, Reading(DEAD_MAN, w.lastLook), None), false, None)
  }

  function FullTick(env: SentinelEnv, s: Watch, w: Sweep): (Watch, Outcome<TickResult>) {
    var probed := ProbedLadder(env, s, w);
    var fired := DeadManDue(env, s, w);
    var verdicts := SweepVerdicts(env, w) + if fired then [DEAD_MAN] else [];
    var result := TickResult(verdicts, Money(env, w).0, Money(env, w).1, fired);
    (Watch(if fired then DeadManLadder(env, probed, w) else probed,
           if Contacted(w) then w.lastLook else s.lastContact,
           SeenAfter(s.startupSeen, w.firstSummary),
           s.ticks + 1, s.history + [result]),
     Returned(result))
  }

  function Tick(env: SentinelEnv, s: Watch, w: Sweep): (Watch, Outcome<TickResult>) {
    if LateStart(env, s, w) then LateTick(env, s, w) else FullTick(env, s, w)
  }

  // --- polling until something ends it ----------------------------------------------

  /** `_finished`: the run reads terminal and the pod reads not running. */
  predicate RunIsOver(w: Sweep) {
    w.runEnded == Some(true) && w.podRunning == Some(false)
  }

  datatype Stop = OutOfScript | OutOfTicks | PodDown | RunOver | TickRaised

  datatype Vigil = Vigil(state: Watch, taken: nat, stop: Stop)

  /** `run`, over as many sweeps as the world has to offer. */
  function KeepWatch(env: SentinelEnv, s: Watch, ws: seq<Sweep>, maxTicks: Option<nat>, taken: nat): Vigil
    decreases |ws|
  {
    if maxTicks.Some? && taken >= maxTicks.value then Vigil(s, taken, OutOfTicks)
    else if ws == [] then Vigil(s, taken, OutOfScript)
    else
      var (next, outcome) := Tick(env, s, ws[0]);
      if outcome.Crashed? then Vigil(next, taken + 1, TickRaised)
      else if outcome.value.terminated || next.ladder.terminated then Vigil(next, taken + 1, PodDown)
      else if RunIsOver(ws[0]) then Vigil(next, taken + 1, RunOver)
      else KeepWatch(env, next, ws[1..], maxTicks, taken + 1)
  }
}
