/** What a probe says, and how far the ladder may go on hearing it. */
module Verdicts {

  datatype Option<+T> = None | Some(value: T)

  datatype Status = Ok | Unknown | Warn | Fail

  /** Probe names. Every name the default level table mentions has its own
      constructor; `Named` stands for any other name. */
  datatype Probe =
    | Spend | WallClock
    | ObserverAgreement | PodStatus | ProgressAge | StepCounter | GpuUtil | RunState
    | RewardStd | KlRef | Entropy | FormatSuccess | RolloutDuration
    | GenerationBackend | RewardModel | ReplDegeneracy | LossFinite
    | StartupDeadline | DeadMansSwitch | ShutdownGuard
    | Named(name: string)

  /** One probe's answer. The detail text and the timestamp are left out. */
  datatype Verdict = Verdict(probe: Probe, status: Status, evidence: map<string, string>)

  /** What asking a probe again may do: answer, raise, or return no verdict at
      all (`check_startup_deadline` returns `None` once the run has started). */
  datatype Poll = Answered(verdict: Verdict) | Raised | NoAnswer

  predicate SaysFail(poll: Poll) {
    poll.Answered? && poll.verdict.status == Fail
  }

  /** Python's `IntEnum`: levels compare as integers. */
  type Level = l: int | 0 <= l <= 4
  const LOG: Level := 0
  const NOTIFY: Level := 1
  const SNAPSHOT: Level := 2
  const HALT: Level := 3
  const TERMINATE: Level := 4

  function Max(a: Level, b: Level): (m: Level)
    ensures m >= a && m >= b && (m == a || m == b)
  {
    if a >= b then a else b
  }

  /** How far a `fail` of each probe may go unless the caller overrides it. */
  function DefaultLevel(probe: Probe): (level: Level)
    ensures level == NOTIFY <==> probe.PodStatus?
    ensures level == HALT <==>
              || probe.RewardStd? || probe.KlRef? || probe.Entropy? || probe.FormatSuccess? || probe.RolloutDuration?
              || probe.GenerationBackend? || probe.RewardModel? || probe.ReplDegeneracy? || probe.LossFinite?
    ensures level == TERMINATE <==>
              || probe.Spend? || probe.WallClock?
              || probe.ObserverAgreement? || probe.ProgressAge? || probe.StepCounter? || probe.GpuUtil?
    ensures level >= NOTIFY
  {
    match probe
    case Spend | WallClock | ObserverAgreement | ProgressAge | StepCounter | GpuUtil => TERMINATE
    case PodStatus => NOTIFY
    case RunState => SNAPSHOT
    case RewardStd | KlRef | Entropy | FormatSuccess | RolloutDuration
       | GenerationBackend | RewardModel | ReplDegeneracy | LossFinite => HALT
    case StartupDeadline | DeadMansSwitch | ShutdownGuard | Named(_) => SNAPSHOT
  }

  /** The level a status asks for. `warn` never asks for more than a message. */
  function TargetLevel(overrides: map<Probe, Level>, verdict: Verdict): Level {
    match verdict.status
    case Fail => if verdict.probe in overrides then overrides[verdict.probe] else DefaultLevel(verdict.probe)
    case Warn => NOTIFY
    case Ok | Unknown => LOG
  }
}
