/** The escalation ladder: verdicts in, ordered effects out.

    This module states what one call does to the ladder's whole state, as
    functions on values. The class that does it by updating its fields is in
    the module `Escalation`, and is proved equal to these functions. */
module Ladder {
  import opened Verdicts
  import opened Config

  // --- the ladder's state ----------------------------------------------------

  datatype ProbeMemory = ProbeMemory(unknownSince: Option<real>, consecutiveFails: nat, highestLevel: Level)

  type Memory = map<Probe, ProbeMemory>

  const FRESH := ProbeMemory(None, 0, LOG)

  function Recall(memory: Memory, probe: Probe): ProbeMemory {
    if probe in memory then memory[probe] else FRESH
  }

  datatype Step =
    | LogStep | NotifyStep | SnapshotStep(taken: bool)
    | HaltStep(saved: bool) | HaltTimeoutStep | TerminateStep(action: TerminalAction)

  datatype ActionRecord = ActionRecord(verdict: Verdict, level: Level, confirmed: bool, steps: seq<Step>)

  /** A verdict, and what the ladder's clock reads when it is decided. */
  datatype Reading = Reading(verdict: Verdict, at: real)

  /** Everything the ladder hears from and does to the outside world, in order. */
  datatype Effect =
    | Received(reading: Reading)
    | Slept(seconds: real)
    | Repolled(probe: Probe, saidFail: bool)
    | Logged(verdict: Verdict)
    | Notified(verdict: Verdict, level: Level)
    | SnapshotTaken(verdict: Verdict)
    | CheckpointRequested(raised: bool)
    | CheckpointWaited(outcome: WaitOutcome)
    | Alerted(raised: bool)
    | Finished(raised: bool)
    | Killed(action: TerminalAction, raised: bool)
    | KillImpossible
    | ShutdownCalled(action: TerminalAction)

  /** An effect, with the index its action has (or will have) in the history. */
  datatype Event = Event(action: nat, effect: Effect)

  datatype State = State(
    memory: Memory, history: seq<ActionRecord>, haltRequested: bool, terminated: bool, trace: seq<Event>)

  const START := State(map[], [], false, false, [])

  /** What a call that may raise gives back. */
  datatype Outcome<+T> = Returned(value: T) | Crashed

  // --- the world around it ---------------------------------------------------

  datatype WaitOutcome = Saved | TimedOut | WaitRaised

  /** How the outside calls made on behalf of one action turn out. */
  datatype Calls = Calls(
    requestRaises: bool, wait: WaitOutcome, alertRaises: bool, finishRaises: bool, killRaises: bool)

  datatype WandbModule = WandbModule(hasAlert: bool, hasFinish: bool)

  /** Configuration and collaborators. `calls(n)` answers the calls made by the
      n-th action, so every pattern of failures is some `calls`. */
  datatype Env = Env(
    failsafe: Failsafe, podId: string, overrides: map<Probe, Level>,
    trainer: bool, diagnostics: bool, runpod: bool, wandb: Option<WandbModule>, calls: nat -> Calls)

  // --- policy ----------------------------------------------------------------

  function BlindSince(since: Option<real>, r: Reading): Option<real> {
    if r.verdict.status != Unknown then None
    else if since.None? then Some(r.at)
    else since
  }

  /** Sustained `unknown` becomes `warn`; nothing else changes. */
  function ResolveStatus(failsafe: Failsafe, since: Option<real>, r: Reading): Status {
    if r.verdict.status == Unknown && since.Some? && r.at - since.value >= failsafe.unknownTolerance
    then Warn
    else r.verdict.status
  }

  datatype Decision = Decision(promoted: Verdict, target: Level)

  function DecideMemory(memory: Memory, r: Reading): Memory {
    var was := Recall(memory, r.verdict.probe);
    memory[r.verdict.probe := was.(unknownSince := BlindSince(was.unknownSince, r))]
  }

  /** The state once a reading has been decided on behalf of action `action`. */
  function Receive(s: State, action: nat, r: Reading): State {
    s.(memory := DecideMemory(s.memory, r), trace := s.trace + [Event(action, Received(r))])
  }

  function Decide(env: Env, memory: Memory, r: Reading): Decision {
    var status := ResolveStatus(env.failsafe, Recall(memory, r.verdict.probe).unknownSince, r);
    if status == Ok || status == Unknown then Decision(r.verdict, LOG)
    else
      var promoted := if status == r.verdict.status then r.verdict
                      else Verdict(r.verdict.probe, status, r.verdict.evidence["promoted_from" := "unknown"]);
      Decision(promoted, TargetLevel(env.overrides, promoted))
  }

  function Downgrade(v: Verdict): Verdict {
    Verdict(v.probe, Warn, v.evidence["confirmed" := "False"])
  }

  // --- one action ------------------------------------------------------------

  function Stamp(action: nat, effects: seq<Effect>): (events: seq<Event>)
    ensures |events| == |effects|
  {
    seq(|effects|, i requires 0 <= i < |effects| => Event(action, effects[i]))
  }

  predicate CheckpointSaved(env: Env, n: nat) {
    env.trainer && !env.calls(n).requestRaises && env.calls(n).wait == Saved
  }

  predicate Reachable(env: Env) {
    env.runpod && env.podId != ""
  }

  predicate KillLands(env: Env, n: nat) {
    Reachable(env) && !env.calls(n).killRaises
  }

  /** Alert, flush, then kill, whichever of them raise. */
  function TerminateEffects(env: Env, n: nat, action: TerminalAction): seq<Effect> {
    var alerted := if env.wandb.Some? && env.wandb.value.hasAlert then [Alerted(env.calls(n).alertRaises)] else [];
    var flushed := if env.wandb.Some? && env.wandb.value.hasFinish
                   then alerted + [Finished(env.calls(n).finishRaises)] else alerted;
    flushed + [if Reachable(env) then Killed(action, env.calls(n).killRaises) else KillImpossible]
  }

  function CheckpointEffects(env: Env, n: nat): seq<Effect> {
    if !env.trainer then []
    else if env.calls(n).requestRaises then [CheckpointRequested(true)]
    else [CheckpointRequested(false), CheckpointWaited(env.calls(n).wait)]
  }

  /** Whether an action aimed at `target` ends up killing: L4, or an L3 that
      did not get its checkpoint. */
  predicate Kills(env: Env, n: nat, target: Level) {
    target >= TERMINATE || (target >= HALT && !CheckpointSaved(env, n))
  }

  function ExecuteEffects(env: Env, n: nat, v: Verdict, target: Level): seq<Effect> {
    var logged := [Logged(v)];
    var notified := if target >= NOTIFY then logged + [Notified(v, target)] else logged;
    var dumped := if target >= SNAPSHOT && env.diagnostics then notified + [SnapshotTaken(v)] else notified;
    var halted := if target >= HALT then dumped + CheckpointEffects(env, n) else dumped;
    if Kills(env, n, target) then halted + TerminateEffects(env, n, env.failsafe.onTerminal) else halted
  }

  function ExecuteSteps(env: Env, n: nat, target: Level): seq<Step> {
    var saved := CheckpointSaved(env, n);
    var logged := [LogStep];
    var notified := if target >= NOTIFY then logged + [NotifyStep] else logged;
    var dumped := if target >= SNAPSHOT then notified + [SnapshotStep(env.diagnostics)] else notified;
    var halted := if target >= HALT then dumped + [HaltStep(saved)] else dumped;
    var timed := if target >= HALT && !saved then halted + [HaltTimeoutStep] else halted;
    if Kills(env, n, target) then timed + [TerminateStep(env.failsafe.onTerminal)] else timed
  }

  function RecordOf(env: Env, n: nat, v: Verdict, target: Level, confirmed: bool): ActionRecord {
    ActionRecord(v, if Kills(env, n, target) then TERMINATE else target, confirmed && target != LOG,
                 ExecuteSteps(env, n, target))
  }

  function FinishMemory(memory: Memory, v: Verdict, target: Level): Memory {
    var was := Recall(memory, v.probe);
    memory[v.probe :=
      if target == LOG then was.(consecutiveFails := 0, highestLevel := LOG)
      else was.(consecutiveFails := if v.status == Fail then was.consecutiveFails + 1 else was.consecutiveFails,
                highestLevel := Max(was.highestLevel, target))]
  }

  function Finish(env: Env, s: State, v: Verdict, target: Level, confirmed: bool): State {
    var n := |s.history|;
    State(FinishMemory(s.memory, v, target),
          s.history + [RecordOf(env, n, v, target, confirmed)],
          s.haltRequested || target >= HALT,
          s.terminated || (Kills(env, n, target) && KillLands(env, n)),
          s.trace + Stamp(n, ExecuteEffects(env, n, v, target)))
  }

  /** Rule 1: without a confirmation nothing goes past L1. */
  function Settle(env: Env, s: State, d: Decision, confirmed: bool): State {
    if d.target > NOTIFY && !confirmed
    then Finish(env, s, Downgrade(d.promoted), NOTIFY, false)
    else Finish(env, s, d.promoted, d.target, confirmed)
  }

  // --- handle ----------------------------------------------------------------

  function ConfirmEvents(env: Env, n: nat, probe: Probe, poll: Poll): seq<Event> {
    [Event(n, Slept(env.failsafe.confirmDelay)), Event(n, Repolled(probe, SaysFail(poll)))]
  }

  predicate Escalates(env: Env, memory: Memory, r: Reading) {
    Decide(env, memory, r).target > NOTIFY
  }

  /** `_confirm` reads `.status` of whatever the re-poll returned, outside its
      `try`: a re-poll that returns no verdict raises out of `handle`. */
  predicate HandleCrashes(env: Env, s: State, r: Reading, recheck: Option<Poll>) {
    Escalates(env, s.memory, r) && recheck == Some(NoAnswer)
  }

  function Handle(env: Env, s: State, r: Reading, recheck: Option<Poll>): State {
    var d := Decide(env, s.memory, r);
    var decided := Receive(s, |s.history|, r);
    if d.target <= NOTIFY || recheck.None? then Settle(env, decided, d, false)
    else
      var polled := decided.(trace := decided.trace + ConfirmEvents(env, |s.history|, d.promoted.probe, recheck.value));
      if recheck.value.NoAnswer? then polled
      else Settle(env, polled, d, SaysFail(recheck.value))
  }

  // --- handle_batch ----------------------------------------------------------

  function DecideAll(env: Env, memory: Memory, rs: seq<Reading>): (ds: seq<Decision>)
    ensures |ds| == |rs|
    decreases |rs|
  {
    if rs == [] then []
    else [Decide(env, memory, rs[0])] + DecideAll(env, DecideMemory(memory, rs[0]), rs[1..])
  }

  function DecideAllMemory(memory: Memory, rs: seq<Reading>): Memory
    decreases |rs|
  {
    if rs == [] then memory else DecideAllMemory(DecideMemory(memory, rs[0]), rs[1..])
  }

  function ReceiveAll(n: nat, rs: seq<Reading>): seq<Event> {
    seq(|rs|, i requires 0 <= i < |rs| => Event(n + i, Received(rs[i])))
  }

  predicate Confirms(d: Decision, recheck: Option<Verdict -> Poll>) {
    d.target > NOTIFY && recheck.Some? && SaysFail(recheck.value(d.promoted))
  }

  predicate NeedsConfirmation(ds: seq<Decision>) {
    exists i :: 0 <= i < |ds| && ds[i].target > NOTIFY
  }

  function RepollAll(n: nat, ds: seq<Decision>, recheck: Verdict -> Poll): seq<Event>
    decreases |ds|
  {
    if ds == [] then []
    else
      var k := |ds| - 1;
      var earlier := RepollAll(n, ds[..k], recheck);
      if ds[k].target > NOTIFY
      then earlier + [Event(n + k, Repolled(ds[k].promoted.probe, SaysFail(recheck(ds[k].promoted))))]
      else earlier
  }

  /** The batch's `confirmations` dictionary: only verdicts that wanted to
      escalate have an entry. */
  function Confirmations(ds: seq<Decision>, recheck: Verdict -> Poll): map<nat, bool> {
    map k: nat | k < |ds| && ds[k].target > NOTIFY :: SaysFail(recheck(ds[k].promoted))
  }

  lemma SweepStep(n: nat, ds: seq<Decision>, recheck: Verdict -> Poll, i: nat)
    requires i < |ds|
    ensures var d := ds[i];
            var said := SaysFail(recheck(d.promoted));
            && RepollAll(n, ds[..i + 1], recheck) == RepollAll(n, ds[..i], recheck)
                 + (if d.target > NOTIFY then [Event(n + i, Repolled(d.promoted.probe, said))] else [])
            && Confirmations(ds[..i + 1], recheck) ==
                 if d.target > NOTIFY then Confirmations(ds[..i], recheck)[i := said]
                 else Confirmations(ds[..i], recheck)
  {
    assert ds[..i + 1][..i] == ds[..i];
  }

  function BatchConfirmEvents(env: Env, n: nat, ds: seq<Decision>, recheck: Option<Verdict -> Poll>): seq<Event> {
    if NeedsConfirmation(ds) && recheck.Some?
    then [Event(n, Slept(env.failsafe.confirmDelay))] + RepollAll(n, ds, recheck.value)
    else []
  }

  function SettleAll(env: Env, s: State, ds: seq<Decision>, recheck: Option<Verdict -> Poll>): State
    decreases |ds|
  {
    if ds == [] then s
    else SettleAll(env, Settle(env, s, ds[0], Confirms(ds[0], recheck)), ds[1..], recheck)
  }

  function Batch(env: Env, s: State, rs: seq<Reading>, recheck: Option<Verdict -> Poll>): State {
    var ds := DecideAll(env, s.memory, rs);
    var decided := s.(memory := DecideAllMemory(s.memory, rs), trace := s.trace + ReceiveAll(|s.history|, rs));
    var polled := decided.(trace := decided.trace + BatchConfirmEvents(env, |s.history|, ds, recheck));
    SettleAll(env, polled, ds, recheck)
  }

  // --- shutdown --------------------------------------------------------------

  function ShutdownVerdict(crashed: bool): Verdict {
    Verdict(ShutdownGuard, if crashed then Fail else Ok, map[])
  }

  function ChosenAction(env: Env, action: Option<TerminalAction>): TerminalAction {
    if action.Some? then action.value else env.failsafe.onTerminal
  }

  /** The checkpoint is requested but not waited for. `crashed` says whether the
      reason given contains the word "crash". */
  function ShutdownEffects(env: Env, n: nat, crashed: bool, action: TerminalAction): seq<Effect> {
    var called := [ShutdownCalled(action)];
    var requested := if env.trainer then called + [CheckpointRequested(env.calls(n).requestRaises)] else called;
    requested + [Notified(ShutdownVerdict(crashed), TERMINATE)] + TerminateEffects(env, n, action)
  }

  function Shutdown(env: Env, s: State, crashed: bool, action: Option<TerminalAction>): State {
    var n := |s.history|;
    var act := ChosenAction(env, action);
    s.(history := s.history + [ActionRecord(ShutdownVerdict(crashed), TERMINATE, true,
                                            [LogStep, NotifyStep, TerminateStep(act)])],
       terminated := s.terminated || KillLands(env, n),
       trace := s.trace + Stamp(n, ShutdownEffects(env, n, crashed, act)))
  }
}
