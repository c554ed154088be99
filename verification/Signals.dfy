/** SIGTERM and SIGINT on the main thread, wherever they land in `attach`. */
module Signals {
  import opened Verdicts
  import opened Config
  import opened Ladder
  import opened Escalation
  import opened WatchdogTick
  import R = SentinelRuns
  import Gate

  /** Where the main thread is when the signal lands. It is inside a call to the ladder
      only in the gate's enforcement and in the block's own exit; `cut` is how many of
      that call's effects have happened, and `latched` whether it got as far as setting
      `terminated`. A call that was cut never resumes: the handler raises. `InProbes` is
      anything before the block, and `InStop` anything in its exit, outside such calls. */
  datatype Landing =
    | InProbes
    | InGateHandle(failure: Verdict, at: real, memory: Memory, cut: nat)
    | InGateShutdown(failure: Verdict, onFailure: TerminalAction, cut: nat, latched: bool)
    | InBody
    | InStop
    | InExitShutdown(exit: Exit, cut: nat, latched: bool)

  /** All the effects of the call the main thread is in, if it is in one. */
  function Underway(env: Env, s: State, landing: Landing): seq<Effect> {
    var n := |s.history|;
    match landing
    case InProbes | InBody | InStop => []
    case InGateHandle(failure, at, _, _) =>
      var d := Decide(env, s.memory, Reading(failure, at));
      if d.target > NOTIFY then ExecuteEffects(env, n, Downgrade(d.promoted), NOTIFY)
      else ExecuteEffects(env, n, d.promoted, d.target)
    case InGateShutdown(failure, onFailure, _, _) =>
      ShutdownEffects(env, n, Gate.NamesACrash(failure.probe), onFailure)
    case InExitShutdown(exit, _, _) =>
      ShutdownEffects(env, n, exit.CrashedWith?, env.failsafe.onTerminal)
  }

  function CutAt(landing: Landing): nat {
    match landing
    case InProbes | InBody | InStop => 0
    case InGateHandle(_, _, _, cut) => cut
    case InGateShutdown(_, _, cut, _) => cut
    case InExitShutdown(_, cut, _) => cut
  }

  predicate Latched(landing: Landing) {
    match landing
    case InGateShutdown(_, _, _, latched) => latched
    case InExitShutdown(_, _, latched) => latched
    case _ => false
  }

  /** The cut lies within the call, and the latch is set only after a kill that
      came back. */
  predicate Possible(env: Env, s: State, landing: Landing) {
    && CutAt(landing) <= |Underway(env, s, landing)|
    && (Latched(landing) ==> CutAt(landing) == |Underway(env, s, landing)| && KillLands(env, |s.history|))
  }

  /** What the cut call has done to the ladder: no record yet. */
  function Cut(env: Env, s: State, landing: Landing): State
    requires Possible(env, s, landing)
  {
    var n, done := |s.history|, Underway(env, s, landing)[..CutAt(landing)];
    match landing
    case InProbes | InBody | InStop => s
    case InGateHandle(failure, at, memory, _) =>
      var heard := Receive(s, n, Reading(failure, at));
      heard.(memory := memory, trace := heard.trace + Stamp(n, done))
    case InGateShutdown(_, _, _, latched) =>
      s.(terminated := s.terminated || latched, trace := s.trace + Stamp(n, done))
    case InExitShutdown(_, _, latched) =>
      s.(terminated := s.terminated || latched, trace := s.trace + Stamp(n, done))
  }

  /** The handler's shutdown, whose calls turn out by `later`. */
  function Handled(env: Env, later: nat -> Calls, s: State, landing: Landing): State
    requires Possible(env, s, landing)
  {
    Shutdown(env.(calls := later), Cut(env, s, landing), false, None)
  }

  /** Everything the signal leads to: SystemExit unwinds into the block's exit only
      from the block's body. */
  function Signalled(env: Env, later: nat -> Calls, s: State, landing: Landing): State
    requires Possible(env, s, landing)
  {
    var handled := Handled(env, later, s, landing);
    if landing.InBody? then Shutdown(env.(calls := later), handled, true, None) else handled
  }

  /** The same on the object, when the signal cuts no call to it. */
  method Signal(ladder: EscalationLadder, landing: Landing)
    requires ladder.Valid() && (landing.InProbes? || landing.InBody? || landing.InStop?)
    modifies ladder
    ensures ladder.Valid()
    ensures ladder.Abs() == Signalled(ladder.env, ladder.env.calls, old(ladder.Abs()), landing)
  {
    ladder.Shutdown(false, None);
    if landing.InBody? {
      Leave(ladder, CrashedWith("SystemExit"));
    }
  }

  /** A cut call leaves the beginning of what the whole call would have left, as many
      effects of it as were made; no record, no halt, and the termination latch only if
      the whole call would have set it. */
  lemma CutIsABeginning(env: Env, s: State, landing: Landing)
    requires Possible(env, s, landing)
    ensures var c := Cut(env, s, landing);
            && c.history == s.history && c.haltRequested == s.haltRequested
            && match landing
               case InProbes | InBody | InStop => c == s
               case InGateHandle(failure, at, memory, cut) =>
                 && c.memory == memory && c.terminated == s.terminated
                 && |c.trace| == |s.trace| + 1 + cut
                 && R.Grows(c.trace, Handle(env, s, Reading(failure, at), None).trace)
               case InGateShutdown(failure, onFailure, cut, latched) =>
                 var whole := Shutdown(env, s, Gate.NamesACrash(failure.probe), Some(onFailure));
                 && c.memory == s.memory && |c.trace| == |s.trace| + cut && R.Grows(c.trace, whole.trace)
                 && (c.terminated <==> s.terminated || latched)
                 && (latched ==> c.trace == whole.trace && whole.terminated)
               case InExitShutdown(exit, cut, latched) =>
                 var whole := Shutdown(env, s, exit.CrashedWith?, None);
                 && c.memory == s.memory && |c.trace| == |s.trace| + cut && R.Grows(c.trace, whole.trace)
                 && (c.terminated <==> s.terminated || latched)
                 && (latched ==> c.trace == whole.trace && whole.terminated)
  {
    var n, all, cut := |s.history|, Underway(env, s, landing), CutAt(landing);
    StampsBegin(n, all, cut);
    match landing {
      case InGateHandle(failure, at, _, _) =>
        var heard := Receive(s, n, Reading(failure, at));
        hide Decide, ExecuteEffects;
        assert Handle(env, s, Reading(failure, at), None).trace == heard.trace + Stamp(n, all);
      case _ =>
        hide ShutdownEffects;
    }
  }

  lemma StampsBegin(n: nat, all: seq<Effect>, cut: nat)
    requires cut <= |all|
    ensures Stamp(n, all[..cut]) == Stamp(n, all)[..cut]
    ensures cut == |all| ==> Stamp(n, all[..cut]) == Stamp(n, all)
  {
  }

  // --- records --------------------------------------------------------------------------------

  /** The handler always files its shutdown, as no crash. A second record is filed
      exactly when the signal landed in the body: the exit's, as a crash. What was cut
      files none. */
  lemma SignalRecords(env: Env, later: nat -> Calls, s: State, landing: Landing)
    requires Possible(env, s, landing)
    ensures var t := Signalled(env, later, s, landing);
            var n := |s.history|;
            var steps := [LogStep, NotifyStep, TerminateStep(env.failsafe.onTerminal)];
            && |t.history| == n + (if landing.InBody? then 2 else 1) && t.history[..n] == s.history
            && t.history[n] == ActionRecord(Verdict(ShutdownGuard, Ok, map[]), TERMINATE, true, steps)
            && (landing.InBody? ==>
                  t.history[n + 1] == ActionRecord(Verdict(ShutdownGuard, Fail, map[]), TERMINATE, true, steps))
  {
    hide Underway, Possible, Stamp;
  }

  // --- attempts -------------------------------------------------------------------------------

  /** How often `_terminate` got as far as the kill. */
  function Attempts(trace: seq<Event>): nat {
    if trace == [] then 0
    else Attempts(trace[..|trace| - 1]) + if R.IsKill(trace[|trace| - 1].effect) then 1 else 0
  }

  function KillsIn(effects: seq<Effect>): nat {
    if effects == [] then 0
    else KillsIn(effects[..|effects| - 1]) + if R.IsKill(effects[|effects| - 1]) then 1 else 0
  }

  lemma {:induction false} AttemptsAppend(trace: seq<Event>, n: nat, effects: seq<Effect>)
    ensures Attempts(trace + Stamp(n, effects)) == Attempts(trace) + KillsIn(effects)
  {
    if effects == [] {
      assert trace + Stamp(n, effects) == trace;
    } else {
      var k := |effects| - 1;
      AttemptsAppend(trace, n, effects[..k]);
      var all := trace + Stamp(n, effects);
      assert all[..|all| - 1] == trace + Stamp(n, effects[..k]) && all[|all| - 1].effect == effects[k];
      hide Stamp;
    }
  }

  lemma {:induction false} NoKills(effects: seq<Effect>)
    requires forall i :: 0 <= i < |effects| ==> !R.IsKill(effects[i])
    ensures KillsIn(effects) == 0
  {
    if effects != [] {
      NoKills(effects[..|effects| - 1]);
    }
  }

  /** A shutdown attempts one kill, and does it last. */
  lemma KillComesLast(env: Env, n: nat, crashed: bool, action: TerminalAction, cut: nat)
    requires cut <= |ShutdownEffects(env, n, crashed, action)|
    ensures var all := ShutdownEffects(env, n, crashed, action);
            && |all| > 0 && R.IsKill(all[|all| - 1])
            && KillsIn(all[..cut]) == if cut == |all| then 1 else 0
  {
    var all := ShutdownEffects(env, n, crashed, action);
    assert R.IsKill(all[|all| - 1]);
    var before := all[..|all| - 1];
    assert forall i :: 0 <= i < |before| ==> !R.IsKill(before[i]);
    hide ShutdownEffects;
    NoKills(before);
    if cut < |all| {
      assert all[..cut] == before[..cut];
      NoKills(before[..cut]);
    } else {
      assert all[..cut] == all && all[..|all| - 1] == before;
    }
  }

  lemma ShutdownAttempts(env: Env, s: State, crashed: bool, action: Option<TerminalAction>)
    ensures Attempts(Shutdown(env, s, crashed, action).trace) == Attempts(s.trace) + 1
  {
    var n, act := |s.history|, ChosenAction(env, action);
    var effects := ShutdownEffects(env, n, crashed, act);
    KillComesLast(env, n, crashed, act, |effects|);
    assert effects[..|effects|] == effects;
    AttemptsAppend(s.trace, n, effects);
  }

  /** What was cut had got as far as its own kill. */
  predicate KilledAlready(env: Env, s: State, landing: Landing) {
    (landing.InGateShutdown? || landing.InExitShutdown?) && CutAt(landing) == |Underway(env, s, landing)|
  }

  lemma HearingAttemptsNothing(s: State, n: nat, r: Reading)
    ensures Attempts(Receive(s, n, r).trace) == Attempts(s.trace)
  {
    var t := Receive(s, n, r).trace;
    assert t[..|t| - 1] == s.trace;
  }

  lemma MessagesKillNothing(env: Env, n: nat, v: Verdict, target: Level, cut: nat)
    requires target <= NOTIFY && cut <= |ExecuteEffects(env, n, v, target)|
    ensures KillsIn(ExecuteEffects(env, n, v, target)[..cut]) == 0
  {
    var all := ExecuteEffects(env, n, v, target);
    assert forall i :: 0 <= i < |all| ==> !R.IsKill(all[i]);
    hide ExecuteEffects;
    NoKills(all[..cut]);
  }

  lemma CutAttempts(env: Env, s: State, landing: Landing)
    requires Possible(env, s, landing)
    ensures Attempts(Cut(env, s, landing).trace) ==
              Attempts(s.trace) + if KilledAlready(env, s, landing) then 1 else 0
  {
    var n, all, cut := |s.history|, Underway(env, s, landing), CutAt(landing);
    hide ShutdownEffects, ExecuteEffects;
    match landing {
      case InGateHandle(failure, at, _, _) =>
        var d, heard := Decide(env, s.memory, Reading(failure, at)), Receive(s, n, Reading(failure, at));
        var v := if d.target > NOTIFY then Downgrade(d.promoted) else d.promoted;
        MessagesKillNothing(env, n, v, if d.target > NOTIFY then NOTIFY else d.target, cut);
        HearingAttemptsNothing(s, n, Reading(failure, at));
        AttemptsAppend(heard.trace, n, all[..cut]);
      case InGateShutdown(failure, onFailure, _, _) =>
        KillComesLast(env, n, Gate.NamesACrash(failure.probe), onFailure, cut);
        AttemptsAppend(s.trace, n, all[..cut]);
      case InExitShutdown(exit, _, _) =>
        KillComesLast(env, n, exit.CrashedWith?, env.failsafe.onTerminal, cut);
        AttemptsAppend(s.trace, n, all[..cut]);
      case _ =>
    }
  }

  /** The pod is never left alone: wherever the signal lands there is an attempt to
      kill it, by the steady-state policy, after the landing. Kills are not at most
      once either: there are two attempts if and only if the signal lands in the block's
      body, or cuts a shutdown that has already made its own. */
  lemma SignalAttempts(env: Env, later: nat -> Calls, s: State, landing: Landing)
    requires Possible(env, s, landing)
    ensures var made := Attempts(Signalled(env, later, s, landing).trace) - Attempts(s.trace);
            && 1 <= made <= 2
            && (made == 2 <==> landing.InBody? || KilledAlready(env, s, landing))
    ensures R.KillAttempted(Cut(env, s, landing).trace, Handled(env, later, s, landing).trace)
    ensures Signalled(env, later, s, landing).terminated <==>
              || s.terminated || Latched(landing)
              || KillLands(env.(calls := later), |s.history|)
              || (landing.InBody? && KillLands(env.(calls := later), |s.history| + 1))
  {
    var cut := Cut(env, s, landing);
    var outside := env.(calls := later);
    CutAttempts(env, s, landing);
    CutKeepsTheRest(env, s, landing);
    R.ShutdownKills(outside, cut, false, None);
    ShutdownAttempts(outside, cut, false, None);
    ShutdownAttempts(outside, Shutdown(outside, cut, false, None), true, None);
    hide Cut, Possible, KilledAlready, R.KillAttempted, Attempts, ShutdownEffects, Latched;
  }

  lemma CutKeepsTheRest(env: Env, s: State, landing: Landing)
    requires Possible(env, s, landing)
    ensures Cut(env, s, landing).history == s.history
    ensures Cut(env, s, landing).terminated <==> s.terminated || Latched(landing)
  {
    hide Underway, Possible, Stamp;
  }
}
