/** The order of things on the way down, in every action of every run. */
module LadderOrder {
  import opened Verdicts
  import opened Config
  import opened Ladder
  import opened BatchRefinement
  import opened LadderTraces
  import opened LadderInvariant
  import opened LadderRuns

  /** Where an effect stands in its action. A shutdown asks for the checkpoint
      before it notifies; a handled verdict the other way round. */
  function Stage(shutdown: bool, e: Effect): nat {
    match e
    case Logged(_) | ShutdownCalled(_) => 0
    case Notified(_, _) => if shutdown then 2 else 1
    case SnapshotTaken(_) => 2
    case CheckpointRequested(_) => if shutdown then 1 else 3
    case CheckpointWaited(_) => 4
    case Alerted(_) => 5
    case Finished(_) => 6
    case Killed(_, _) | KillImpossible => 7
    case Received(_) | Slept(_) | Repolled(_, _) => 8
  }

  /** The stages the n-th action may not skip on its way further down, given what
      it has to work with: a request that was taken must be waited for. */
  predicate Due(env: Env, n: nat, shutdown: bool, stage: nat) {
    match stage
    case 0 => true
    case 1 => !shutdown || env.trainer
    case 2 => shutdown || env.diagnostics
    case 3 => !shutdown && env.trainer
    case 4 => !shutdown && env.trainer && !env.calls(n).requestRaises
    case 5 => env.wandb.Some? && env.wandb.value.hasAlert
    case 6 => env.wandb.Some? && env.wandb.value.hasFinish
    case 7 => true
    case _ => false
  }

  /** Stages strictly increase, and none that was due before an effect is missing. */
  ghost predicate Staged(env: Env, n: nat, shutdown: bool, effects: seq<Effect>) {
    && (forall i, j :: 0 <= i < j < |effects| ==> Stage(shutdown, effects[i]) < Stage(shutdown, effects[j]))
    && (forall k, g: nat :: 0 <= k < |effects| && g < Stage(shutdown, effects[k]) && Due(env, n, shutdown, g) ==>
          exists j :: 0 <= j < k && Stage(shutdown, effects[j]) == g)
  }

  /** In order so far, with every due stage below `upto` done and none beyond it. */
  ghost predicate Ready(env: Env, n: nat, shutdown: bool, effects: seq<Effect>, upto: nat) {
    && Staged(env, n, shutdown, effects)
    && (forall i :: 0 <= i < |effects| ==> Stage(shutdown, effects[i]) < upto)
    && (forall g: nat :: g < upto && Due(env, n, shutdown, g) ==>
          exists j :: 0 <= j < |effects| && Stage(shutdown, effects[j]) == g)
  }

  lemma Take(env: Env, n: nat, shutdown: bool, effects: seq<Effect>, upto: nat, e: Effect)
    requires Ready(env, n, shutdown, effects, upto) && Stage(shutdown, e) == upto
    ensures Ready(env, n, shutdown, effects + [e], upto + 1)
  {
    hide Stage, Due;
    var more := effects + [e];
    assert forall i :: 0 <= i < |effects| ==> more[i] == effects[i];
    forall g: nat | g < upto + 1 && Due(env, n, shutdown, g)
      ensures exists j :: 0 <= j < |more| && Stage(shutdown, more[j]) == g
    {
      if g == upto {
        assert Stage(shutdown, more[|effects|]) == g;
      } else {
        var j :| 0 <= j < |effects| && Stage(shutdown, effects[j]) == g;
        assert Stage(shutdown, more[j]) == g;
      }
    }
    forall k, g: nat | 0 <= k < |more| && g < Stage(shutdown, more[k]) && Due(env, n, shutdown, g)
      ensures exists j :: 0 <= j < k && Stage(shutdown, more[j]) == g
    {
      if k < |effects| {
        var j :| 0 <= j < k && Stage(shutdown, effects[j]) == g;
        assert Stage(shutdown, more[j]) == g;
      } else {
        var j :| 0 <= j < |effects| && Stage(shutdown, effects[j]) == g;
        assert Stage(shutdown, more[j]) == g;
      }
    }
  }

  lemma Skip(env: Env, n: nat, shutdown: bool, effects: seq<Effect>, upto: nat)
    requires Ready(env, n, shutdown, effects, upto) && !Due(env, n, shutdown, upto)
    ensures Ready(env, n, shutdown, effects, upto + 1)
  {
  }

  /** Alert, flush, kill: stages 5 to 7, on top of anything that got that far. */
  lemma TerminateIsStaged(env: Env, n: nat, shutdown: bool, action: TerminalAction, before: seq<Effect>)
    requires Ready(env, n, shutdown, before, 5)
    ensures Staged(env, n, shutdown, before + TerminateEffects(env, n, action))
  {
    hide Ready, Staged;
    var alert, flush := Alerted(env.calls(n).alertRaises), Finished(env.calls(n).finishRaises);
    var alerted := if Due(env, n, shutdown, 5) then [alert] else [];
    if Due(env, n, shutdown, 5) {
      Take(env, n, shutdown, before, 5, alert);
    } else {
      Skip(env, n, shutdown, before, 5);
      assert before + alerted == before;
    }
    var flushed := if Due(env, n, shutdown, 6) then alerted + [flush] else alerted;
    if Due(env, n, shutdown, 6) {
      Take(env, n, shutdown, before + alerted, 6, flush);
      assert before + alerted + [flush] == before + flushed;
    } else {
      Skip(env, n, shutdown, before + alerted, 6);
    }
    var kill := if Reachable(env) then Killed(action, env.calls(n).killRaises) else KillImpossible;
    Take(env, n, shutdown, before + flushed, 7, kill);
    assert before + TerminateEffects(env, n, action) == before + flushed + [kill];
    ReadyIsStaged(env, n, shutdown, before + flushed + [kill], 8);
  }

  lemma ReadyIsStaged(env: Env, n: nat, shutdown: bool, effects: seq<Effect>, upto: nat)
    requires Ready(env, n, shutdown, effects, upto)
    ensures Staged(env, n, shutdown, effects)
  {
  }

  lemma NothingIsReady(env: Env, n: nat, shutdown: bool)
    ensures Ready(env, n, shutdown, [], 0)
  {
  }

  lemma CheckpointIsReady(env: Env, n: nat, before: seq<Effect>)
    requires Ready(env, n, false, before, 3)
    ensures Ready(env, n, false, before + CheckpointEffects(env, n), 5)
  {
    hide Ready;
    var asked := CheckpointRequested(env.calls(n).requestRaises);
    if !env.trainer {
      Skip(env, n, false, before, 3);
      Skip(env, n, false, before, 4);
      assert before + CheckpointEffects(env, n) == before;
    } else {
      Take(env, n, false, before, 3, asked);
      if env.calls(n).requestRaises {
        Skip(env, n, false, before + [asked], 4);
      } else {
        Take(env, n, false, before + [asked], 4, CheckpointWaited(env.calls(n).wait));
        assert before + [asked] + [CheckpointWaited(env.calls(n).wait)] == before + CheckpointEffects(env, n);
      }
    }
  }

  /** Log, notify, snapshot: stages 0 to 2. */
  lemma ReportIsReady(env: Env, n: nat, v: Verdict, target: Level) returns (notified: seq<Effect>, dumped: seq<Effect>)
    requires target >= NOTIFY
    ensures notified == [Logged(v)] + [Notified(v, target)] && Ready(env, n, false, notified, 2)
    ensures dumped == (if env.diagnostics then notified + [SnapshotTaken(v)] else notified)
    ensures Ready(env, n, false, dumped, 3)
  {
    NothingIsReady(env, n, false);
    hide Ready;
    Take(env, n, false, [], 0, Logged(v));
    assert [] + [Logged(v)] == [Logged(v)];
    notified := [Logged(v)] + [Notified(v, target)];
    Take(env, n, false, [Logged(v)], 1, Notified(v, target));
    dumped := if env.diagnostics then notified + [SnapshotTaken(v)] else notified;
    if env.diagnostics {
      Take(env, n, false, notified, 2, SnapshotTaken(v));
    } else {
      Skip(env, n, false, notified, 2);
    }
  }

  lemma ExecutionIsStaged(env: Env, n: nat, v: Verdict, target: Level)
    ensures Staged(env, n, false, ExecuteEffects(env, n, v, target))
  {
    if target >= NOTIFY {
      var notified, dumped := ReportIsReady(env, n, v, target);
      ReadyIsStaged(env, n, false, notified, 2);
      ReadyIsStaged(env, n, false, dumped, 3);
      CheckpointIsReady(env, n, dumped);
      var halted := dumped + CheckpointEffects(env, n);
      ReadyIsStaged(env, n, false, halted, 5);
      TerminateIsStaged(env, n, false, env.failsafe.onTerminal, halted);
      hide Ready, Staged, CheckpointEffects, TerminateEffects, CheckpointSaved;
      assert ExecuteEffects(env, n, v, target) ==
        if target < SNAPSHOT then notified
        else if target < HALT then dumped
        else if Kills(env, n, target) then halted + TerminateEffects(env, n, env.failsafe.onTerminal)
        else halted;
    }
  }

  lemma ShutdownIsStaged(env: Env, n: nat, crashed: bool, action: TerminalAction)
    ensures Staged(env, n, true, ShutdownEffects(env, n, crashed, action))
  {
    hide Ready, Staged, TerminateEffects;
    var called := [ShutdownCalled(action)];
    var asked := CheckpointRequested(env.calls(n).requestRaises);
    NothingIsReady(env, n, true);
    Take(env, n, true, [], 0, ShutdownCalled(action));
    assert [] + called == called;
    var requested := if env.trainer then called + [asked] else called;
    if env.trainer {
      Take(env, n, true, called, 1, asked);
    } else {
      Skip(env, n, true, called, 1);
    }
    var notified := requested + [Notified(ShutdownVerdict(crashed), TERMINATE)];
    Take(env, n, true, requested, 2, Notified(ShutdownVerdict(crashed), TERMINATE));
    Skip(env, n, true, notified, 3);
    Skip(env, n, true, notified, 4);
    TerminateIsStaged(env, n, true, action, notified);
  }

  /** Checkpoint, then alert, then flush, then kill: in every action of every run,
      whatever raises along the way. */
  lemma OrderOnTheWayDown(env: Env, ops: seq<Op>, a: nat)
    requires a < |Run(env, ops).history|
    ensures Staged(env, a, IsShutdown(Run(env, ops).history[a]), Of(Run(env, ops).trace, a))
  {
    RunIsGood(env, ops);
    var s := Run(env, ops);
    var r := s.history[a];
    if IsShutdown(r) {
      assert ShutExactly(env, s, a);
      ShutdownIsStaged(env, a, r.verdict.status == Fail, r.steps[2].action);
    } else {
      assert HandledExactly(env, s, a);
      ExecutionIsStaged(env, a, r.verdict, Aim(env, r));
    }
  }

  ghost predicate KillEnds(env: Env, did: seq<Effect>, k: nat) {
    && k == |did| - 1
    && (env.wandb.Some? && env.wandb.value.hasAlert ==> exists i :: 0 <= i < k && did[i].Alerted?)
    && (env.wandb.Some? && env.wandb.value.hasFinish ==>
          exists j :: 0 <= j < k && did[j].Finished? && forall i :: j < i < k ==> !did[i].Alerted?)
  }

  lemma StagesByKind(shutdown: bool, e: Effect)
    requires !Hidden(e)
    ensures Stage(shutdown, e) <= 7
    ensures Stage(shutdown, e) == 5 <==> e.Alerted?
    ensures Stage(shutdown, e) == 6 <==> e.Finished?
    ensures Stage(shutdown, e) == 7 <==> e.Killed? || e.KillImpossible?
  {
  }

  lemma StagedKillEnds(env: Env, n: nat, shutdown: bool, did: seq<Effect>, k: nat)
    requires Staged(env, n, shutdown, did) && forall i :: 0 <= i < |did| ==> !Hidden(did[i])
    requires k < |did| && (did[k].Killed? || did[k].KillImpossible?)
    ensures KillEnds(env, did, k)
  {
    forall i | 0 <= i < |did|
      ensures Stage(shutdown, did[i]) <= 7
      ensures Stage(shutdown, did[i]) == 5 <==> did[i].Alerted?
      ensures Stage(shutdown, did[i]) == 6 <==> did[i].Finished?
    {
      StagesByKind(shutdown, did[i]);
    }
    StagesByKind(shutdown, did[k]);
    hide Stage, Hidden;
    var last := |did| - 1;
    assert Stage(shutdown, did[last]) <= 7;
    assert k == last;
    assert Due(env, n, shutdown, 5) ==> exists i :: 0 <= i < k && Stage(shutdown, did[i]) == 5;
    assert Due(env, n, shutdown, 6) ==> exists i :: 0 <= i < k && Stage(shutdown, did[i]) == 6;
  }

  /** Every kill comes last in its action, after that action's own alert and
      flush have been attempted. */
  lemma KillFollowsItsFlush(env: Env, ops: seq<Op>, a: nat, k: nat)
    requires a < |Run(env, ops).history|
    requires k < |Of(Run(env, ops).trace, a)|
    requires Of(Run(env, ops).trace, a)[k].Killed? || Of(Run(env, ops).trace, a)[k].KillImpossible?
    ensures KillEnds(env, Of(Run(env, ops).trace, a), k)
  {
    OrderOnTheWayDown(env, ops, a);
    hide Staged, KillEnds;
    OnlyVisible(Run(env, ops).trace, a);
    StagedKillEnds(env, a, IsShutdown(Run(env, ops).history[a]), Of(Run(env, ops).trace, a), k);
  }

  lemma {:induction false} OnlyVisible(trace: seq<Event>, a: nat)
    ensures forall i :: 0 <= i < |Of(trace, a)| ==> !Hidden(Of(trace, a)[i])
  {
    if trace != [] {
      OnlyVisible(trace[..|trace| - 1], a);
    }
  }
}
