/** The ladder as the object it is: fields updated in place, call by call. */
module Escalation {
  import opened Verdicts
  import opened Config
  import opened Ladder

  class EscalationLadder {
    const env: Env
    var memory: Memory
    var history: seq<ActionRecord>
    var haltRequested: bool
    var terminated: bool
    ghost var trace: seq<Event>
    ghost var current: seq<Effect>  // effects of the action under way

    ghost function Abs(): State
      reads this
    {
      State(memory, history, haltRequested, terminated, trace)
    }

    constructor (env: Env)
      ensures this.env == env && Valid() && Abs() == START
    {
      this.env := env;
      memory, history, haltRequested, terminated, trace, current := map[], [], false, false, [], [];
    }

    /** Between calls no action is half done. */
    ghost predicate Valid()
      reads this
    {
      current == []
    }

    /** Files the effects of the action under way in the trace. */
    ghost method CloseAction()
      modifies this`trace, this`current
      ensures current == [] && trace == old(trace) + Stamp(|history|, old(current))
    {
      trace := trace + Stamp(|history|, current);
      current := [];
    }

    method ResolveStatus(r: Reading) returns (status: Status)
      modifies this`memory
      ensures memory == DecideMemory(old(memory), r)
      ensures status == Ladder.ResolveStatus(env.failsafe, Recall(old(memory), r.verdict.probe).unknownSince, r)
    {
      var probe := r.verdict.probe;
      var state := Recall(memory, probe);
      if r.verdict.status != Unknown {
        memory := memory[probe := state.(unknownSince := None)];
        return r.verdict.status;
      }
      if state.unknownSince.None? {
        memory := memory[probe := state.(unknownSince := Some(r.at))];
        return Unknown;
      }
      memory := memory[probe := state];
      if r.at - state.unknownSince.value >= env.failsafe.unknownTolerance {
        return Warn;
      }
      return Unknown;
    }

    method Decide(ghost action: nat, r: Reading) returns (d: Decision)
      modifies this`memory, this`trace
      ensures trace == old(trace) + [Event(action, Received(r))]
      ensures memory == DecideMemory(old(memory), r)
      ensures d == Ladder.Decide(env, old(memory), r)
      ensures r.verdict.status == Ok ==> d == Decision(r.verdict, LOG)
      ensures r.verdict.status == Warn ==> d == Decision(r.verdict, NOTIFY)
      ensures r.verdict.status == Fail ==>
                d == Decision(r.verdict, if r.verdict.probe in env.overrides then env.overrides[r.verdict.probe]
                                         else DefaultLevel(r.verdict.probe))
      ensures r.verdict.status == Unknown ==> d.target <= NOTIFY && d.promoted.status != Fail
    {
      trace := trace + [Event(action, Received(r))];
      var effective := ResolveStatus(r);
      if effective == Ok || effective == Unknown {
        return Decision(r.verdict, LOG);
      }
      var promoted := r.verdict;
      if effective != r.verdict.status {
        promoted := Verdict(r.verdict.probe, effective, r.verdict.evidence["promoted_from" := "unknown"]);
      }
      return Decision(promoted, TargetLevel(env.overrides, promoted));
    }

    // --- calls to the outside, each of which may raise ---

    method RequestCheckpoint() returns (result: Outcome<()>)
      modifies this`current
      ensures current == old(current) + [CheckpointRequested(env.calls(|history|).requestRaises)]
      ensures result.Crashed? <==> env.calls(|history|).requestRaises
    {
      var raises := env.calls(|history|).requestRaises;
      current := current + [CheckpointRequested(raises)];
      return if raises then Crashed else Returned(());
    }

    method WaitForCheckpoint() returns (saved: Outcome<bool>)
      modifies this`current
      ensures current == old(current) + [CheckpointWaited(env.calls(|history|).wait)]
      ensures saved == match env.calls(|history|).wait
                       case Saved => Returned(true)
                       case TimedOut => Returned(false)
                       case WaitRaised => Crashed
    {
      var outcome := env.calls(|history|).wait;
      current := current + [CheckpointWaited(outcome)];
      match outcome
      case Saved => return Returned(true);
      case TimedOut => return Returned(false);
      case WaitRaised => return Crashed;
    }

    method Alert() returns (result: Outcome<()>)
      modifies this`current
      ensures current == old(current) + [Alerted(env.calls(|history|).alertRaises)]
      ensures result.Crashed? <==> env.calls(|history|).alertRaises
    {
      var raises := env.calls(|history|).alertRaises;
      current := current + [Alerted(raises)];
      return if raises then Crashed else Returned(());
    }

    method FinishRun() returns (result: Outcome<()>)
      modifies this`current
      ensures current == old(current) + [Finished(env.calls(|history|).finishRaises)]
      ensures result.Crashed? <==> env.calls(|history|).finishRaises
    {
      var raises := env.calls(|history|).finishRaises;
      current := current + [Finished(raises)];
      return if raises then Crashed else Returned(());
    }

    method Kill(action: TerminalAction) returns (result: Outcome<()>)
      modifies this`current
      ensures current == old(current) + [Killed(action, env.calls(|history|).killRaises)]
      ensures result.Crashed? <==> env.calls(|history|).killRaises
    {
      var raises := env.calls(|history|).killRaises;
      current := current + [Killed(action, raises)];
      return if raises then Crashed else Returned(());
    }

    // --- what the ladder does with them ---

    method CheckpointAndHalt() returns (saved: bool)
      modifies this`current
      ensures saved == CheckpointSaved(env, |history|)
      ensures current == old(current) + CheckpointEffects(env, |history|)
    {
      if !env.trainer {
        return false;
      }
      var requested := RequestCheckpoint();
      if requested.Crashed? {
        return false;
      }
      var waited := WaitForCheckpoint();
      if waited.Crashed? {
        return false;
      }
      return waited.value;
    }

    /** Whatever alert and flush come to, the kill is attempted; the latch is set
        only when it comes back. */
    method TerminatePod(action: Option<TerminalAction>)
      modifies this`current, this`terminated
      ensures terminated == (old(terminated) || KillLands(env, |history|))
      ensures current == old(current) + TerminateEffects(env, |history|, ChosenAction(env, action))
    {
      if env.wandb.Some? {
        if env.wandb.value.hasAlert {
          var alerted := Alert();
        }
        if env.wandb.value.hasFinish {
          var finished := FinishRun();
        }
      }
      var chosen := if action.Some? then action.value else env.failsafe.onTerminal;
      if !env.runpod || env.podId == "" {
        current := current + [KillImpossible];
        return;
      }
      var killed := Kill(chosen);
      if killed.Returned? {
        terminated := true;
      }
    }

    method Execute(initial: ActionRecord) returns (record: ActionRecord)
      requires initial.steps == [] && initial.level >= NOTIFY && current == []
      modifies this`current, this`terminated, this`haltRequested
      ensures record == RecordOf(env, |history|, initial.verdict, initial.level, initial.confirmed)
      ensures haltRequested == (old(haltRequested) || initial.level >= HALT)
      ensures terminated == (old(terminated) || (Kills(env, |history|, initial.level) && KillLands(env, |history|)))
      ensures current == ExecuteEffects(env, |history|, initial.verdict, initial.level)
    {
      record := initial;
      var verdict, target := record.verdict, record.level;

      current := [Logged(verdict)];
      record := record.(steps := [LogStep]);
      current := current + [Notified(verdict, target)];
      record := record.(steps := record.steps + [NotifyStep]);
      if target >= SNAPSHOT {
        if env.diagnostics {
          current := current + [SnapshotTaken(verdict)];
        }
        record := record.(steps := record.steps + [SnapshotStep(env.diagnostics)]);
      }
      if target >= HALT {
        haltRequested := true;
        var saved := CheckpointAndHalt();
        record := record.(steps := record.steps + [HaltStep(saved)]);
        if !saved {
          target := TERMINATE;
          record := record.(level := target, steps := record.steps + [HaltTimeoutStep]);
        }
      }
      if target >= TERMINATE {
        TerminatePod(None);
        record := record.(steps := record.steps + [TerminateStep(env.failsafe.onTerminal)]);
      }
    }

    method Finish(promoted: Verdict, target: Level, confirmed: bool) returns (record: ActionRecord)
      requires Valid()
      modifies this
      ensures Valid() && Abs() == Ladder.Finish(env, old(Abs()), promoted, target, confirmed)
      ensures history == old(history) + [record]
    {
      var state := Recall(memory, promoted.probe);
      if target == LOG {
        memory := memory[promoted.probe := state.(consecutiveFails := 0, highestLevel := LOG)];
        record := ActionRecord(promoted, LOG, false, [LogStep]);
        current := [Logged(promoted)];
        CloseAction();
        history := history + [record];
        return;
      }
      if promoted.status == Fail {
        state := state.(consecutiveFails := state.consecutiveFails + 1);
      }
      record := Execute(ActionRecord(promoted, target, confirmed, []));
      state := state.(highestLevel := Max(state.highestLevel, target));
      memory := memory[promoted.probe := state];
      CloseAction();
      history := history + [record];
    }

    method Confirm(probe: Probe, recheck: Option<Poll>) returns (confirmed: Outcome<bool>)
      modifies this`trace
      ensures trace == old(trace) + if recheck.None? then [] else ConfirmEvents(env, |history|, probe, recheck.value)
      ensures confirmed == if recheck == Some(NoAnswer) then Crashed
                           else Returned(recheck.Some? && SaysFail(recheck.value))
    {
      if recheck.None? {
        return Returned(false);
      }
      trace := trace + ConfirmEvents(env, |history|, probe, recheck.value);
      match recheck.value
      case Raised => return Returned(false);
      case NoAnswer => return Crashed;
      case Answered(second) => return Returned(second.status == Fail);
    }

    /** Acts on one decision, downgrading it when it was not confirmed. */
    method Settle(d: Decision, confirmed: bool) returns (record: ActionRecord)
      requires Valid()
      modifies this
      ensures Valid() && Abs() == Ladder.Settle(env, old(Abs()), d, confirmed)
      ensures history == old(history) + [record]
    {
      var promoted, target := d.promoted, d.target;
      if target > NOTIFY && !confirmed {
        target := NOTIFY;
        promoted := Downgrade(promoted);
      }
      record := Finish(promoted, target, confirmed);
    }

    method Handle(r: Reading, recheck: Option<Poll>) returns (result: Outcome<ActionRecord>)
      requires Valid()
      modifies this
      ensures Valid() && Abs() == Ladder.Handle(env, old(Abs()), r, recheck)
      ensures result.Crashed? <==> HandleCrashes(env, old(Abs()), r, recheck)
      ensures result.Returned? ==> history == old(history) + [result.value]
    {
      var d := Decide(|history|, r);
      var confirmed := false;
      if d.target > NOTIFY {
        var outcome := Confirm(d.promoted.probe, recheck);
        if outcome.Crashed? {
          return Crashed;
        }
        confirmed := outcome.value;
      }
      var record := Settle(d, confirmed);
      return Returned(record);
    }

    /** `[self._decide(v) for v in verdicts]`. */
    method DecideSweep(rs: seq<Reading>) returns (decided: seq<Decision>)
      modifies this`memory, this`trace
      ensures trace == old(trace) + ReceiveAll(|history|, rs)
      ensures decided == DecideAll(env, old(memory), rs)
      ensures memory == DecideAllMemory(old(memory), rs)
    {
      hide Ladder.Decide, DecideMemory;
      ghost var start, heard := memory, trace;
      decided := [];
      for i := 0 to |rs|
        invariant |decided| == i && trace == heard + ReceiveAll(|history|, rs[..i])
        invariant decided + DecideAll(env, memory, rs[i..]) == DecideAll(env, start, rs)
        invariant DecideAllMemory(memory, rs[i..]) == DecideAllMemory(start, rs)
      {
        ghost var rest := rs[i..];
        assert rest[0] == rs[i] && rest[1..] == rs[i + 1..];
        var d := Decide(|history| + i, rs[i]);
        decided := decided + [d];
        assert ReceiveAll(|history|, rs[..i + 1]) ==
               ReceiveAll(|history|, rs[..i]) + [Event(|history| + i, Received(rs[i]))];
      }
      assert rs[..|rs|] == rs;
    }

    /** One wait, then one re-poll of every verdict that wants to escalate. */
    method ConfirmSweep(decided: seq<Decision>, recheck: Verdict -> Poll) returns (confirmations: map<nat, bool>)
      requires NeedsConfirmation(decided)
      modifies this`trace
      ensures trace == old(trace) + BatchConfirmEvents(env, |history|, decided, Some(recheck))
      ensures confirmations == Confirmations(decided, recheck)
    {
      trace := trace + [Event(|history|, Slept(env.failsafe.confirmDelay))];
      confirmations := map[];
      ghost var waited := trace;
      for i := 0 to |decided|
        invariant trace == waited + RepollAll(|history|, decided[..i], recheck)
        invariant confirmations == Confirmations(decided[..i], recheck)
      {
        SweepStep(|history|, decided, recheck, i);
        hide RepollAll, Confirmations, SaysFail;
        if decided[i].target > NOTIFY {
          var promoted := decided[i].promoted;
          var poll := recheck(promoted);
          trace := trace + [Event(|history| + i, Repolled(promoted.probe, SaysFail(poll)))];
          confirmations := confirmations[i := SaysFail(poll)];
        }
      }
      assert decided[..|decided|] == decided;
    }

    method SettleSweep(decided: seq<Decision>, confirmations: map<nat, bool>,
                       ghost recheck: Option<Verdict -> Poll>)
      returns (records: seq<ActionRecord>)
      requires Valid()
      requires forall i :: 0 <= i < |decided| ==>
                 (i in confirmations && confirmations[i]) == Confirms(decided[i], recheck)
      modifies this
      ensures Valid() && Abs() == SettleAll(env, old(Abs()), decided, recheck)
      ensures history == old(history) + records && |records| == |decided|
    {
      ghost var polled := Abs();
      records := [];
      for i := 0 to |decided|
        invariant Valid() && |records| == i && history == polled.history + records
        invariant SettleAll(env, Abs(), decided[i..], recheck) == SettleAll(env, polled, decided, recheck)
      {
        ghost var rest := decided[i..];
        assert rest[0] == decided[i] && rest[1..] == decided[i + 1..];
        var record := Settle(decided[i], i in confirmations && confirmations[i]);
        records := records + [record];
      }
    }

    method HandleBatch(rs: seq<Reading>, recheck: Option<Verdict -> Poll>) returns (records: seq<ActionRecord>)
      requires Valid()
      modifies this
      ensures Valid() && Abs() == Batch(env, old(Abs()), rs, recheck)
      ensures history == old(history) + records && |records| == |rs|
    {
      hide DecideAll, DecideAllMemory, RepollAll, SettleAll, SaysFail;
      var decided := DecideSweep(rs);
      var confirmations: map<nat, bool> := map[];
      ghost var waiting := trace;
      if NeedsConfirmation(decided) && recheck.Some? {
        confirmations := ConfirmSweep(decided, recheck.value);
      }
      assert trace == waiting + BatchConfirmEvents(env, |history|, decided, recheck);
      forall i | 0 <= i < |decided|
        ensures (i in confirmations && confirmations[i]) == Confirms(decided[i], recheck)
      {
        assert decided[i].target > NOTIFY ==> NeedsConfirmation(decided);
      }
      records := SettleSweep(decided, confirmations, recheck);
    }

    method Shutdown(crashed: bool, action: Option<TerminalAction>)
      requires Valid()
      modifies this
      ensures Valid() && Abs() == Ladder.Shutdown(env, old(Abs()), crashed, action)
      ensures var chosen := if action.Some? then action.value else env.failsafe.onTerminal;
              var verdict := Verdict(ShutdownGuard, if crashed then Fail else Ok, map[]);
              history == old(history)
                + [ActionRecord(verdict, TERMINATE, true, [LogStep, NotifyStep, TerminateStep(chosen)])]
      ensures memory == old(memory) && haltRequested == old(haltRequested)
    {
      var chosen := if action.Some? then action.value else env.failsafe.onTerminal;
      var verdict := ShutdownVerdict(crashed);
      current := [ShutdownCalled(chosen)];
      if env.trainer {
        var requested := RequestCheckpoint();
      }
      current := current + [Notified(verdict, TERMINATE)];
      TerminatePod(Some(chosen));
      CloseAction();
      history := history + [ActionRecord(verdict, TERMINATE, true, [LogStep, NotifyStep, TerminateStep(chosen)])];
    }
  }
}
