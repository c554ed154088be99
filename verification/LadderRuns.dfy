/** Whole runs of the ladder: any calls, in any order, with any outcomes. */
module LadderRuns {
  import opened Verdicts
  import opened Config
  import opened Ladder
  import opened BatchRefinement
  import opened LadderTraces
  import opened LadderInvariant

  datatype Op =
    | HandleOp(reading: Reading, poll: Option<Poll>)
    | BatchOp(readings: seq<Reading>, recheck: Option<Verdict -> Poll>)
    | ShutdownOp(crashed: bool, action: Option<TerminalAction>)

  function Apply(env: Env, s: State, op: Op): State {
    match op
    case HandleOp(r, poll) => Handle(env, s, r, poll)
    case BatchOp(rs, recheck) => Batch(env, s, rs, recheck)
    case ShutdownOp(crashed, action) => Shutdown(env, s, crashed, action)
  }

  /** The state after `ops`; a call that raised leaves what it did behind. */
  function Run(env: Env, ops: seq<Op>): State {
    if ops == [] then START else Apply(env, Run(env, ops[..|ops| - 1]), ops[|ops| - 1])
  }

  // --- one call keeps the invariant -----------------------------------------------

  lemma AskingSeconds(env: Env, s: State, r: Reading, poll: Poll)
    requires SaysFail(poll)
    ensures var n := |s.history|;
            var t := Receive(s, n, r).trace + ConfirmEvents(env, n, r.verdict.probe, poll);
            SecondOpinion(env, t, n, r.verdict)
  {
    var n, x := |s.history|, |s.trace|;
    var t := Receive(s, n, r).trace + ConfirmEvents(env, n, r.verdict.probe, poll);
    assert t[x] == Event(n, Received(r));
    assert t[x + 1].effect == Slept(env.failsafe.confirmDelay);
    assert t[x + 2] == Event(n, Repolled(r.verdict.probe, true));
  }

  lemma AskedKeepsGood(env: Env, s: State, r: Reading, poll: Poll)
    requires Good(env, s, []) && Escalates(env, s.memory, r)
    ensures Good(env, Handle(env, s, r, Some(poll)), [])
  {
    hide ActsExactly, Backed, Remembers, TracksBlindness, PromotesExactly, Latched;
    var n, d := |s.history|, Decide(env, s.memory, r);
    var heard := Receive(s, n, r);
    DecisionIsSound(env, s.memory, r);
    ReceiveKeepsGood(env, s, [], r);
    assert [] + [d] == [d] && [d] + [] == [d];
    var asked := ConfirmEvents(env, n, d.promoted.probe, poll);
    QuietKeepsGood(env, heard, [d], asked);
    var polled := heard.(trace := heard.trace + asked);
    if poll.NoAnswer? {
      DropEscalation(env, polled, d);
    } else {
      if SaysFail(poll) {
        AskingSeconds(env, s, r, poll);
      }
      SettleKeepsGood(env, polled, d, [], SaysFail(poll));
    }
  }

  lemma HandleKeepsGood(env: Env, s: State, r: Reading, poll: Option<Poll>)
    requires Good(env, s, [])
    ensures Good(env, Handle(env, s, r, poll), [])
  {
    var d := Decide(env, s.memory, r);
    if d.target > NOTIFY && poll.Some? {
      hide Good, Handle, Decide;
      AskedKeepsGood(env, s, r, poll.value);
    } else {
      HeardKeepsGood(env, s, r, d);
      hide Good, Decide, Settle, Receive;
    }
  }

  /** A verdict that is not, or cannot be, confirmed. */
  lemma HeardKeepsGood(env: Env, s: State, r: Reading, d: Decision)
    requires Good(env, s, []) && d == Decide(env, s.memory, r)
    ensures Good(env, Settle(env, Receive(s, |s.history|, r), d, false), [])
  {
    hide Good, Decide, Settle, Receive;
    ReceiveKeepsGood(env, s, [], r);
    assert [] + [d] == [d] && [d] + [] == [d];
    SettleKeepsGood(env, Receive(s, |s.history|, r), d, [], false);
  }

  /** A call that raises drops its decision, which was never a blind one. */
  lemma DropEscalation(env: Env, s: State, d: Decision)
    requires Good(env, s, [d]) && d.target > NOTIFY
    ensures Good(env, s, [])
  {
  }

  /** Deciding a whole sweep, reading by reading. */
  lemma {:induction false} DecideAllSnoc(env: Env, m: Memory, rs: seq<Reading>)
    requires rs != []
    ensures var k := |rs| - 1;
            && DecideAll(env, m, rs) == DecideAll(env, m, rs[..k]) + [Decide(env, DecideAllMemory(m, rs[..k]), rs[k])]
            && DecideAllMemory(m, rs) == DecideMemory(DecideAllMemory(m, rs[..k]), rs[k])
    decreases |rs|
  {
    var k := |rs| - 1;
    if k > 0 {
      var next, tail := DecideMemory(m, rs[0]), rs[1..];
      DecideAllSnoc(env, next, tail);
      assert tail[..k - 1] == rs[..k][1..] && tail[k - 1] == rs[k];
    }
  }

  ghost predicate AllSound(env: Env, ds: seq<Decision>) {
    forall i :: 0 <= i < |ds| ==> Sound(env, ds[i])
  }

  function ReceiveSweep(s: State, rs: seq<Reading>): State {
    s.(memory := DecideAllMemory(s.memory, rs), trace := s.trace + ReceiveAll(|s.history|, rs))
  }

  lemma {:induction false} ReceiveSweepKeepsGood(env: Env, s: State, rs: seq<Reading>)
    requires Good(env, s, [])
    ensures Good(env, ReceiveSweep(s, rs), DecideAll(env, s.memory, rs))
    ensures AllSound(env, DecideAll(env, s.memory, rs))
    ensures forall i :: 0 <= i < |rs| && DecideAll(env, s.memory, rs)[i].target > NOTIFY ==>
              DecideAll(env, s.memory, rs)[i].promoted == rs[i].verdict
    decreases |rs|
  {
    hide ActsExactly, Backed, Remembers, TracksBlindness, PromotesExactly, Latched;
    if rs == [] {
      assert ReceiveSweep(s, rs) == s;
    } else {
      var k, n := |rs| - 1, |s.history|;
      ReceiveSweepKeepsGood(env, s, rs[..k]);
      var before := ReceiveSweep(s, rs[..k]);
      DecideAllSnoc(env, s.memory, rs);
      DecisionIsSound(env, before.memory, rs[k]);
      ReceiveKeepsGood(env, before, DecideAll(env, s.memory, rs[..k]), rs[k]);
      assert ReceiveAll(n, rs) == ReceiveAll(n, rs[..k]) + [Event(n + k, Received(rs[k]))];
      assert ReceiveSweep(s, rs) == Receive(before, n + k, rs[k]);
    }
  }

  /** Every pending decision that will count as confirmed has its second opinion. */
  ghost predicate Seconded(env: Env, s: State, ds: seq<Decision>, recheck: Option<Verdict -> Poll>) {
    forall i :: 0 <= i < |ds| && Confirms(ds[i], recheck) ==>
      SecondOpinion(env, s.trace, |s.history| + i, ds[i].promoted)
  }

  lemma SettleAppends(env: Env, s: State, d: Decision, confirmed: bool) returns (added: seq<Event>)
    ensures Settle(env, s, d, confirmed).trace == s.trace + added
    ensures |Settle(env, s, d, confirmed).history| == |s.history| + 1
  {
    var v, target := if d.target > NOTIFY && !confirmed then Downgrade(d.promoted) else d.promoted,
                     if d.target > NOTIFY && !confirmed then NOTIFY else d.target;
    hide ExecuteEffects;
    added := Stamp(|s.history|, ExecuteEffects(env, |s.history|, v, target));
  }

  lemma SettleKeepsSeconds(
    env: Env, s: State, d: Decision, rest: seq<Decision>, recheck: Option<Verdict -> Poll>, confirmed: bool)
    requires Seconded(env, s, [d] + rest, recheck)
    ensures Seconded(env, Settle(env, s, d, confirmed), rest, recheck)
  {
    hide Settle, SecondOpinion, Confirms;
    var next := Settle(env, s, d, confirmed);
    var added := SettleAppends(env, s, d, confirmed);
    forall i | 0 <= i < |rest| && Confirms(rest[i], recheck)
      ensures SecondOpinion(env, next.trace, |next.history| + i, rest[i].promoted)
    {
      assert rest[i] == ([d] + rest)[i + 1];
      SecondOpinionKept(env, s.trace, added, |s.history| + (i + 1), rest[i].promoted);
    }
  }

  lemma {:induction false} SettleAllKeepsGood(
    env: Env, s: State, ds: seq<Decision>, recheck: Option<Verdict -> Poll>)
    requires Good(env, s, ds) && AllSound(env, ds) && Seconded(env, s, ds, recheck)
    ensures Good(env, SettleAll(env, s, ds, recheck), [])
    decreases |ds|
  {
    if ds != [] {
      var d, rest, c := ds[0], ds[1..], Confirms(ds[0], recheck);
      assert ds == [d] + rest;
      assert c ==> SecondOpinion(env, s.trace, |s.history| + 0, d.promoted);
      hide Good, Settle, SecondOpinion, Sound;
      SettleKeepsGood(env, s, d, rest, c);
      SettleKeepsSeconds(env, s, d, rest, recheck, c);
      SettleAllKeepsGood(env, Settle(env, s, d, c), rest, recheck);
    }
  }

  lemma {:induction false} RepollIsFiled(n: nat, ds: seq<Decision>, recheck: Verdict -> Poll, i: nat) returns (z: nat)
    requires i < |ds| && ds[i].target > NOTIFY
    ensures z < |RepollAll(n, ds, recheck)|
    ensures RepollAll(n, ds, recheck)[z] ==
              Event(n + i, Repolled(ds[i].promoted.probe, SaysFail(recheck(ds[i].promoted))))
    decreases |ds|
  {
    var k := |ds| - 1;
    if i == k {
      z := |RepollAll(n, ds, recheck)| - 1;
    } else {
      z := RepollIsFiled(n, ds[..k], recheck, i);
    }
  }

  lemma {:induction false} RepollsAreQuiet(n: nat, ds: seq<Decision>, recheck: Verdict -> Poll)
    ensures forall i :: 0 <= i < |RepollAll(n, ds, recheck)| ==> RepollAll(n, ds, recheck)[i].effect.Repolled?
    decreases |ds|
  {
    if ds != [] {
      RepollsAreQuiet(n, ds[..|ds| - 1], recheck);
    }
  }

  /** Heard at `x`, waited after everything was heard, re-polled later still. */
  lemma OrderSeconds(env: Env, heard: seq<Event>, wait: Event, asked: seq<Event>, x: nat, z: nat, a: nat, v: Verdict)
    requires x < |heard| && heard[x].action == a && heard[x].effect.Received? && heard[x].effect.reading.verdict == v
    requires wait.effect == Slept(env.failsafe.confirmDelay)
    requires z < |asked| && asked[z] == Event(a, Repolled(v.probe, true))
    ensures SecondOpinion(env, heard + ([wait] + asked), a, v)
  {
    var t, y := heard + ([wait] + asked), |heard|;
    assert t[x] == heard[x] && t[y] == wait && t[y + 1 + z] == asked[z];
  }

  lemma SweepSeconds(
    env: Env, before: seq<Event>, n: nat, rs: seq<Reading>, ds: seq<Decision>, recheck: Verdict -> Poll, i: nat)
    requires i < |rs| == |ds| && ds[i].promoted == rs[i].verdict
    requires ds[i].target > NOTIFY && SaysFail(recheck(ds[i].promoted))
    ensures SecondOpinion(env, before + ReceiveAll(n, rs) + BatchConfirmEvents(env, n, ds, Some(recheck)),
                          n + i, ds[i].promoted)
  {
    var z := RepollIsFiled(n, ds, recheck, i);
    hide RepollAll, SaysFail, SecondOpinion;
    var heard := before + ReceiveAll(n, rs);
    assert heard[|before| + i] == Event(n + i, Received(rs[i]));
    OrderSeconds(env, heard, Event(n, Slept(env.failsafe.confirmDelay)), RepollAll(n, ds, recheck),
                 |before| + i, z, n + i, ds[i].promoted);
  }

  lemma SweepIsSeconded(env: Env, s: State, rs: seq<Reading>, recheck: Option<Verdict -> Poll>)
    requires Good(env, s, [])
    ensures var ds := DecideAll(env, s.memory, rs);
            var heard := ReceiveSweep(s, rs);
            var asked := BatchConfirmEvents(env, |s.history|, ds, recheck);
            Seconded(env, heard.(trace := heard.trace + asked), ds, recheck)
  {
    var ds, n := DecideAll(env, s.memory, rs), |s.history|;
    ReceiveSweepKeepsGood(env, s, rs);
    hide Good, DecideAll, DecideAllMemory, SecondOpinion, BatchConfirmEvents, SaysFail, ReceiveAll;
    forall i | 0 <= i < |ds| && Confirms(ds[i], recheck)
      ensures SecondOpinion(env, ReceiveSweep(s, rs).trace + BatchConfirmEvents(env, n, ds, recheck),
                            n + i, ds[i].promoted)
    {
      SweepSeconds(env, s.trace, n, rs, ds, recheck.value, i);
    }
  }

  lemma BatchKeepsGood(env: Env, s: State, rs: seq<Reading>, recheck: Option<Verdict -> Poll>)
    requires Good(env, s, [])
    ensures Good(env, Batch(env, s, rs, recheck), [])
  {
    var ds := DecideAll(env, s.memory, rs);
    var heard, asked := ReceiveSweep(s, rs), BatchConfirmEvents(env, |s.history|, ds, recheck);
    ReceiveSweepKeepsGood(env, s, rs);
    if recheck.Some? {
      RepollsAreQuiet(|s.history|, ds, recheck.value);
    }
    QuietKeepsGood(env, heard, ds, asked);
    SweepIsSeconded(env, s, rs, recheck);
    SettleAllKeepsGood(env, heard.(trace := heard.trace + asked), ds, recheck);
  }

  lemma ShutdownEffectsAreVisible(env: Env, n: nat, crashed: bool, action: TerminalAction)
    ensures var all := ShutdownEffects(env, n, crashed, action);
            && (forall i :: 0 <= i < |all| ==> !Hidden(all[i]))
            && ((exists i :: 0 <= i < |all| && all[i].Killed? && !all[i].raised) <==> KillLands(env, n))
  {
    var all := ShutdownEffects(env, n, crashed, action);
    assert all[|all| - 1] == if Reachable(env) then Killed(action, env.calls(n).killRaises) else KillImpossible;
  }

  lemma ShutdownActsExactly(env: Env, s: State, crashed: bool, action: Option<TerminalAction>)
    requires ActsExactly(env, s)
    ensures ActsExactly(env, Shutdown(env, s, crashed, action))
  {
    var n, next, act := |s.history|, Shutdown(env, s, crashed, action), ChosenAction(env, action);
    var effects := ShutdownEffects(env, n, crashed, act);
    ShutdownEffectsAreVisible(env, n, crashed, act);
    forall a: nat ensures Of(next.trace, a) == Of(s.trace, a) + if a == n then effects else [] {
      OfAppend(s.trace, Stamp(n, effects), a);
      StampRead(n, effects, a);
    }
    forall a: nat | a < |next.history|
      ensures if IsShutdown(next.history[a]) then ShutExactly(env, next, a) else HandledExactly(env, next, a)
    {
      if a < n {
        assert next.history[a] == s.history[a] && Of(next.trace, a) == Of(s.trace, a);
      }
    }
  }

  lemma ShutdownKeepsTheRest(env: Env, s: State, crashed: bool, action: Option<TerminalAction>)
    requires Good(env, s, [])
    ensures var next := Shutdown(env, s, crashed, action);
            Backed(env, next) && Remembers(env, next) && TracksBlindness(next) && PromotesExactly(env, next, [])
  {
    var n, next, act := |s.history|, Shutdown(env, s, crashed, action), ChosenAction(env, action);
    var effects := ShutdownEffects(env, n, crashed, act);
    ShutdownEffectsAreVisible(env, n, crashed, act);
    HeardAppend(s.trace, Stamp(n, effects));
    StampRead(n, effects, n);
    assert Heard(next.trace) == Heard(s.trace);
    PrefixKept(s.trace, Stamp(n, effects));
    assert next.history[..n] == s.history;
    assert IsShutdown(next.history[n]);
    assert forall a :: 0 <= a < n ==> next.history[a] == s.history[a];
  }

  lemma ShutdownLatches(env: Env, s: State, crashed: bool, action: Option<TerminalAction>)
    requires Latched(s)
    ensures Latched(Shutdown(env, s, crashed, action))
  {
    var n, next, act := |s.history|, Shutdown(env, s, crashed, action), ChosenAction(env, action);
    var effects := ShutdownEffects(env, n, crashed, act);
    ShutdownEffectsAreVisible(env, n, crashed, act);
    assert forall i :: 0 <= i < |effects| ==> Stamp(n, effects)[i].effect == effects[i];
    LatchesGrow(s, next, Stamp(n, effects));
  }

  lemma ApplyKeepsGood(env: Env, s: State, op: Op)
    requires Good(env, s, [])
    ensures Good(env, Apply(env, s, op), [])
  {
    match op
    case HandleOp(r, poll) => HandleKeepsGood(env, s, r, poll);
    case BatchOp(rs, recheck) => BatchKeepsGood(env, s, rs, recheck);
    case ShutdownOp(crashed, action) =>
      ShutdownActsExactly(env, s, crashed, action);
      ShutdownKeepsTheRest(env, s, crashed, action);
      ShutdownLatches(env, s, crashed, action);
  }

  lemma {:induction false} RunIsGood(env: Env, ops: seq<Op>)
    ensures Good(env, Run(env, ops), [])
  {
    if ops != [] {
      RunIsGood(env, ops[..|ops| - 1]);
      ApplyKeepsGood(env, Run(env, ops[..|ops| - 1]), ops[|ops| - 1]);
    }
  }

  // --- what that means for a whole run ----------------------------------------------

  /** Rule 1. Whatever goes past a message belongs to a shutdown, or to a
      confirmed record whose probe said `fail`, waited, and said `fail` again. */
  lemma NothingPastNotifyUnconfirmed(env: Env, ops: seq<Op>, k: nat)
    requires k < |Run(env, ops).trace| && PastNotify(Run(env, ops).trace[k].effect)
    ensures var s := Run(env, ops);
            var a := s.trace[k].action;
            && a < |s.history|
            && (IsShutdown(s.history[a])
                || (s.history[a].confirmed && s.history[a].verdict.status == Fail
                    && SecondOpinion(env, s.trace[..k], a, s.history[a].verdict)))
  {
    RunIsGood(env, ops);
    var s := Run(env, ops);
    var a := s.trace[k].action;
    if !IsShutdown(s.history[a]) {
      SecondOpinionKept(env, s.trace[..k], [], a, s.history[a].verdict);
      assert HandledExactly(env, s, a);
      EffectIsItsActions(s.trace, k);
      EffectsAreVisible(env, a, s.history[a].verdict, Aim(env, s.history[a]));
    }
  }

  lemma {:induction false} EffectIsItsActions(trace: seq<Event>, k: nat)
    requires k < |trace| && !Hidden(trace[k].effect)
    ensures trace[k].effect in Of(trace, trace[k].action)
    decreases |trace|
  {
    var n := |trace| - 1;
    if k < n {
      EffectIsItsActions(trace[..n], k);
    }
  }

  /** Outside shutdowns `confirmed` says exactly that the record went past L1,
      and only a `fail` ever did. */
  lemma ConfirmedMeansPastNotify(env: Env, ops: seq<Op>, a: nat)
    requires a < |Run(env, ops).history| && !IsShutdown(Run(env, ops).history[a])
    ensures var r := Run(env, ops).history[a];
            && (r.confirmed <==> r.level > NOTIFY)
            && (r.confirmed ==> r.verdict.status == Fail)
  {
    RunIsGood(env, ops);
    assert HandledExactly(env, Run(env, ops), a);
  }

  /** A probe's memory is a fold over the history, however its records came in. */
  lemma MemoryIsAFoldOverHistory(env: Env, ops: seq<Op>, probe: Probe)
    ensures var s := Run(env, ops);
            && Recall(s.memory, probe).consecutiveFails == FailsSinceLog(s.history, probe)
            && Recall(s.memory, probe).highestLevel == HighestSinceLog(env, s.history, probe)
  {
    RunIsGood(env, ops);
  }

  /** `unknown_since` is when the probe's current run of `unknown`s began. */
  lemma BlindnessIsTracked(env: Env, ops: seq<Op>, probe: Probe)
    ensures var s := Run(env, ops);
            BlindSinceIs(Heard(s.trace), probe, Recall(s.memory, probe).unknownSince)
  {
    RunIsGood(env, ops);
  }

  /** An `unknown` is promoted to `warn` exactly when its run has lasted the
      tolerance; it is logged, notified about if promoted, and nothing else. */
  lemma BlindnessNeverEscalates(env: Env, ops: seq<Op>, k: nat)
    requires k < |Run(env, ops).trace|
    requires Run(env, ops).trace[k].effect.Received?
    requires Run(env, ops).trace[k].effect.reading.verdict.status == Unknown
    ensures var s := Run(env, ops);
            var a, r := s.trace[k].action, s.trace[k].effect.reading;
            var late := BlindTooLong(env, Heard(s.trace[..k]), r);
            var v := if late then Verdict(r.verdict.probe, Warn, r.verdict.evidence["promoted_from" := "unknown"])
                     else r.verdict;
            && a < |s.history|
            && s.history[a].verdict == v
            && s.history[a].level == (if late then NOTIFY else LOG)
            && Of(s.trace, a) == if late then [Logged(v), Notified(v, NOTIFY)] else [Logged(v)]
  {
    RunIsGood(env, ops);
    var s := Run(env, ops);
    var a := s.trace[k].action;
    assert HandledExactly(env, s, a);
  }

  lemma KillsAreAttempted(env: Env, n: nat, v: Verdict, target: Level)
    ensures var did := ExecuteEffects(env, n, v, target);
            && ((exists e :: e in did && (e.Killed? || e.KillImpossible?)) <==> Kills(env, n, target))
            && (target == HALT && !Kills(env, n, target) ==> CheckpointWaited(Saved) in did)
  {
    var did := ExecuteEffects(env, n, v, target);
    if Kills(env, n, target) {
      var last := did[|did| - 1];
      assert last in did && (last.Killed? || last.KillImpossible?);
    } else if target == HALT {
      assert did[|did| - 1] == CheckpointWaited(Saved);
    }
  }

  /** No limbo: a handled record ends at L4 exactly when a kill was attempted for
      it, and one that stays at L3 has its checkpoint. */
  lemma NoLimbo(env: Env, ops: seq<Op>, a: nat)
    requires a < |Run(env, ops).history| && !IsShutdown(Run(env, ops).history[a])
    ensures var s := Run(env, ops);
            var did := Of(s.trace, a);
            && (s.history[a].level == TERMINATE <==> exists e :: e in did && (e.Killed? || e.KillImpossible?))
            && (s.history[a].level == HALT ==> CheckpointWaited(Saved) in did)
  {
    RunIsGood(env, ops);
    var s := Run(env, ops);
    assert HandledExactly(env, s, a);
    hide Good, Run, ExecuteEffects, ExecuteSteps, Of;
    KillsAreAttempted(env, a, s.history[a].verdict, Aim(env, s.history[a]));
  }

  lemma WayDownIsSilent(env: Env, n: nat, action: TerminalAction)
    ensures forall e :: e in TerminateEffects(env, n, action) ==>
              e.Alerted? || e.Finished? || e.Killed? || e.KillImpossible?
    ensures forall e :: e in CheckpointEffects(env, n) ==> e.CheckpointRequested? || e.CheckpointWaited?
    ensures CheckpointRequested(env.calls(n).requestRaises) in CheckpointEffects(env, n) <==> env.trainer
  {
    if env.trainer {
      assert CheckpointEffects(env, n)[0] == CheckpointRequested(env.calls(n).requestRaises);
    }
  }

  lemma EffectsByTarget(env: Env, n: nat, v: Verdict, target: Level)
    ensures var did := ExecuteEffects(env, n, v, target);
            && |did| > 0 && did[0] == Logged(v)
            && (forall e :: e in did && e.Notified? ==> e == Notified(v, target))
            && (forall e :: e in did && e.SnapshotTaken? ==> e == SnapshotTaken(v))
            && (Notified(v, target) in did <==> target >= NOTIFY)
            && (SnapshotTaken(v) in did <==> target >= SNAPSHOT && env.diagnostics)
            && (CheckpointRequested(env.calls(n).requestRaises) in did <==> target >= HALT && env.trainer)
  {
    WayDownIsSilent(env, n, env.failsafe.onTerminal);
    hide TerminateEffects, CheckpointEffects, CheckpointSaved;
  }

  /** A level means the same effects every time: what a handled record logs,
      sends, dumps and asks for can be read off its level alone. */
  lemma EffectsMatchLevel(env: Env, ops: seq<Op>, a: nat)
    requires a < |Run(env, ops).history| && !IsShutdown(Run(env, ops).history[a])
    ensures var r, did := Run(env, ops).history[a], Of(Run(env, ops).trace, a);
            && |did| > 0 && did[0] == Logged(r.verdict)
            && ((exists e :: e in did && e.Notified?) <==> r.level >= NOTIFY)
            && ((exists e :: e in did && e.SnapshotTaken?) <==> r.level >= SNAPSHOT && env.diagnostics)
            && (CheckpointRequested(env.calls(a).requestRaises) in did <==> r.level >= HALT && env.trainer)
            && (forall e :: e in did && e.Notified? ==> e.verdict == r.verdict)
            && (forall e :: e in did && e.SnapshotTaken? ==> e.verdict == r.verdict)
  {
    RunIsGood(env, ops);
    var s := Run(env, ops);
    var r := s.history[a];
    assert HandledExactly(env, s, a);
    assert r.level >= HALT <==> Aim(env, r) >= HALT;
    hide Good, Run, ExecuteEffects, ExecuteSteps, Of;
    EffectsByTarget(env, a, r.verdict, Aim(env, r));
  }

  /** The halt latch says some handled record reached L3; the termination latch
      says some kill call went through. */
  lemma LatchesTellTheTruth(env: Env, ops: seq<Op>)
    ensures Latched(Run(env, ops))
  {
    RunIsGood(env, ops);
  }

  // --- deleting the pod -----------------------------------------------------------------

  ghost predicate AskedToDelete(ops: seq<Op>) {
    exists i :: 0 <= i < |ops| && ops[i].ShutdownOp? && ops[i].action == Some(Terminate)
  }

  ghost predicate OnlyKillsBy(s: State, allowed: set<TerminalAction>) {
    forall k :: 0 <= k < |s.trace| && s.trace[k].effect.Killed? ==> s.trace[k].effect.action in allowed
  }

  lemma FinishKillsBy(env: Env, s: State, v: Verdict, target: Level, c: bool, allowed: set<TerminalAction>)
    requires OnlyKillsBy(s, allowed) && env.failsafe.onTerminal in allowed
    ensures OnlyKillsBy(Finish(env, s, v, target, c), allowed)
  {
  }

  lemma {:induction false} SettleAllKillsBy(
    env: Env, s: State, ds: seq<Decision>, recheck: Option<Verdict -> Poll>, allowed: set<TerminalAction>)
    requires OnlyKillsBy(s, allowed) && env.failsafe.onTerminal in allowed
    ensures OnlyKillsBy(SettleAll(env, s, ds, recheck), allowed)
    decreases |ds|
  {
    if ds != [] {
      var d, c := ds[0], Confirms(ds[0], recheck);
      FinishKillsBy(env, s, Downgrade(d.promoted), NOTIFY, false, allowed);
      FinishKillsBy(env, s, d.promoted, d.target, c, allowed);
      SettleAllKillsBy(env, Settle(env, s, d, c), ds[1..], recheck, allowed);
    }
  }

  lemma HandleKillsBy(env: Env, s: State, r: Reading, poll: Option<Poll>, allowed: set<TerminalAction>)
    requires OnlyKillsBy(s, allowed) && env.failsafe.onTerminal in allowed
    ensures OnlyKillsBy(Handle(env, s, r, poll), allowed)
  {
    hide Finish, Decide, DecideMemory;
    var d, heard := Decide(env, s.memory, r), Receive(s, |s.history|, r);
    var c := d.target > NOTIFY && poll.Some? && SaysFail(poll.value);
    var polled := if poll.Some? && d.target > NOTIFY
                  then heard.(trace := heard.trace + ConfirmEvents(env, |s.history|, d.promoted.probe, poll.value))
                  else heard;
    assert OnlyKillsBy(polled, allowed);
    FinishKillsBy(env, polled, Downgrade(d.promoted), NOTIFY, false, allowed);
    FinishKillsBy(env, polled, d.promoted, d.target, c, allowed);
  }

  lemma BatchKillsBy(
    env: Env, s: State, rs: seq<Reading>, recheck: Option<Verdict -> Poll>, allowed: set<TerminalAction>)
    requires OnlyKillsBy(s, allowed) && env.failsafe.onTerminal in allowed
    ensures OnlyKillsBy(Batch(env, s, rs, recheck), allowed)
  {
    hide DecideAll, DecideAllMemory, SettleAll;
    var ds, heard := DecideAll(env, s.memory, rs), ReceiveSweep(s, rs);
    var asked := BatchConfirmEvents(env, |s.history|, ds, recheck);
    if recheck.Some? {
      RepollsAreQuiet(|s.history|, ds, recheck.value);
    }
    assert OnlyKillsBy(heard.(trace := heard.trace + asked), allowed);
    SettleAllKillsBy(env, heard.(trace := heard.trace + asked), ds, recheck, allowed);
  }

  lemma ApplyKillsBy(env: Env, s: State, op: Op, allowed: set<TerminalAction>)
    requires OnlyKillsBy(s, allowed) && env.failsafe.onTerminal in allowed
    requires op.ShutdownOp? && op.action.Some? ==> op.action.value in allowed
    ensures OnlyKillsBy(Apply(env, s, op), allowed)
  {
    hide Handle, Batch;
    match op
    case HandleOp(r, poll) => HandleKillsBy(env, s, r, poll, allowed);
    case BatchOp(rs, recheck) => BatchKillsBy(env, s, rs, recheck, allowed);
    case ShutdownOp(crashed, action) =>
  }

  lemma {:induction false} RunKillsBy(env: Env, ops: seq<Op>, allowed: set<TerminalAction>)
    requires env.failsafe.onTerminal in allowed
    requires forall i :: 0 <= i < |ops| && ops[i].ShutdownOp? && ops[i].action.Some? ==> ops[i].action.value in allowed
    ensures OnlyKillsBy(Run(env, ops), allowed)
  {
    if ops != [] {
      var k := |ops| - 1;
      RunKillsBy(env, ops[..k], allowed);
      ApplyKillsBy(env, Run(env, ops[..k]), ops[k], allowed);
    }
  }

  /** Under an accepted configuration the pod is only ever deleted when its
      checkpoints sit on a network volume, or when a shutdown was told to delete. */
  lemma DeletionDiscipline(cfg: RunConfig, env: Env, ops: seq<Op>, k: nat)
    requires Accepted(cfg) && env.failsafe == cfg.failsafe
    requires k < |Run(env, ops).trace|
    requires Run(env, ops).trace[k].effect.Killed? && Run(env, ops).trace[k].effect.action == Terminate
    ensures cfg.failsafe.checkpointOnNetworkVolume || AskedToDelete(ops)
  {
    if !AskedToDelete(ops) && cfg.failsafe.onTerminal != Terminate {
      var given := set i | 0 <= i < |ops| && ops[i].ShutdownOp? && ops[i].action.Some? :: ops[i].action.value;
      RunKillsBy(env, ops, given + {cfg.failsafe.onTerminal});
    }
  }
}
