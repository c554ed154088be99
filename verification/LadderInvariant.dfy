/** What every ladder call keeps. `pending` are the decisions of a sweep that
    have been taken but not yet acted on; between calls there are none. */
module LadderInvariant {
  import opened Verdicts
  import opened Ladder
  import opened BatchRefinement
  import opened LadderTraces

  // --- the parts of the invariant ----------------------------------------------

  /** Record and effects of a handled action are those of its verdict and aim,
      and it was confirmed exactly when that aim lies past L1. */
  predicate HandledExactly(env: Env, s: State, a: nat)
    requires a < |s.history|
  {
    var r := s.history[a];
    && r == RecordOf(env, a, r.verdict, Aim(env, r), Aim(env, r) > NOTIFY)
    && Of(s.trace, a) == ExecuteEffects(env, a, r.verdict, Aim(env, r))
    && (Aim(env, r) > NOTIFY ==> r.verdict.status == Fail)
  }

  predicate ShutExactly(env: Env, s: State, a: nat)
    requires a < |s.history| && IsShutdown(s.history[a])
  {
    var r := s.history[a];
    && r.verdict == ShutdownVerdict(r.verdict.status == Fail)
    && r.level == TERMINATE && r.confirmed
    && r.steps == [LogStep, NotifyStep, TerminateStep(r.steps[2].action)]
    && Of(s.trace, a) == ShutdownEffects(env, a, r.verdict.status == Fail, r.steps[2].action)
  }

  ghost predicate ActsExactly(env: Env, s: State) {
    && (forall a: nat :: a < |s.history| ==>
          if IsShutdown(s.history[a]) then ShutExactly(env, s, a) else HandledExactly(env, s, a))
    && (forall a: nat :: a >= |s.history| ==> Of(s.trace, a) == [])
  }

  /** Effects that go past a message. */
  predicate PastNotify(e: Effect) {
    e.SnapshotTaken? || e.CheckpointRequested? || e.CheckpointWaited?
    || e.Alerted? || e.Finished? || e.Killed? || e.KillImpossible?
  }

  /** First reading a `fail`, then the confirmation delay, then a second `fail`. */
  ghost predicate SecondOpinion(env: Env, trace: seq<Event>, a: nat, v: Verdict) {
    exists x, y, z ::
      && 0 <= x < y < z < |trace|
      && trace[x].action == a && trace[x].effect.Received? && trace[x].effect.reading.verdict == v
      && trace[y].effect == Slept(env.failsafe.confirmDelay)
      && trace[z] == Event(a, Repolled(v.probe, true))
  }

  ghost predicate Backed(env: Env, s: State) {
    forall k :: 0 <= k < |s.trace| && PastNotify(s.trace[k].effect) ==>
      var a := s.trace[k].action;
      && a < |s.history|
      && (IsShutdown(s.history[a]) || SecondOpinion(env, s.trace[..k], a, s.history[a].verdict))
  }

  ghost predicate Remembers(env: Env, s: State) {
    forall p :: && Recall(s.memory, p).consecutiveFails == FailsSinceLog(s.history, p)
                && Recall(s.memory, p).highestLevel == HighestSinceLog(env, s.history, p)
  }

  ghost predicate TracksBlindness(s: State) {
    forall p :: BlindSinceIs(Heard(s.trace), p, Recall(s.memory, p).unknownSince)
  }

  /** The probe has been blind for at least the tolerance when `r` comes in. */
  ghost predicate BlindTooLong(env: Env, before: seq<Reading>, r: Reading) {
    exists i :: StartsBlindRun(before, r.verdict.probe, i) && r.at - before[i].at >= env.failsafe.unknownTolerance
  }

  /** What an `unknown` deserves: a line in the log, or at worst a message. */
  ghost function BlindDecision(env: Env, before: seq<Reading>, r: Reading): Decision {
    if BlindTooLong(env, before, r)
    then Decision(Verdict(r.verdict.probe, Warn, r.verdict.evidence["promoted_from" := "unknown"]), NOTIFY)
    else Decision(r.verdict, LOG)
  }

  ghost predicate PromotesExactly(env: Env, s: State, pending: seq<Decision>) {
    forall k :: 0 <= k < |s.trace| && s.trace[k].effect.Received?
                && s.trace[k].effect.reading.verdict.status == Unknown ==>
      var a := s.trace[k].action;
      var d := BlindDecision(env, Heard(s.trace[..k]), s.trace[k].effect.reading);
      if a < |s.history|
      then !IsShutdown(s.history[a]) && s.history[a].verdict == d.promoted && s.history[a].level == d.target
      else a - |s.history| < |pending| && pending[a - |s.history|] == d
  }

  ghost predicate Latched(s: State) {
    && (s.haltRequested <==>
          exists a :: 0 <= a < |s.history| && !IsShutdown(s.history[a]) && s.history[a].level >= HALT)
    && (s.terminated <==> exists k :: 0 <= k < |s.trace| && s.trace[k].effect.Killed? && !s.trace[k].effect.raised)
  }

  ghost predicate Good(env: Env, s: State, pending: seq<Decision>) {
    && ActsExactly(env, s)
    && Backed(env, s)
    && Remembers(env, s)
    && TracksBlindness(s)
    && PromotesExactly(env, s, pending)
    && Latched(s)
  }

  /** A decision is what the policy says of its own verdict. */
  predicate Sound(env: Env, d: Decision) {
    && d.target == TargetLevel(env.overrides, d.promoted)
    && (d.target > NOTIFY ==> d.promoted.status == Fail)
  }

  // --- hearing a reading -------------------------------------------------------

  lemma PrefixKept(a: seq<Event>, b: seq<Event>)
    ensures forall k :: 0 <= k <= |a| ==> (a + b)[..k] == a[..k]
  {
  }

  lemma DecisionIsSound(env: Env, m: Memory, r: Reading)
    ensures Sound(env, Decide(env, m, r))
    ensures Decide(env, m, r).target > NOTIFY ==>
              Decide(env, m, r).promoted == r.verdict && r.verdict.status == Fail
  {
  }

  lemma UnknownIsDecidedExactly(env: Env, s: State, r: Reading)
    requires TracksBlindness(s) && r.verdict.status == Unknown
    ensures Decide(env, s.memory, r) == BlindDecision(env, Heard(s.trace), r)
  {
    var before, p := Heard(s.trace), r.verdict.probe;
    var since := Recall(s.memory, p).unknownSince;
    assert BlindSinceIs(before, p, since);
    if since.Some? {
      var i :| StartsBlindRun(before, p, i) && before[i].at == since.value;
      forall j | StartsBlindRun(before, p, j) ensures j == i {
        RunsStartOnce(before, p, i, j);
      }
    }
  }

  lemma SecondOpinionKept(env: Env, t: seq<Event>, u: seq<Event>, a: nat, v: Verdict)
    requires SecondOpinion(env, t, a, v)
    ensures SecondOpinion(env, t + u, a, v)
  {
    assert forall k :: 0 <= k < |t| ==> (t + u)[k] == t[k];
  }

  /** Hidden events change nothing that has been done. */
  lemma HiddenKeepsActs(env: Env, s: State, memory: Memory, events: seq<Event>)
    requires ActsExactly(env, s) && Backed(env, s) && Latched(s)
    requires forall i :: 0 <= i < |events| ==> Hidden(events[i].effect)
    ensures var next := s.(memory := memory, trace := s.trace + events);
            ActsExactly(env, next) && Backed(env, next) && Latched(next)
  {
    var next := s.(memory := memory, trace := s.trace + events);
    forall a: nat ensures Of(next.trace, a) == Of(s.trace, a) {
      OfAppend(s.trace, events, a);
      HiddenRead(events, a);
    }
    PrefixKept(s.trace, events);
    assert forall k :: 0 <= k < |s.trace| ==> next.trace[k] == s.trace[k];
  }

  lemma ReceiveTracksBlindness(env: Env, s: State, a: nat, r: Reading)
    requires TracksBlindness(s)
    ensures TracksBlindness(Receive(s, a, r))
  {
    var next, event := Receive(s, a, r), [Event(a, Received(r))];
    HeardAppend(s.trace, event);
    assert Heard(event) == [r];
    forall p ensures BlindSinceIs(Heard(next.trace), p, Recall(next.memory, p).unknownSince) {
      BlindSinceStep(Heard(s.trace), r, p, Recall(s.memory, p).unknownSince);
    }
  }

  lemma ReceivePromotes(env: Env, s: State, pending: seq<Decision>, r: Reading)
    requires PromotesExactly(env, s, pending) && TracksBlindness(s)
    ensures PromotesExactly(env, Receive(s, |s.history| + |pending|, r), pending + [Decide(env, s.memory, r)])
  {
    var a := |s.history| + |pending|;
    PrefixKept(s.trace, [Event(a, Received(r))]);
    if r.verdict.status == Unknown {
      UnknownIsDecidedExactly(env, s, r);
    }
  }

  lemma ReceiveKeepsGood(env: Env, s: State, pending: seq<Decision>, r: Reading)
    requires Good(env, s, pending)
    ensures Good(env, Receive(s, |s.history| + |pending|, r), pending + [Decide(env, s.memory, r)])
    ensures Sound(env, Decide(env, s.memory, r))
  {
    var a := |s.history| + |pending|;
    var next := Receive(s, a, r);
    DecisionIsSound(env, s.memory, r);
    HiddenKeepsActs(env, s, next.memory, [Event(a, Received(r))]);
    ReceiveTracksBlindness(env, s, a, r);
    ReceivePromotes(env, s, pending, r);
    assert Remembers(env, next);
  }

  // --- waiting and re-polling ---------------------------------------------------

  lemma QuietIsUnheard(env: Env, s: State, pending: seq<Decision>, events: seq<Event>)
    requires TracksBlindness(s) && PromotesExactly(env, s, pending)
    requires forall i :: 0 <= i < |events| ==> Hidden(events[i].effect) && !events[i].effect.Received?
    ensures TracksBlindness(s.(trace := s.trace + events))
    ensures PromotesExactly(env, s.(trace := s.trace + events), pending)
  {
    HeardAppend(s.trace, events);
    HiddenRead(events, 0);
    assert Heard(s.trace + events) == Heard(s.trace);
    PrefixKept(s.trace, events);
  }

  lemma QuietKeepsGood(env: Env, s: State, pending: seq<Decision>, events: seq<Event>)
    requires Good(env, s, pending)
    requires forall i :: 0 <= i < |events| ==> Hidden(events[i].effect) && !events[i].effect.Received?
    ensures Good(env, s.(trace := s.trace + events), pending)
  {
    assert Remembers(env, s.(trace := s.trace + events));
    hide ActsExactly, Backed, Remembers, TracksBlindness, PromotesExactly, Latched;
    HiddenKeepsActs(env, s, s.memory, events);
    QuietIsUnheard(env, s, pending, events);
  }

  // --- acting ---------------------------------------------------------------------

  lemma EffectsAreVisible(env: Env, n: nat, v: Verdict, target: Level)
    ensures forall i :: 0 <= i < |ExecuteEffects(env, n, v, target)| ==>
              !Hidden(ExecuteEffects(env, n, v, target)[i])
    ensures target <= NOTIFY ==> forall i :: 0 <= i < |ExecuteEffects(env, n, v, target)| ==>
              !PastNotify(ExecuteEffects(env, n, v, target)[i])
    ensures (exists i :: 0 <= i < |ExecuteEffects(env, n, v, target)|
                         && ExecuteEffects(env, n, v, target)[i].Killed?
                         && !ExecuteEffects(env, n, v, target)[i].raised)
            <==> Kills(env, n, target) && KillLands(env, n)
  {
    var all := ExecuteEffects(env, n, v, target);
    if Kills(env, n, target) {
      assert all[|all| - 1] ==
             if Reachable(env) then Killed(env.failsafe.onTerminal, env.calls(n).killRaises) else KillImpossible;
    }
  }

  lemma FinishActsExactly(env: Env, s: State, v: Verdict, target: Level, confirmed: bool)
    requires ActsExactly(env, s)
    requires target == TargetLevel(env.overrides, v) && confirmed == (target > NOTIFY)
    requires target > NOTIFY ==> v.status == Fail
    ensures ActsExactly(env, Finish(env, s, v, target, confirmed))
  {
    var n, next := |s.history|, Finish(env, s, v, target, confirmed);
    var effects := ExecuteEffects(env, n, v, target);
    EffectsAreVisible(env, n, v, target);
    forall a: nat ensures Of(next.trace, a) == Of(s.trace, a) + if a == n then effects else [] {
      OfAppend(s.trace, Stamp(n, effects), a);
      StampRead(n, effects, a);
    }
    HandledIsNotShutdown(env, n, v, target, confirmed);
    forall a: nat | a < |next.history|
      ensures if IsShutdown(next.history[a]) then ShutExactly(env, next, a) else HandledExactly(env, next, a)
    {
      if a < n {
        assert next.history[a] == s.history[a] && Of(next.trace, a) == Of(s.trace, a);
      }
    }
  }

  lemma FinishIsBacked(env: Env, s: State, v: Verdict, target: Level, confirmed: bool)
    requires Backed(env, s)
    requires target > NOTIFY ==> SecondOpinion(env, s.trace, |s.history|, v)
    ensures Backed(env, Finish(env, s, v, target, confirmed))
  {
    var n, next := |s.history|, Finish(env, s, v, target, confirmed);
    var added := Stamp(n, ExecuteEffects(env, n, v, target));
    EffectsAreVisible(env, n, v, target);
    PrefixKept(s.trace, added);
    forall k | 0 <= k < |next.trace| && PastNotify(next.trace[k].effect)
      ensures var a := next.trace[k].action;
              && a < |next.history|
              && (IsShutdown(next.history[a]) || SecondOpinion(env, next.trace[..k], a, next.history[a].verdict))
    {
      if k < |s.trace| {
        assert next.trace[k] == s.trace[k] && next.trace[..k] == s.trace[..k];
      } else {
        assert next.trace[..k] == s.trace + added[..k - |s.trace|];
        assert next.trace[k] == added[k - |s.trace|];
        SecondOpinionKept(env, s.trace, added[..k - |s.trace|], n, v);
      }
    }
  }

  lemma FinishRemembers(env: Env, s: State, v: Verdict, target: Level, confirmed: bool)
    requires Remembers(env, s) && target == TargetLevel(env.overrides, v)
    ensures Remembers(env, Finish(env, s, v, target, confirmed))
  {
    var next := Finish(env, s, v, target, confirmed);
    HandledIsNotShutdown(env, |s.history|, v, target, confirmed);
    var n := |s.history|;
    assert next.history[..n] == s.history && next.history[n].verdict == v;
    assert next.history[n].level == LOG <==> target == LOG;
    hide IsShutdown, TargetLevel, RecordOf;
    forall p
      ensures Recall(next.memory, p).consecutiveFails == FailsSinceLog(next.history, p)
      ensures Recall(next.memory, p).highestLevel == HighestSinceLog(env, next.history, p)
    {
      assert Recall(s.memory, p).consecutiveFails == FailsSinceLog(s.history, p);
    }
  }

  /** Filing one more record and its effects moves the latches as it should. */
  lemma LatchesGrow(s: State, next: State, added: seq<Event>)
    requires Latched(s)
    requires |next.history| == |s.history| + 1 && next.history[..|s.history|] == s.history
    requires next.trace == s.trace + added
    requires var r := next.history[|s.history|];
             next.haltRequested == (s.haltRequested || (!IsShutdown(r) && r.level >= HALT))
    requires next.terminated ==
               (s.terminated || exists i :: 0 <= i < |added| && added[i].effect.Killed? && !added[i].effect.raised)
    ensures Latched(next)
  {
    hide IsShutdown;
    assert forall a :: 0 <= a < |s.history| ==> next.history[a] == s.history[a];
    assert forall k :: 0 <= k < |s.trace| ==> next.trace[k] == s.trace[k];
    assert forall i :: 0 <= i < |added| ==> next.trace[|s.trace| + i] == added[i];
  }

  lemma FinishLatches(env: Env, s: State, v: Verdict, target: Level, confirmed: bool)
    requires Latched(s)
    ensures Latched(Finish(env, s, v, target, confirmed))
  {
    var n, next := |s.history|, Finish(env, s, v, target, confirmed);
    var effects := ExecuteEffects(env, n, v, target);
    EffectsAreVisible(env, n, v, target);
    HandledIsNotShutdown(env, n, v, target, confirmed);
    assert next.history[n].level >= HALT <==> target >= HALT;
    assert forall i :: 0 <= i < |effects| ==> Stamp(n, effects)[i].effect == effects[i];
    LatchesGrow(s, next, Stamp(n, effects));
  }

  lemma FinishPromotes(env: Env, s: State, d: Decision, rest: seq<Decision>, v: Verdict, target: Level, confirmed: bool)
    requires PromotesExactly(env, s, [d] + rest)
    requires d.target <= NOTIFY ==> v == d.promoted && target == d.target
    ensures PromotesExactly(env, Finish(env, s, v, target, confirmed), rest)
  {
    var n, next := |s.history|, Finish(env, s, v, target, confirmed);
    var added := Stamp(n, ExecuteEffects(env, n, v, target));
    EffectsAreVisible(env, n, v, target);
    HandledIsNotShutdown(env, n, v, target, confirmed);
    PrefixKept(s.trace, added);
    forall k | 0 <= k < |next.trace| && next.trace[k].effect.Received?
               && next.trace[k].effect.reading.verdict.status == Unknown
      ensures var a := next.trace[k].action;
              var due := BlindDecision(env, Heard(next.trace[..k]), next.trace[k].effect.reading);
              if a < |next.history|
              then && !IsShutdown(next.history[a])
                   && next.history[a].verdict == due.promoted && next.history[a].level == due.target
              else a - |next.history| < |rest| && rest[a - |next.history|] == due
    {
      assert k < |s.trace|;
      assert next.trace[k] == s.trace[k] && next.trace[..k] == s.trace[..k];
    }
  }

  lemma FinishTracksBlindness(env: Env, s: State, v: Verdict, target: Level, confirmed: bool)
    requires TracksBlindness(s)
    ensures TracksBlindness(Finish(env, s, v, target, confirmed))
  {
    var n := |s.history|;
    var effects := ExecuteEffects(env, n, v, target);
    EffectsAreVisible(env, n, v, target);
    HeardAppend(s.trace, Stamp(n, effects));
    StampRead(n, effects, n);
    assert Heard(Finish(env, s, v, target, confirmed).trace) == Heard(s.trace);
    forall p ensures Recall(FinishMemory(s.memory, v, target), p).unknownSince == Recall(s.memory, p).unknownSince {
    }
  }

  lemma SettleKeepsGood(env: Env, s: State, d: Decision, rest: seq<Decision>, confirmed: bool)
    requires Good(env, s, [d] + rest) && Sound(env, d)
    requires confirmed ==> d.target > NOTIFY && SecondOpinion(env, s.trace, |s.history|, d.promoted)
    ensures Good(env, Settle(env, s, d, confirmed), rest)
  {
    var v, target := if d.target > NOTIFY && !confirmed then Downgrade(d.promoted) else d.promoted,
                     if d.target > NOTIFY && !confirmed then NOTIFY else d.target;
    FinishActsExactly(env, s, v, target, confirmed);
    FinishIsBacked(env, s, v, target, confirmed);
    FinishRemembers(env, s, v, target, confirmed);
    FinishTracksBlindness(env, s, v, target, confirmed);
    FinishPromotes(env, s, d, rest, v, target, confirmed);
    FinishLatches(env, s, v, target, confirmed);
  }
}
