/** The startup gate: check in order, stop at the first failure, and never leave a
    failed pod running. */
module Gate {
  import opened Verdicts
  import opened Config
  import opened Ladder
  import opened Escalation
  import S = Sentinel
  import R = SentinelRuns
  import B = SentinelBounds
  import M = SentinelOutage

  /** Unlike in a sweep, a probe that crashes here has failed. */
  function GateVerdict(probe: Probe, answer: S.Answer): Verdict {
    match answer
    case Says(status, evidence) => Verdict(probe, status, evidence)
    case Raises => Verdict(probe, Fail, map["error" := "raised"])
  }

  predicate Passed(verdicts: seq<Verdict>) {
    !exists i :: 0 <= i < |verdicts| && verdicts[i].status == Fail
  }

  /** The first `fail`, if there is one. */
  function Failure(verdicts: seq<Verdict>): Option<Verdict> {
    if verdicts == [] then None
    else if verdicts[0].status == Fail then Some(verdicts[0])
    else Failure(verdicts[1..])
  }

  /** The verdicts are those of the probes, in order, up to the first failure. */
  predicate UpToFirstFailure(probes: seq<Probe>, answers: nat -> S.Answer, verdicts: seq<Verdict>) {
    && |verdicts| <= |probes|
    && (forall i: nat :: i < |verdicts| ==> verdicts[i] == GateVerdict(probes[i], answers(i)))
    && (forall i :: 0 <= i < |verdicts| - 1 ==> verdicts[i].status != Fail)
    && (|verdicts| < |probes| ==> verdicts != [] && verdicts[|verdicts| - 1].status == Fail)
  }

  method RunGate(probes: seq<Probe>, answers: nat -> S.Answer) returns (verdicts: seq<Verdict>)
    ensures UpToFirstFailure(probes, answers, verdicts)
    ensures forall i: nat :: i < |verdicts| ==> verdicts[i].probe == probes[i]
    ensures forall i: nat :: i < |verdicts| && answers(i).Says? ==>
              verdicts[i].status == answers(i).status && verdicts[i].evidence == answers(i).evidence
    ensures forall i: nat :: i < |verdicts| && answers(i).Raises? ==> verdicts[i].status == Fail
  {
    verdicts := [];
    for i := 0 to |probes|
      invariant |verdicts| == i
      invariant forall k: nat :: k < i ==> verdicts[k] == GateVerdict(probes[k], answers(k))
      invariant forall k :: 0 <= k < i ==> verdicts[k].status != Fail
    {
      var verdict := match answers(i)
        case Says(status, evidence) => Verdict(probes[i], status, evidence)
        case Raises => Verdict(probes[i], Fail, map["error" := "raised"]);
      verdicts := verdicts + [verdict];
      if verdict.status == Fail {
        break;
      }
    }
  }

  lemma {:induction false} FailureIsFirst(verdicts: seq<Verdict>)
    ensures Failure(verdicts).None? <==> Passed(verdicts)
    ensures Failure(verdicts).Some? ==>
              exists i :: && 0 <= i < |verdicts| && Failure(verdicts).value == verdicts[i] && verdicts[i].status == Fail
                          && forall j :: 0 <= j < i ==> verdicts[j].status != Fail
  {
    if verdicts != [] && verdicts[0].status != Fail {
      FailureIsFirst(verdicts[1..]);
      assert forall i :: 0 <= i < |verdicts| - 1 ==> verdicts[1..][i] == verdicts[i + 1];
      if i :| 0 <= i < |verdicts| && verdicts[i].status == Fail {
        assert verdicts[1..][i - 1].status == Fail;
      }
      if Failure(verdicts).Some? {
        var i :| && 0 <= i < |verdicts[1..]| && Failure(verdicts).value == verdicts[1..][i]
                 && forall j :: 0 <= j < i ==> verdicts[1..][j].status != Fail;
        assert forall j :: 1 <= j < i + 1 ==> verdicts[j] == verdicts[1..][j - 1];
        assert Failure(verdicts).value == verdicts[i + 1];
      }
    }
  }

  /** A gate holds at most one failure, and holds it last; it passes exactly when
      every probe would answer, none of them with a `fail`: a crash fails the gate. */
  lemma GateShortCircuits(probes: seq<Probe>, answers: nat -> S.Answer, verdicts: seq<Verdict>)
    requires UpToFirstFailure(probes, answers, verdicts)
    ensures forall i :: 0 <= i < |verdicts| && verdicts[i].status == Fail ==> i == |verdicts| - 1
    ensures Passed(verdicts) <==> forall i: nat :: i < |probes| ==> answers(i).Says? && answers(i).status != Fail
    ensures Passed(verdicts) ==> |verdicts| == |probes|
    ensures !Passed(verdicts) ==> Failure(verdicts) == Some(verdicts[|verdicts| - 1])
  {
    FailureIsFirst(verdicts);
    assert forall i: nat :: i < |probes| ==>
      (GateVerdict(probes[i], answers(i)).status != Fail <==> answers(i).Says? && answers(i).status != Fail);
    hide GateVerdict;
    if |verdicts| < |probes| {
      var k := |verdicts| - 1;
      assert GateVerdict(probes[k], answers(k)).status == Fail;
    }
  }

  // --- enforcement ------------------------------------------------------------------------

  /** The reason given to `shutdown` names the probe, and a reason that contains
      "crash" is filed as a failure. */
  predicate NamesACrash(probe: Probe) {
    probe.Named? && exists i :: 0 <= i < |probe.name| && SaysCrash(probe.name, i)
  }

  predicate SaysCrash(text: string, i: nat) {
    i + 5 <= |text| && text[i..i + 5] == "crash"
  }

  /** "crash" anywhere in the name will do. */
  lemma CrashIsASubstring(name: string)
    ensures NamesACrash(Probe.Named(name)) <==> exists before, after :: name == before + "crash" + after
  {
    if i :| 0 <= i < |name| && SaysCrash(name, i) {
      assert name == name[..i] + "crash" + name[i + 5..];
    }
    if before, after :| name == before + "crash" + after {
      assert name[|before|..|before| + 5] == "crash";
      assert SaysCrash(name, |before|);
    }
  }

  function Enforced(env: Env, s: State, verdicts: seq<Verdict>, at: real, onFailure: TerminalAction): State {
    var failure := Failure(verdicts);
    if failure.None? then s
    else
      var handled := Handle(env, s, Reading(failure.value, at), None);
      Shutdown(env, handled, NamesACrash(failure.value.probe), Some(onFailure))
  }

  /** Handling a failure with no second opinion sends a message and no more: no
      snapshot is taken, and the record stops at L1 whatever its level was. */
  lemma UnconfirmedFailureStopsAtNotify(env: Env, s: State, failure: Verdict, at: real)
    requires failure.status == Fail
    ensures var next := Handle(env, s, Reading(failure, at), None);
            && M.OnlyMessages(s.trace, next.trace)
            && |next.history| == |s.history| + 1 && next.history[..|s.history|] == s.history
            && next.history[|s.history|].level ==
                 (if TargetLevel(env.overrides, failure) == LOG then LOG else NOTIFY)
            && !next.history[|s.history|].confirmed
  {
    var d, heard := Decide(env, s.memory, Reading(failure, at)), Receive(s, |s.history|, Reading(failure, at));
    assert d == Decision(failure, TargetLevel(env.overrides, failure));
    var v := if d.target > NOTIFY then Downgrade(failure) else failure;
    var target := if d.target > NOTIFY then NOTIFY else d.target;
    M.MildFinish(env, heard, v, target);
    assert M.OnlyMessages(s.trace, heard.trace);
    hide M.OnlyMessages, TargetLevel, Decide, Receive;
    assert heard.history == s.history;
    M.MessagesAdd(s.trace, heard.trace, Finish(env, heard, v, target, false).trace);
    assert Handle(env, s, Reading(failure, at), None) == Finish(env, heard, v, target, false);
  }

  /** A gate that fails always ends in a kill attempt, and one that passes never
      does; every kill made on the way is the one `startup.on_failure` asks for,
      whatever the steady-state policy. */
  lemma FailedGateKills(env: Env, s: State, verdicts: seq<Verdict>, at: real, onFailure: TerminalAction)
    ensures var next := Enforced(env, s, verdicts, at, onFailure);
            && (R.KillAttempted(s.trace, next.trace) <==> !Passed(verdicts))
            && (Passed(verdicts) ==> next == s)
            && R.Grows(s.trace, next.trace)
            && forall k :: |s.trace| <= k < |next.trace| && next.trace[k].effect.Killed? ==>
                 next.trace[k].effect.action == onFailure
  {
    FailureIsFirst(verdicts);
    if Passed(verdicts) {
      B.NothingYet(s.trace);
      R.GrowsSelf(s.trace);
    } else {
      var failure := Failure(verdicts).value;
      var handled := Handle(env, s, Reading(failure, at), None);
      var crashed := NamesACrash(failure.probe);
      UnconfirmedFailureStopsAtNotify(env, s, failure, at);
      R.ShutdownKills(env, handled, crashed, Some(onFailure));
      ShutdownKillsBy(env, handled, crashed, onFailure);
      hide Handle, Shutdown, R.KillAttempted;
      var next := Shutdown(env, handled, crashed, Some(onFailure));
      R.GrowthAdds(s.trace, handled.trace, next.trace);
      assert forall k :: 0 <= k < |handled.trace| ==> next.trace[k] == next.trace[..|handled.trace|][k];
    }
  }

  lemma ShutdownKillsBy(env: Env, s: State, crashed: bool, action: TerminalAction)
    ensures var next := Shutdown(env, s, crashed, Some(action));
            forall k :: |s.trace| <= k < |next.trace| && next.trace[k].effect.Killed? ==>
              next.trace[k].effect.action == action
  {
    var effects := ShutdownEffects(env, |s.history|, crashed, action);
    assert forall i :: 0 <= i < |effects| && effects[i].Killed? ==> effects[i].action == action;
    hide ShutdownEffects;
  }

  /** `gate_and_enforce`: `publishing` says that a `log_result` was given. Then it
      does exactly one of the two: publish `startup_ok`, or try to kill the pod. */
  method GateAndEnforce(cfg: RunConfig, ladder: EscalationLadder, probes: seq<Probe>,
                        answers: nat -> S.Answer, at: real, publishing: bool)
    returns (verdicts: seq<Verdict>, published: bool)
    requires ladder.Valid()
    modifies ladder
    ensures ladder.Valid() && UpToFirstFailure(probes, answers, verdicts)
    ensures ladder.Abs() == Enforced(ladder.env, old(ladder.Abs()), verdicts, at, cfg.startup.onFailure)
    ensures published <==> publishing && Passed(verdicts)
    ensures publishing ==> (published <==> !R.KillAttempted(old(ladder.trace), ladder.trace))
  {
    hide Handle, Shutdown, R.KillAttempted;
    verdicts := RunGate(probes, answers);
    FailedGateKills(ladder.env, ladder.Abs(), verdicts, at, cfg.startup.onFailure);
    published := false;
    var failure := Failure(verdicts);
    FailureIsFirst(verdicts);
    if failure.Some? {
      var record := ladder.Handle(Reading(failure.value, at), None);
      ladder.Shutdown(NamesACrash(failure.value.probe), Some(cfg.startup.onFailure));
    }
    if failure.None? && publishing {
      published := true;
    }
  }
}
