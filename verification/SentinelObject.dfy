/** The sentinel as the object it is, driving a ladder object. */
module SentinelObject {
  import opened Verdicts
  import opened Config
  import opened Ladder
  import opened Escalation
  import S = Sentinel

  class Sentinel {
    const env: S.SentinelEnv
    const ladder: EscalationLadder
    var lastContact: real
    var startupSeen: bool
    var ticks: nat
    var history: seq<S.TickResult>

    ghost predicate Valid()
      reads this, ladder
    {
      ladder.env == env.ladder && ladder.Valid()
    }

    ghost function Abs(): S.Watch
      reads this, ladder
    {
      S.Watch(ladder.Abs(), lastContact, startupSeen, ticks, history)
    }

    constructor (env: S.SentinelEnv, ladder: EscalationLadder)
      requires ladder.env == env.ladder && ladder.Valid()
      ensures Valid() && this.env == env && this.ladder == ladder
      ensures Abs() == S.Watch(ladder.Abs(), env.podCreatedAt, false, 0, [])
    {
      this.env := env;
      this.ladder := ladder;
      lastContact, startupSeen, ticks, history := env.podCreatedAt, false, 0, [];
    }

    method CheckStartupDeadline(look: real, summary: S.Summary) returns (v: Option<Verdict>)
      modifies this`startupSeen
      ensures v == S.StartupVerdict(env, old(startupSeen), look, summary)
      ensures startupSeen == S.SeenAfter(old(startupSeen), summary)
    {
      if startupSeen {
        return None;
      }
      var age := look - env.podCreatedAt;
      if summary.Summary? && summary.startupOk {
        startupSeen := true;
        return None;
      }
      if summary.Summary? && summary.logged {
        startupSeen := true;
        return None;
      }
      if age <= env.cfg.startup.deadline {
        return None;
      }
      return Some(S.LATE_START);
    }

    method CheckDeadMansSwitch(look: real) returns (v: Option<Verdict>)
      ensures v == if look - lastContact >= env.cfg.failsafe.deadMansTimeout then Some(S.DEAD_MAN) else None
    {
      var silence := look - lastContact;
      if silence < env.cfg.failsafe.deadMansTimeout {
        return None;
      }
      return Some(S.DEAD_MAN);
    }

    /** Startup was late. The re-poll looks again, and may find a run that has
        started; then it has no verdict to give and the handler raises. */
    method LateTick(w: S.Sweep) returns (outcome: Outcome<S.TickResult>)
      requires Valid() && !startupSeen
      modifies this, ladder
      ensures Valid() && Abs() == S.LateTick(env, old(Abs()), w).0
      ensures outcome == S.LateTick(env, old(Abs()), w).1
    {
      var r := Reading(S.LATE_START, w.firstLook);
      var poll := NoAnswer;
      if Decide(env.ladder, ladder.memory, r).target > NOTIFY {
        var second := CheckStartupDeadline(w.secondLook, w.secondSummary);
        if second.Some? {
          poll := Answered(second.value);
        }
      }
      var handled := ladder.Handle(r, Some(poll));
      if handled.Crashed? {
        return Crashed;
      }
      ladder.Shutdown(false, None);
      var money := S.Money(env, w);
      var result := S.TickResult([S.LATE_START], money.0, money.1, true);
      ticks := ticks + 1;
      history := history + [result];
      return Returned(result);
    }

    /** The probes, one by one, and a probe crash turned into blindness. */
    method AskProbes(w: S.Sweep) returns (verdicts: seq<Verdict>, readings: seq<Reading>)
      ensures verdicts == S.SweepVerdicts(env, w) && readings == S.SweepReadings(env, w)
      ensures |verdicts| == |env.probes| && forall i :: 0 <= i < |verdicts| ==>
                && verdicts[i].probe == env.probes[i]
                && match w.first(i)
                   case Says(status, evidence) => verdicts[i].status == status && verdicts[i].evidence == evidence
                   case Raises => verdicts[i].status == Unknown
    {
      verdicts, readings := [], [];
      for i := 0 to |env.probes|
        invariant |verdicts| == |readings| == i
        invariant forall k :: 0 <= k < i ==> verdicts[k] == S.VerdictOf(env.probes[k], w.first(k))
        invariant forall k :: 0 <= k < i ==> readings[k] == Reading(verdicts[k], w.heardAt(k))
      {
        var verdict := match w.first(i)
          case Says(status, evidence) => Verdict(env.probes[i], status, evidence)
          case Raises => Verdict(env.probes[i], Unknown, map["error" := "raised"]);
        verdicts := verdicts + [verdict];
        readings := readings + [Reading(verdict, w.heardAt(i))];
      }
    }

    method Tick(w: S.Sweep) returns (outcome: Outcome<S.TickResult>)
      requires Valid()
      modifies this, ladder
      ensures Valid() && Abs() == S.Tick(env, old(Abs()), w).0
      ensures outcome == S.Tick(env, old(Abs()), w).1
      ensures history == old(history) + if outcome.Returned? then [outcome.value] else []
      ensures outcome.Returned? ==>
                if S.LateStart(env, old(Abs()), w) then
                  outcome.value.terminated && outcome.value.verdicts == [Verdict(StartupDeadline, Fail, map[])]
                else
                  outcome.value.verdicts == S.SweepVerdicts(env, w)
                    + if outcome.value.terminated then [Verdict(DeadMansSwitch, Fail, map[])] else []
      ensures ticks == old(ticks) + if outcome.Returned? then 1 else 0
      ensures outcome.Returned? ==>
                && (w.billedHours.None? ==> outcome.value.spend.None? && outcome.value.projected.None?)
                && (w.billedHours.Some? ==>
                      var budget := env.cfg.budget;
                      && outcome.value.spend == Some(SpendAt(budget, w.billedHours.value))
                      && outcome.value.projected == Some(SpendAt(budget, budget.maxWallClockHours)))
    {
      hide Handle, Batch, Shutdown, S.Repoll, S.StartupPoll;
      ghost var start := Abs();
      var money := S.Money(env, w);
      var contacted := w.podAnswers || w.runAnswers;
      var late := CheckStartupDeadline(w.firstLook, w.firstSummary);
      if late.Some? {
        assert Abs() == start;
        outcome := LateTick(w);
        return;
      }
      var verdicts, readings := AskProbes(w);
      var records := ladder.HandleBatch(readings, Some(S.Repoll(env, w)));
      var terminated := false;
      if contacted {
        lastContact := w.lastLook;
      } else {
        var deadMan := CheckDeadMansSwitch(w.lastLook);
        if deadMan.Some? {
          verdicts := verdicts + [deadMan.value];
          var handled := ladder.Handle(Reading(deadMan.value, w.lastLook), None);
          ladder.Shutdown(false, None);
          terminated := true;
        }
      }
      assert verdicts == S.SweepVerdicts(env, w) + if terminated then [S.DEAD_MAN] else [];
      var result := S.TickResult(verdicts, money.0, money.1, terminated);
      ticks := ticks + 1;
      history := history + [result];
      return Returned(result);
    }

    /** Stop polling only when the run is done and the pod is gone. */
    method Finished(w: S.Sweep) returns (over: bool)
      ensures over <==> w.runEnded == Some(true) && w.podRunning == Some(false)
    {
      if w.runEnded.None? {
        return false;
      }
      if !w.runEnded.value {
        return false;
      }
      return w.podRunning.Some? && !w.podRunning.value;
    }

    /** Polls until the run ends, the pod is down, `maxTicks`, or the world in
        `ws` has no more sweeps to offer. A tick that raises ends it too. */
    method Run(ws: seq<S.Sweep>, maxTicks: Option<nat>) returns (results: seq<S.TickResult>, stop: S.Stop)
      requires Valid()
      modifies this, ladder
      ensures Valid()
      ensures S.KeepWatch(env, old(Abs()), ws, maxTicks, 0).state == Abs()
      ensures S.KeepWatch(env, old(Abs()), ws, maxTicks, 0).stop == stop
      ensures history == old(history) + results
    {
      hide S.Tick;
      ghost var goal := S.KeepWatch(env, Abs(), ws, maxTicks, 0);
      results := [];
      var i := 0;
      while (maxTicks.None? || |results| < maxTicks.value) && i < |ws|
        invariant Valid() && 0 <= i <= |ws| && |results| == i
        invariant S.KeepWatch(env, Abs(), ws[i..], maxTicks, i) == goal
        invariant history == old(history) + results
      {
        ghost var rest := ws[i..];
        assert rest[0] == ws[i] && rest[1..] == ws[i + 1..];
        var outcome := Tick(ws[i]);
        if outcome.Crashed? {
          return results, S.TickRaised;
        }
        results := results + [outcome.value];
        if outcome.value.terminated || ladder.terminated {
          return results, S.PodDown;
        }
        var over := Finished(ws[i]);
        if over {
          return results, S.RunOver;
        }
        i := i + 1;
      }
      stop := if maxTicks.Some? && |results| >= maxTicks.value then S.OutOfTicks else S.OutOfScript;
    }
  }
}
