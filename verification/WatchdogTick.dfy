/** The watchdog's sweep and its exits, driving a ladder object. */
module WatchdogTick {
  import opened Verdicts
  import opened Ladder
  import opened Escalation
  import opened BatchRefinement
  import S = Sentinel
  import R = SentinelRuns
  import F = LadderFilings
  import W = Watchdog
  import Races = WatchdogRaces

  /** Asking the probe itself again, on the same context. */
  function AskAgain(again: Probe -> S.Answer): Verdict -> Poll {
    (v: Verdict) => match again(v.probe)
                    case Says(status, evidence) => Answered(Verdict(v.probe, status, evidence))
                    case Raises => Poll.Raised
  }

  function FirstReadings(probes: seq<Probe>, first: nat -> S.Answer, heardAt: nat -> real): seq<Reading> {
    seq(|probes|, i requires 0 <= i < |probes| => Reading(S.VerdictOf(probes[i], first(i)), heardAt(i)))
  }

  /** `tick` after the lock is released: each probe is checked and handled before
      the next is. No probe's re-poll is empty, so no handling raises. */
  method Sweep(ladder: EscalationLadder, probes: seq<Probe>,
               first: nat -> S.Answer, again: Probe -> S.Answer, heardAt: nat -> real)
    returns (verdicts: seq<Verdict>)
    requires ladder.Valid()
    modifies ladder
    ensures ladder.Valid()
    ensures Each(ladder.env, old(ladder.Abs()), FirstReadings(probes, first, heardAt), Some(AskAgain(again)))
            == Returned(ladder.Abs())
    ensures |verdicts| == |probes| && forall i :: 0 <= i < |probes| ==>
              && verdicts[i].probe == probes[i]
              && match first(i)
                 case Says(status, evidence) => verdicts[i].status == status && verdicts[i].evidence == evidence
                 case Raises => verdicts[i].status == Unknown
  {
    hide Handle, Decide;
    ghost var rs := FirstReadings(probes, first, heardAt);
    ghost var goal := Each(ladder.env, ladder.Abs(), rs, Some(AskAgain(again)));
    verdicts := [];
    for i := 0 to |probes|
      invariant ladder.Valid() && |verdicts| == i
      invariant forall k :: 0 <= k < i ==> verdicts[k] == S.VerdictOf(probes[k], first(k))
      invariant Each(ladder.env, ladder.Abs(), rs[i..], Some(AskAgain(again))) == goal
    {
      ghost var rest := rs[i..];
      assert rest[0] == rs[i] && rest[1..] == rs[i + 1..];
      var verdict := match first(i)
        case Says(status, evidence) => Verdict(probes[i], status, evidence)
        case Raises => Verdict(probes[i], Unknown, map["error" := "raised"]);
      verdicts := verdicts + [verdict];
      var poll := match again(probes[i])
        case Says(status, evidence) => Answered(Verdict(probes[i], status, evidence))
        case Raises => Poll.Raised;
      DecidingKeepsTheName(ladder.env, ladder.Abs().memory, rs[i]);
      assert Some(poll) == PollFor(ladder.env, ladder.Abs(), rs[i], Some(AskAgain(again)));
      var record := ladder.Handle(Reading(verdict, heardAt(i)), Some(poll));
    }
  }

  lemma DecidingKeepsTheName(env: Env, m: Memory, r: Reading)
    ensures Decide(env, m, r).promoted.probe == r.verdict.probe
  {
  }

  /** The watchdog confirms serially what the sentinel confirms in one wait. On
      the same answers both do the same, but for the waiting. */
  lemma SerialSweepIsABatch(
    env: Env, s: State, probes: seq<Probe>, first: nat -> S.Answer, again: Probe -> S.Answer, heardAt: nat -> real)
    ensures var rs, recheck := FirstReadings(probes, first, heardAt), Some(AskAgain(again));
            var serial, batch := Each(env, s, rs, recheck), Batch(env, s, rs, recheck);
            && serial.Returned? && Seen(serial.value) == Seen(batch)
            && Sleeps(serial.value.trace) - Sleeps(s.trace) == Escalations(DecideAll(env, s.memory, rs))
  {
    BatchRefinesSequence(env, s, FirstReadings(probes, first, heardAt), Some(AskAgain(again)));
  }

  /** So a tick files one record for each of its probes, in order, past a message exactly
      when the probe said `fail`, may go that far, and said `fail` again. */
  lemma TickEscalatesIff(
    env: Env, s: State, probes: seq<Probe>, first: nat -> S.Answer, again: Probe -> S.Answer, heardAt: nat -> real,
    i: nat)
    requires i < |probes|
    ensures var n, after := |s.history|, Each(env, s, FirstReadings(probes, first, heardAt), Some(AskAgain(again)));
            var p := probes[i];
            var own := if p in env.overrides then env.overrides[p] else DefaultLevel(p);
            && after.Returned? && |after.value.history| == n + |probes| && after.value.history[..n] == s.history
            && after.value.history[n + i].verdict.probe == p
            && (after.value.history[n + i].level > NOTIFY <==>
                  && first(i).Says? && first(i).status == Fail && own > NOTIFY
                  && again(p).Says? && again(p).status == Fail)
  {
    hide Each, Batch;
    var rs, recheck := FirstReadings(probes, first, heardAt), Some(AskAgain(again));
    SerialSweepIsABatch(env, s, probes, first, again, heardAt);
    assert rs[i].verdict == S.VerdictOf(probes[i], first(i));
    F.BatchEscalatesIff(env, s, rs, recheck, i);
    var serial, batch := Each(env, s, rs, recheck).value, Batch(env, s, rs, recheck);
    assert serial.history == Seen(serial).history == Seen(batch).history == batch.history;
  }

  /** A sweep's two readings of the step counter lead past L1 exactly when both say
      `fail` and its level allows it. */
  lemma StepCounterEscalatesIff(env: Env, s: State, first: Verdict, at: real, second: Verdict)
    requires first.probe == second.probe == StepCounter
    ensures var next := Handle(env, s, Reading(first, at), Some(Answered(second)));
            && !HandleCrashes(env, s, Reading(first, at), Some(Answered(second)))
            && |next.history| == |s.history| + 1
            && (next.history[|s.history|].level > NOTIFY <==>
                  first.status == Fail && second.status == Fail && TargetLevel(env.overrides, first) > NOTIFY)
  {
  }

  /** A loop that beats is never escalated on: in every schedule, if the loop beats
      while the ladder waits to confirm, then whatever the first reading was, the
      record made with the re-poll's note stays at L1 or below, unless the threshold
      has passed again by then. */
  lemma BeatStaysAtNotify(
    w: W.World, world: W.State, moves: seq<W.Move>, env: Env, s: State, first: Verdict, at: real, second: Verdict)
    requires W.Inv(world) && world.ticker.Waiting?
    requires W.UpdatedAt in world.memory.local && world.memory.local[W.UpdatedAt] == world.clock
    requires W.CleanMoves(moves) && W.Exec(w, world, moves).Some?
    requires |W.Exec(w, world, moves).value.log| > |world.log|
    requires first.probe == second.probe == StepCounter
    requires var note := W.Exec(w, world, moves).value.log[|world.log|];
             && second.status == (if note.Blind? then Unknown else note.status)
             && (note.Judged? ==> note.at - world.clock <= note.budget)
    ensures var next := Handle(env, s, Reading(first, at), Some(Answered(second)));
            |next.history| == |s.history| + 1 && next.history[|s.history|].level <= NOTIFY
  {
    Races.BeatStopsConfirmation(w, world, moves);
    StepCounterEscalatesIff(env, s, first, at, second);
    hide Handle, W.Exec, W.Inv;
  }

  // --- leaving the `with` block ------------------------------------------------------------

  /** How the training script's block ends. SystemExit is one of the crashes. */
  datatype Exit = Completed | Interrupted | CrashedWith(description: string)

  /** No way out of the block leaves the pod alone: `_terminate` is always called,
      and the pod is known to be down unless the kill could not be made. */
  method Leave(ladder: EscalationLadder, exit: Exit)
    requires ladder.Valid()
    modifies ladder
    ensures ladder.Valid()
    ensures ladder.Abs() == Shutdown(ladder.env, old(ladder.Abs()), exit.CrashedWith?, None)
    ensures R.KillAttempted(old(ladder.trace), ladder.trace)
    ensures ladder.terminated <==> old(ladder.terminated) || KillLands(ladder.env, |old(ladder.history)|)
  {
    R.ShutdownKills(ladder.env, ladder.Abs(), exit.CrashedWith?, None);
    hide R.KillAttempted;
    match exit
    case Completed => ladder.Shutdown(false, None);
    case Interrupted => ladder.Shutdown(false, None);
    case CrashedWith(_) => ladder.Shutdown(true, None);
  }
}
