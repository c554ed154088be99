/** `handle_batch` is `handle`, verdict by verdict, with one wait instead of many. */
module BatchRefinement {
  import opened Verdicts
  import opened Ladder

  // --- what an onlooker who ignores waiting and re-polling sees ---------------

  predicate Hidden(e: Effect) {
    e.Received? || e.Slept? || e.Repolled?
  }

  function Visible(trace: seq<Event>): seq<Event> {
    if trace == [] then []
    else
      var k := |trace| - 1;
      Visible(trace[..k]) + if Hidden(trace[k].effect) then [] else [trace[k]]
  }

  function Seen(s: State): State {
    s.(trace := Visible(s.trace))
  }

  function Sleeps(trace: seq<Event>): nat {
    if trace == [] then 0
    else Sleeps(trace[..|trace| - 1]) + if trace[|trace| - 1].effect.Slept? then 1 else 0
  }

  lemma {:induction false} TraceAppend(a: seq<Event>, b: seq<Event>)
    ensures Visible(a + b) == Visible(a) + Visible(b)
    ensures Sleeps(a + b) == Sleeps(a) + Sleeps(b)
  {
    if b == [] {
      assert a + b == a;
    } else {
      var k := |b| - 1;
      assert (a + b)[..|a| + k] == a + b[..k];
      TraceAppend(a, b[..k]);
    }
  }

  lemma {:induction false} AllVisible(t: seq<Event>)
    requires forall i :: 0 <= i < |t| ==> !Hidden(t[i].effect)
    ensures Visible(t) == t && Sleeps(t) == 0
  {
    if t != [] {
      AllVisible(t[..|t| - 1]);
      assert t == t[..|t| - 1] + [t[|t| - 1]];
    }
  }

  lemma ExecutionIsVisible(env: Env, n: nat, v: Verdict, target: Level)
    ensures forall i :: 0 <= i < |ExecuteEffects(env, n, v, target)| ==>
              !Hidden(ExecuteEffects(env, n, v, target)[i])
  {
  }

  lemma FinishSeen(env: Env, s: State, v: Verdict, target: Level, confirmed: bool)
    ensures Seen(Finish(env, s, v, target, confirmed)) == Finish(env, Seen(s), v, target, confirmed)
    ensures Sleeps(Finish(env, s, v, target, confirmed).trace) == Sleeps(s.trace)
  {
    var n := |s.history|;
    ExecutionIsVisible(env, n, v, target);
    var added := Stamp(n, ExecuteEffects(env, n, v, target));
    AllVisible(added);
    TraceAppend(s.trace, added);
  }

  lemma SettleSeen(env: Env, s: State, d: Decision, confirmed: bool)
    ensures Seen(Settle(env, s, d, confirmed)) == Settle(env, Seen(s), d, confirmed)
    ensures Sleeps(Settle(env, s, d, confirmed).trace) == Sleeps(s.trace)
  {
    FinishSeen(env, s, Downgrade(d.promoted), NOTIFY, false);
    FinishSeen(env, s, d.promoted, d.target, confirmed);
  }

  lemma {:induction false} SettleAllSeen(env: Env, s: State, ds: seq<Decision>, recheck: Option<Verdict -> Poll>)
    ensures Seen(SettleAll(env, s, ds, recheck)) == SettleAll(env, Seen(s), ds, recheck)
    ensures Sleeps(SettleAll(env, s, ds, recheck).trace) == Sleeps(s.trace)
    decreases |ds|
  {
    if ds != [] {
      var c := Confirms(ds[0], recheck);
      SettleSeen(env, s, ds[0], c);
      SettleAllSeen(env, Settle(env, s, ds[0], c), ds[1..], recheck);
    }
  }

  lemma {:induction false} RepollsAreHidden(n: nat, ds: seq<Decision>, recheck: Verdict -> Poll)
    ensures Visible(RepollAll(n, ds, recheck)) == [] && Sleeps(RepollAll(n, ds, recheck)) == 0
    decreases |ds|
  {
    if ds != [] {
      var k := |ds| - 1;
      RepollsAreHidden(n, ds[..k], recheck);
      if ds[k].target > NOTIFY {
        var last := [Event(n + k, Repolled(ds[k].promoted.probe, SaysFail(recheck(ds[k].promoted))))];
        TraceAppend(RepollAll(n, ds[..k], recheck), last);
      }
    }
  }

  lemma {:induction false} ReceivingIsHidden(n: nat, rs: seq<Reading>)
    ensures Visible(ReceiveAll(n, rs)) == [] && Sleeps(ReceiveAll(n, rs)) == 0
    decreases |rs|
  {
    if rs != [] {
      var k := |rs| - 1;
      ReceivingIsHidden(n, rs[..k]);
      assert ReceiveAll(n, rs)[..k] == ReceiveAll(n, rs[..k]);
    }
  }

  // --- deciding and acting touch different halves of the memory ----------------

  lemma DecideAfterFinish(env: Env, m: Memory, v: Verdict, target: Level, r: Reading)
    ensures Decide(env, FinishMemory(m, v, target), r) == Decide(env, m, r)
    ensures DecideMemory(FinishMemory(m, v, target), r) == FinishMemory(DecideMemory(m, r), v, target)
  {
    var p, q := v.probe, r.verdict.probe;
    assert Recall(FinishMemory(m, v, target), q).unknownSince == Recall(m, q).unknownSince;
    hide ResolveStatus, BlindSince, Max, TargetLevel;
    if p == q {
      assert DecideMemory(FinishMemory(m, v, target), r)[p] == FinishMemory(DecideMemory(m, r), v, target)[p];
    }
  }

  lemma {:induction false} DecideAllAfterFinish(env: Env, m: Memory, v: Verdict, target: Level, rs: seq<Reading>)
    ensures DecideAll(env, FinishMemory(m, v, target), rs) == DecideAll(env, m, rs)
    ensures DecideAllMemory(FinishMemory(m, v, target), rs) == FinishMemory(DecideAllMemory(m, rs), v, target)
    decreases |rs|
  {
    if rs != [] {
      DecideAfterFinish(env, m, v, target, rs[0]);
      DecideAllAfterFinish(env, DecideMemory(m, rs[0]), v, target, rs[1..]);
    }
  }

  // --- one handle call per verdict ----------------------------------------------

  /** The re-poll that `handle` is given: the batch's, applied to this verdict. */
  function PollFor(env: Env, s: State, r: Reading, recheck: Option<Verdict -> Poll>): Option<Poll> {
    if recheck.None? then None else Some(recheck.value(Decide(env, s.memory, r).promoted))
  }

  /** `for v in verdicts: ladder.handle(v, ...)`; an exception ends the loop. */
  function Each(env: Env, s: State, rs: seq<Reading>, recheck: Option<Verdict -> Poll>): Outcome<State>
    decreases |rs|
  {
    if rs == [] then Returned(s)
    else
      var poll := PollFor(env, s, rs[0], recheck);
      if HandleCrashes(env, s, rs[0], poll) then Crashed
      else Each(env, Handle(env, s, rs[0], poll), rs[1..], recheck)
  }

  /** Some verdict wants to escalate and its re-poll returns no verdict. */
  predicate SomeRepollIsEmpty(ds: seq<Decision>, recheck: Option<Verdict -> Poll>) {
    recheck.Some? && exists i :: 0 <= i < |ds| && ds[i].target > NOTIFY && recheck.value(ds[i].promoted) == NoAnswer
  }

  function Escalations(ds: seq<Decision>): nat {
    if ds == [] then 0 else (if ds[0].target > NOTIFY then 1 else 0) + Escalations(ds[1..])
  }

  /** The batch without its waiting and re-polling. */
  function Unwaited(env: Env, s: State, rs: seq<Reading>, recheck: Option<Verdict -> Poll>): State {
    SettleAll(env, s.(memory := DecideAllMemory(s.memory, rs)), DecideAll(env, s.memory, rs), recheck)
  }

  lemma BatchSeen(env: Env, s: State, rs: seq<Reading>, recheck: Option<Verdict -> Poll>)
    ensures Seen(Batch(env, s, rs, recheck)) == Unwaited(env, Seen(s), rs, recheck)
    ensures Sleeps(Batch(env, s, rs, recheck).trace) == Sleeps(s.trace)
              + if recheck.Some? && NeedsConfirmation(DecideAll(env, s.memory, rs)) then 1 else 0
  {
    var ds := DecideAll(env, s.memory, rs);
    var n := |s.history|;
    var asked := BatchConfirmEvents(env, n, ds, recheck);
    var heard := s.trace + ReceiveAll(n, rs);
    var polled := s.(memory := DecideAllMemory(s.memory, rs), trace := heard + asked);
    ReceivingIsHidden(n, rs);
    TraceAppend(s.trace, ReceiveAll(n, rs));
    TraceAppend(heard, asked);
    if NeedsConfirmation(ds) && recheck.Some? {
      TraceAppend([Event(n, Slept(env.failsafe.confirmDelay))], RepollAll(n, ds, recheck.value));
      RepollsAreHidden(n, ds, recheck.value);
    }
    assert Seen(polled) == Seen(s).(memory := DecideAllMemory(s.memory, rs));
    SettleAllSeen(env, polled, ds, recheck);
  }

  lemma ConfirmEventsAreHidden(env: Env, n: nat, probe: Probe, poll: Poll)
    ensures Visible(ConfirmEvents(env, n, probe, poll)) == []
    ensures Sleeps(ConfirmEvents(env, n, probe, poll)) == 1
  {
    var asked := ConfirmEvents(env, n, probe, poll);
    TraceAppend([asked[0]], [asked[1]]);
    assert asked == [asked[0]] + [asked[1]];
  }

  lemma ReceiveSeen(s: State, action: nat, r: Reading)
    ensures Seen(Receive(s, action, r)) == Seen(s).(memory := DecideMemory(s.memory, r))
    ensures Sleeps(Receive(s, action, r).trace) == Sleeps(s.trace)
  {
    ReceivingIsHidden(action, [r]);
    assert ReceiveAll(action, [r]) == [Event(action, Received(r))];
    TraceAppend(s.trace, [Event(action, Received(r))]);
  }

  lemma HandleSeen(env: Env, s: State, r: Reading, recheck: Option<Verdict -> Poll>)
    requires !HandleCrashes(env, s, r, PollFor(env, s, r, recheck))
    ensures var d := Decide(env, s.memory, r);
            var after := Handle(env, s, r, PollFor(env, s, r, recheck));
            && Seen(after) == Settle(env, Seen(s).(memory := DecideMemory(s.memory, r)), d, Confirms(d, recheck))
            && Sleeps(after.trace) == Sleeps(s.trace) + if recheck.Some? && d.target > NOTIFY then 1 else 0
  {
    hide Decide, DecideMemory, Settle, Visible, Sleeps;
    var d := Decide(env, s.memory, r);
    var decided := Receive(s, |s.history|, r);
    ReceiveSeen(s, |s.history|, r);
    if d.target <= NOTIFY || recheck.None? {
      SettleSeen(env, decided, d, false);
    } else {
      var poll := recheck.value(d.promoted);
      var asked := ConfirmEvents(env, |s.history|, d.promoted.probe, poll);
      var polled := decided.(trace := decided.trace + asked);
      ConfirmEventsAreHidden(env, |s.history|, d.promoted.probe, poll);
      TraceAppend(decided.trace, asked);
      assert Seen(polled) == Seen(s).(memory := DecideMemory(s.memory, r));
      SettleSeen(env, polled, d, SaysFail(poll));
    }
  }

  /** Acting on the first verdict before or after deciding the rest is the same. */
  lemma ActingCommutesWithDeciding(env: Env, s: State, rs: seq<Reading>, recheck: Option<Verdict -> Poll>)
    requires rs != []
    ensures var d := Decide(env, s.memory, rs[0]);
            var acted := Settle(env, s.(memory := DecideMemory(s.memory, rs[0])), d, Confirms(d, recheck));
            && DecideAll(env, acted.memory, rs[1..]) == DecideAll(env, s.memory, rs)[1..]
            && Unwaited(env, acted, rs[1..], recheck) == Unwaited(env, s, rs, recheck)
  {
    var d := Decide(env, s.memory, rs[0]);
    var m := DecideMemory(s.memory, rs[0]);
    var c := Confirms(d, recheck);
    var v, target := if d.target > NOTIFY && !c then Downgrade(d.promoted) else d.promoted,
                     if d.target > NOTIFY && !c then NOTIFY else d.target;
    DecideAllAfterFinish(env, m, v, target, rs[1..]);
    var acted := Settle(env, s.(memory := m), d, c);
    var late := Settle(env, s.(memory := DecideAllMemory(m, rs[1..])), d, c);
    assert acted.(memory := DecideAllMemory(acted.memory, rs[1..])) == late;
    assert DecideAll(env, s.memory, rs) == [d] + DecideAll(env, m, rs[1..]);
  }

  lemma EmptyRepollFirstOrLater(ds: seq<Decision>, recheck: Option<Verdict -> Poll>)
    requires ds != []
    ensures SomeRepollIsEmpty(ds, recheck) <==>
              (recheck.Some? && ds[0].target > NOTIFY && recheck.value(ds[0].promoted) == NoAnswer)
              || SomeRepollIsEmpty(ds[1..], recheck)
  {
    if SomeRepollIsEmpty(ds, recheck) {
      var i :| 0 <= i < |ds| && ds[i].target > NOTIFY && recheck.value(ds[i].promoted) == NoAnswer;
      assert i > 0 ==> ds[1..][i - 1] == ds[i];
    }
    if SomeRepollIsEmpty(ds[1..], recheck) {
      var i :| 0 <= i < |ds[1..]| && ds[1..][i].target > NOTIFY && recheck.value(ds[1..][i].promoted) == NoAnswer;
      assert ds[i + 1] == ds[1..][i];
    }
  }

  /** The sequence and the batch agree on everything but waiting: the records,
      the memory, the latches and the order of the visible effects. The sequence
      runs to its end exactly when no re-poll it makes returns no verdict; then
      it waits once per escalating verdict, where the batch waits at most once. */
  lemma {:induction false} BatchRefinesSequence(
    env: Env, s: State, rs: seq<Reading>, recheck: Option<Verdict -> Poll>)
    ensures var ds := DecideAll(env, s.memory, rs);
            var one, batch := Each(env, s, rs, recheck), Batch(env, s, rs, recheck);
            && (one.Returned? <==> !SomeRepollIsEmpty(ds, recheck))
            && (one.Returned? ==>
                  && Seen(one.value) == Seen(batch)
                  && Sleeps(one.value.trace) - Sleeps(s.trace) == (if recheck.Some? then Escalations(ds) else 0))
            && Sleeps(batch.trace) - Sleeps(s.trace) ==
                 (if recheck.Some? && Escalations(ds) > 0 then 1 else 0)
    decreases |rs|
  {
    var ds := DecideAll(env, s.memory, rs);
    BatchSeen(env, s, rs, recheck);
    EscalationsCount(ds);
    if rs != [] {
      var poll := PollFor(env, s, rs[0], recheck);
      EmptyRepollFirstOrLater(ds, recheck);
      ActingCommutesWithDeciding(env, Seen(s), rs, recheck);
      ActingCommutesWithDeciding(env, s, rs, recheck);
      if !HandleCrashes(env, s, rs[0], poll) {
        var next := Handle(env, s, rs[0], poll);
        HandleSeen(env, s, rs[0], recheck);
        BatchRefinesSequence(env, next, rs[1..], recheck);
        BatchSeen(env, next, rs[1..], recheck);
        assert next.memory == Seen(next).memory;
        assert ds[1..] == DecideAll(env, next.memory, rs[1..]);
      }
    }
  }

  lemma {:induction false} EscalationsCount(ds: seq<Decision>)
    ensures Escalations(ds) > 0 <==> NeedsConfirmation(ds)
  {
    if ds != [] {
      EscalationsCount(ds[1..]);
      if NeedsConfirmation(ds[1..]) {
        var i :| 0 <= i < |ds[1..]| && ds[1..][i].target > NOTIFY;
        assert ds[i + 1].target > NOTIFY;
      }
      if NeedsConfirmation(ds) {
        var i :| 0 <= i < |ds| && ds[i].target > NOTIFY;
        assert i > 0 ==> ds[1..][i - 1].target > NOTIFY;
      }
    }
  }
}
