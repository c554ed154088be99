/** Reading a ladder's trace back: what each action did, what was heard, and
    how long a probe has been blind. */
module LadderTraces {
  import opened Verdicts
  import opened Ladder
  import opened BatchRefinement

  /** The visible effects of one action, in order. */
  function Of(trace: seq<Event>, action: nat): seq<Effect> {
    if trace == [] then []
    else
      var k := |trace| - 1;
      Of(trace[..k], action)
      + if trace[k].action == action && !Hidden(trace[k].effect) then [trace[k].effect] else []
  }

  /** Every reading handed to the ladder, in the order it was decided. */
  function Heard(trace: seq<Event>): seq<Reading> {
    if trace == [] then []
    else
      var k := |trace| - 1;
      Heard(trace[..k]) + if trace[k].effect.Received? then [trace[k].effect.reading] else []
  }

  lemma {:induction false} OfAppend(a: seq<Event>, b: seq<Event>, action: nat)
    ensures Of(a + b, action) == Of(a, action) + Of(b, action)
  {
    if b == [] {
      assert a + b == a;
    } else {
      var k := |b| - 1;
      assert (a + b)[..|a| + k] == a + b[..k];
      OfAppend(a, b[..k], action);
    }
  }

  lemma {:induction false} HeardAppend(a: seq<Event>, b: seq<Event>)
    ensures Heard(a + b) == Heard(a) + Heard(b)
  {
    if b == [] {
      assert a + b == a;
    } else {
      var k := |b| - 1;
      assert (a + b)[..|a| + k] == a + b[..k];
      HeardAppend(a, b[..k]);
    }
  }

  lemma {:induction false} StampRead(n: nat, effects: seq<Effect>, action: nat)
    requires forall i :: 0 <= i < |effects| ==> !Hidden(effects[i])
    ensures Of(Stamp(n, effects), action) == if action == n then effects else []
    ensures Heard(Stamp(n, effects)) == []
    decreases |effects|
  {
    if effects != [] {
      var k := |effects| - 1;
      StampRead(n, effects[..k], action);
      var all := Stamp(n, effects);
      assert all[..k] == Stamp(n, effects[..k]) && all[k] == Event(n, effects[k]);
      assert effects == effects[..k] + [effects[k]];
      hide Stamp;
    }
  }

  lemma {:induction false} HiddenRead(events: seq<Event>, action: nat)
    requires forall i :: 0 <= i < |events| ==> Hidden(events[i].effect)
    ensures Of(events, action) == []
    ensures (forall i :: 0 <= i < |events| ==> !events[i].effect.Received?) ==> Heard(events) == []
  {
    if events != [] {
      HiddenRead(events[..|events| - 1], action);
    }
  }

  // --- which record is which -------------------------------------------------

  /** The three steps `shutdown` files; no handled verdict leaves this list. */
  predicate IsShutdown(r: ActionRecord) {
    |r.steps| == 3 && r.steps[2].TerminateStep?
  }

  lemma HandledIsNotShutdown(env: Env, n: nat, v: Verdict, target: Level, confirmed: bool)
    ensures !IsShutdown(RecordOf(env, n, v, target, confirmed))
  {
  }

  /** The level a record was aimed at, before a missed checkpoint raised it. */
  function Aim(env: Env, r: ActionRecord): Level {
    TargetLevel(env.overrides, r.verdict)
  }

  // --- a probe's memory, read off the history ----------------------------------

  /** `fail` records of a probe since its last LOG record. */
  function FailsSinceLog(history: seq<ActionRecord>, probe: Probe): nat {
    if history == [] then 0
    else
      var k := |history| - 1;
      var r := history[k];
      if IsShutdown(r) || r.verdict.probe != probe then FailsSinceLog(history[..k], probe)
      else if r.level == LOG then 0
      else FailsSinceLog(history[..k], probe) + if r.verdict.status == Fail then 1 else 0
  }

  /** The highest level a probe was aimed at since its last LOG record. */
  function HighestSinceLog(env: Env, history: seq<ActionRecord>, probe: Probe): Level {
    if history == [] then LOG
    else
      var k := |history| - 1;
      var r := history[k];
      if IsShutdown(r) || r.verdict.probe != probe then HighestSinceLog(env, history[..k], probe)
      else if r.level == LOG then LOG
      else Max(HighestSinceLog(env, history[..k], probe), Aim(env, r))
  }

  // --- blindness, read off what was heard --------------------------------------

  predicate Unreadable(rs: seq<Reading>, probe: Probe, i: int) {
    0 <= i < |rs| && rs[i].verdict.probe == probe && rs[i].verdict.status == Unknown
  }

  predicate Readable(rs: seq<Reading>, probe: Probe, i: int) {
    0 <= i < |rs| && rs[i].verdict.probe == probe && rs[i].verdict.status != Unknown
  }

  /** Reading `i` is the first of the probe's current maximal run of `unknown`s:
      nothing readable since, and nothing unreadable before it without something
      readable in between. */
  ghost predicate StartsBlindRun(rs: seq<Reading>, probe: Probe, i: int) {
    && Unreadable(rs, probe, i)
    && (forall j :: i < j ==> !Readable(rs, probe, j))
    && (forall j :: j < i && Unreadable(rs, probe, j) ==> exists m :: j < m < i && Readable(rs, probe, m))
  }

  ghost predicate BlindSinceIs(rs: seq<Reading>, probe: Probe, since: Option<real>) {
    match since
    case None => forall i :: !StartsBlindRun(rs, probe, i)
    case Some(t) => exists i :: StartsBlindRun(rs, probe, i) && rs[i].at == t
  }

  /** An unreadable reading with nothing readable after it lies in a run that
      starts somewhere. */
  lemma {:induction false} RunHasStart(rs: seq<Reading>, probe: Probe, j: int) returns (i: int)
    requires Unreadable(rs, probe, j)
    requires forall m :: j < m ==> !Readable(rs, probe, m)
    ensures StartsBlindRun(rs, probe, i)
    decreases j
  {
    if k :| k < j && Unreadable(rs, probe, k) && (forall m :: k < m < j ==> !Readable(rs, probe, m)) {
      assert forall m :: k < m ==> !Readable(rs, probe, m);
      i := RunHasStart(rs, probe, k);
    } else {
      i := j;
    }
  }

  lemma RunsStartOnce(rs: seq<Reading>, probe: Probe, i: int, j: int)
    requires StartsBlindRun(rs, probe, i) && StartsBlindRun(rs, probe, j)
    ensures i == j
  {
  }

  /** A reading that does not break blindness leaves every run's start alone. */
  lemma RunsKeepTheirStart(rs: seq<Reading>, r: Reading, probe: Probe, i: int)
    requires i < |rs|
    requires !Readable(rs + [r], probe, |rs|)
    ensures StartsBlindRun(rs + [r], probe, i) <==> StartsBlindRun(rs, probe, i)
  {
    var more := rs + [r];
    assert forall m :: m < |rs| ==> Readable(more, probe, m) == Readable(rs, probe, m);
    assert forall m :: m < |rs| ==> Unreadable(more, probe, m) == Unreadable(rs, probe, m);
    assert forall m :: m > |rs| ==> !Readable(more, probe, m);
  }

  lemma FirstUnreadableStartsARun(rs: seq<Reading>, r: Reading, probe: Probe)
    requires BlindSinceIs(rs, probe, None)
    requires r.verdict.probe == probe && r.verdict.status == Unknown
    ensures StartsBlindRun(rs + [r], probe, |rs|)
  {
    var more := rs + [r];
    forall j | j < |rs| && Unreadable(more, probe, j)
      ensures exists m :: j < m < |rs| && Readable(more, probe, m)
    {
      assert Unreadable(rs, probe, j);
      if forall m :: j < m ==> !Readable(rs, probe, m) {
        var i := RunHasStart(rs, probe, j);
        assert false;
      }
      var m :| j < m && Readable(rs, probe, m);
      assert Readable(more, probe, m);
    }
  }

  /** Hearing one more reading moves a run's start exactly as it moves the clock. */
  lemma BlindSinceStep(rs: seq<Reading>, r: Reading, probe: Probe, since: Option<real>)
    requires BlindSinceIs(rs, probe, since)
    ensures BlindSinceIs(rs + [r], probe, if r.verdict.probe == probe then BlindSince(since, r) else since)
  {
    var more, n := rs + [r], |rs|;
    if r.verdict.probe == probe && r.verdict.status != Unknown {
      assert Readable(more, probe, n);
    } else {
      forall i | i < n
        ensures StartsBlindRun(more, probe, i) <==> StartsBlindRun(rs, probe, i)
      {
        RunsKeepTheirStart(rs, r, probe, i);
      }
      if since.Some? {
        var i :| StartsBlindRun(rs, probe, i) && rs[i].at == since.value;
        assert StartsBlindRun(more, probe, i) && more[i].at == since.value;
      } else if r.verdict.probe == probe {
        FirstUnreadableStartsARun(rs, r, probe);
        assert more[n].at == r.at;
      }
    }
  }
}
