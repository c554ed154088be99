/** What the unlocked reads of the step counter can and cannot get wrong. */
module WatchdogRaces {
  import opened Verdicts
  import opened Config
  import opened Watchdog

  // --- a beat is never missed ---------------------------------------------------------

  /** No poll is under way that read its `updated_at` already. */
  predicate StampUnread(s: State) {
    s.ticker.Polling? ==> s.ticker.seen.Nothing? || s.ticker.seen.GotStep?
  }

  predicate Repolling(s: State) {
    s.ticker.Waiting? || (s.ticker.Polling? && s.ticker.again)
  }

  /** The loop has beaten at `beat` or later, and the poll that files note `n` has
      read no older stamp; `again` says that this poll is a re-poll. */
  ghost predicate Judging(s: State, beat: real, n: nat, again: bool) {
    && UpdatedAt in s.memory.local && s.memory.local[UpdatedAt] >= beat
    && n <= |s.log|
    && (n == |s.log| && again ==> Repolling(s))
    && (n == |s.log| && s.ticker.Polling? ==>
          match s.ticker.seen
          case GotUpdated(updated) => updated >= beat
          case GotNow(updated, now) => updated >= beat && now <= s.clock
          case _ => true)
    && (n < |s.log| && again ==> s.log[n].again)
    && (n < |s.log| && s.log[n].Judged? && s.log[n].status == Fail ==> s.log[n].at - beat > s.log[n].budget)
  }

  lemma JudgingGoesOn(w: World, s: State, m: Move, beat: real, n: nat, again: bool)
    requires Inv(s) && Next(w, s, m).Some? && (m.Enter? ==> Clean(m.call))
    requires Judging(s, beat, n, again)
    ensures Judging(Next(w, s, m).value, beat, n, again)
  {
    NextKeepsInv(w, s, m);
    hide Resolve, Paired;
  }

  lemma {:induction false} JudgingLasts(w: World, s: State, moves: seq<Move>, again: bool)
    requires Inv(s) && StampUnread(s) && UpdatedAt in s.memory.local && (again ==> Repolling(s))
    requires CleanMoves(moves) && Exec(w, s, moves).Some?
    ensures Judging(Exec(w, s, moves).value, s.memory.local[UpdatedAt], |s.log|, again)
  {
    if moves != [] {
      var k := |moves| - 1;
      JudgingLasts(w, s, moves[..k], again);
      ExecKeepsInv(w, s, moves[..k]);
      JudgingGoesOn(w, Exec(w, s, moves[..k]).value, moves[k], s.memory.local[UpdatedAt], |s.log|, again);
    }
  }

  /** However the threads interleave, and however torn the reads: a poll that fails
      does so more than its threshold after every beat that was stamped before the
      poll read the stamp. */
  lemma FailMeansSilence(w: World, s: State, moves: seq<Move>)
    requires Inv(s) && StampUnread(s) && UpdatedAt in s.memory.local
    requires CleanMoves(moves) && Exec(w, s, moves).Some?
    requires |Exec(w, s, moves).value.log| > |s.log|
    ensures var note := Exec(w, s, moves).value.log[|s.log|];
            note.Judged? && note.status == Fail ==> note.at - s.memory.local[UpdatedAt] > note.budget
  {
    JudgingLasts(w, s, moves, false);
  }

  /** So a beat inside the confirmation delay stops a fail from being confirmed,
      for as long as the threshold after that beat has not passed again. */
  lemma BeatStopsConfirmation(w: World, s: State, moves: seq<Move>)
    requires Inv(s) && s.ticker.Waiting? && UpdatedAt in s.memory.local && s.memory.local[UpdatedAt] == s.clock
    requires CleanMoves(moves) && Exec(w, s, moves).Some?
    requires |Exec(w, s, moves).value.log| > |s.log|
    ensures var note := Exec(w, s, moves).value.log[|s.log|];
            && note.again
            && (note.Judged? && note.at - s.clock <= note.budget ==> note.status == Ok)
  {
    JudgingLasts(w, s, moves, true);
    NotesAreOkOrFail(w, s, moves);
  }

  lemma {:induction false} NotesAreOkOrFail(w: World, s: State, moves: seq<Move>)
    requires Exec(w, s, moves).Some?
    ensures |s.log| <= |Exec(w, s, moves).value.log|
    ensures forall i :: |s.log| <= i < |Exec(w, s, moves).value.log| ==>
              var note := Exec(w, s, moves).value.log[i];
              note.Judged? ==> note.status == Ok || note.status == Fail
  {
    hide Resolve;
    if moves != [] {
      NotesAreOkOrFail(w, s, moves[..|moves| - 1]);
    }
  }

  // --- a re-poll waits ------------------------------------------------------------------

  predicate FailedFirst(note: Note) {
    note.Judged? && !note.again && note.status == Fail
  }

  /** Note `k` is a re-poll's: it comes after a first reading that failed, and at
      least the confirmation delay later. */
  predicate SecondReading(w: World, log: seq<Note>, k: nat)
    requires k < |log|
  {
    && k > 0 && FailedFirst(log[k - 1])
    && (log[k].Judged? ==> log[k].at >= log[k - 1].at + w.confirmDelay)
  }

  ghost predicate Patient(w: World, s: State) {
    && (forall k: nat :: k < |s.log| && s.log[k].again ==> SecondReading(w, s.log, k))
    && (Repolling(s) ==>
          && s.log != [] && FailedFirst(s.log[|s.log| - 1])
          && (s.ticker.Waiting? ==> s.ticker.until == s.log[|s.log| - 1].at + w.confirmDelay)
          && (s.ticker.Polling? ==> s.clock >= s.log[|s.log| - 1].at + w.confirmDelay))
  }

  lemma PatienceGoesOn(w: World, s: State, m: Move)
    requires Patient(w, s) && Next(w, s, m).Some?
    ensures Patient(w, Next(w, s, m).value)
  {
    hide Resolve;
    var t := Next(w, s, m).value;
    assert |t.log| <= |s.log| + 1 && t.log[..|s.log|] == s.log;
    forall k: nat | k < |t.log| && t.log[k].again ensures SecondReading(w, t.log, k) {
      if k < |s.log| {
        assert SecondReading(w, s.log, k);
      }
    }
  }

  /** Only a first reading that failed is ever re-polled, and never before the
      confirmation delay has passed. */
  lemma {:induction false} RepollsWait(w: World, baselines: map<string, real>, clock: real, moves: seq<Move>)
    requires Exec(w, Start(baselines, clock), moves).Some?
    ensures Patient(w, Exec(w, Start(baselines, clock), moves).value)
  {
    if moves != [] {
      var k := |moves| - 1;
      RepollsWait(w, baselines, clock, moves[..k]);
      PatienceGoesOn(w, Exec(w, Start(baselines, clock), moves[..k]).value, moves[k]);
    }
  }

  // --- a re-poll alone is no second opinion --------------------------------------------

  /** Moves of the clock and of one check and its re-poll. */
  predicate Alone(m: Move) {
    m.Pass? || m.Read? || m.Wake?
  }

  predicate Says(note: Note, status: Status) {
    match note
    case Blind(_) => status == Unknown
    case Judged(_, said, _, _) => said == status
  }

  /** A poll that has read nothing but this memory. */
  ghost predicate ReadFrom(m: Memory, ticker: TickerAt) {
    ticker.Polling? ==>
      match ticker.seen
      case Nothing => true
      case GotStep(there) => there == (StepKey in m.local)
      case GotUpdated(updated) => StepKey in m.local && UpdatedAt in m.local && updated == m.local[UpdatedAt]
      case GotNow(updated, now) =>
        && StepKey in m.local && UpdatedAt in m.local
        && updated == m.local[UpdatedAt] && now == Get(m.local, NowKey, 0.0)
  }

  lemma AloneStep(w: World, m: Memory, s: State, move: Move)
    requires Alone(move) && Next(w, s, move).Some? && s.memory == m && ReadFrom(m, s.ticker)
    ensures var t := Next(w, s, move).value;
            && t.memory == m && ReadFrom(m, t.ticker)
            && (t.log == s.log || (|t.log| == |s.log| + 1 && t.log[..|s.log|] == s.log
                                   && Says(t.log[|s.log|], StepStatus(w.stall, m))))
  {
    hide Resolve;
  }

  /** The re-poll does not refresh `now`: while the trainer makes no call, a check
      and its re-poll say the same, whatever the clock does in between. */
  lemma {:induction false} QuietRepollRepeats(w: World, s: State, moves: seq<Move>)
    requires s.ticker == Polling(false, Nothing)
    requires forall i :: 0 <= i < |moves| ==> Alone(moves[i])
    requires Exec(w, s, moves).Some?
    ensures var t := Exec(w, s, moves).value;
            && t.memory == s.memory && ReadFrom(s.memory, t.ticker) && |s.log| <= |t.log|
            && forall i :: |s.log| <= i < |t.log| ==> Says(t.log[i], StepStatus(w.stall, s.memory))
  {
    if moves != [] {
      var k := |moves| - 1;
      QuietRepollRepeats(w, s, moves[..k]);
      AloneStep(w, s.memory, Exec(w, s, moves[..k]).value, moves[k]);
      hide Next, Says, StepStatus, ReadFrom;
    }
  }

  /** A first reading that failed is asked again, from any state: once the delay is over
      the ladder wakes and reads the memory there is. */
  lemma WaitLeadsToARepoll(w: World, s: State) returns (moves: seq<Move>)
    requires s.ticker.Waiting?
    ensures forall i :: 0 <= i < |moves| ==> Alone(moves[i])
    ensures var t := Exec(w, s, moves);
            && t.Some? && t.value.ticker.Resting? && t.value.memory == s.memory
            && |t.value.log| == |s.log| + 1 && t.value.log[..|s.log|] == s.log
            && t.value.log[|s.log|].again && Says(t.value.log[|s.log|], StepStatus(w.stall, s.memory))
  {
    hide Resolve;
    var wait := if s.ticker.until > s.clock then s.ticker.until - s.clock else 0.0;
    var up := [Pass(wait), Wake, Read];
    var asked := s.(clock := s.clock + wait, ticker := Polling(true, GotStep(StepKey in s.memory.local)));
    assert Exec(w, s, up) == Some(asked) by {
      var passed := s.(clock := s.clock + wait);
      var woken := passed.(ticker := Polling(true, Nothing));
      ExecOne(w, s, Pass(wait));
      ExecOne(w, passed, Wake);
      ExecOne(w, woken, Read);
      ExecConcat(w, s, [Pass(wait)], [Wake]);
      ExecConcat(w, s, [Pass(wait)] + [Wake], [Read]);
      assert up == [Pass(wait)] + [Wake] + [Read];
    }
    if StepKey !in s.memory.local || UpdatedAt !in s.memory.local {
      ExecOne(w, asked, Read);
      ExecConcat(w, s, up, [Read]);
      return up + [Read];
    }
    var updated := asked.(ticker := Polling(true, GotUpdated(s.memory.local[UpdatedAt])));
    var now := asked.(ticker := Polling(true, GotNow(s.memory.local[UpdatedAt], Get(s.memory.local, NowKey, 0.0))));
    ExecOne(w, asked, Read);
    ExecOne(w, updated, Read);
    ExecOne(w, now, Read);
    ExecConcat(w, asked, [Read], [Read]);
    ExecConcat(w, asked, [Read] + [Read], [Read]);
    ExecConcat(w, s, up, [Read] + [Read] + [Read]);
    return up + ([Read] + [Read] + [Read]);
  }

  // --- uninterrupted calls, and a torn read ----------------------------------------------

  lemma {:induction false} ExecConcat(w: World, s: State, a: seq<Move>, b: seq<Move>)
    requires Exec(w, s, a).Some?
    ensures Exec(w, s, a + b) == Exec(w, Exec(w, s, a).value, b)
  {
    if b == [] {
      assert a + b == a;
    } else {
      var k := |b| - 1;
      assert (a + b)[..|a| + k] == a + b[..k];
      ExecConcat(w, s, a, b[..k]);
    }
  }

  function Writes(k: nat): seq<Move> {
    seq(k, _ => WriteOne)
  }

  /** A call nobody interleaves with. */
  function Uninterrupted(call: Call): seq<Move> {
    [Enter(call)] + Writes(|Program(call)|) + [Leave]
  }

  lemma {:induction false} WritesRunTheProgram(w: World, s: State, call: Call, clock: nat -> real, k: nat)
    requires LockFree(s) && k <= |Program(call)| && forall i: nat :: clock(i) == s.clock
    ensures Exec(w, s, [Enter(call)] + Writes(k)) ==
              Some(s.(memory := Executed(s.memory, Program(call), clock, k), trainer := In(Program(call)[k..])))
  {
    var moves := [Enter(call)] + Writes(k);
    if k == 0 {
      assert moves == [Enter(call)] && moves[..0] == [];
      assert Program(call)[0..] == Program(call);
    } else {
      hide Program, Written, Executed;
      WritesRunTheProgram(w, s, call, clock, k - 1);
      ExecutedNext(s.memory, Program(call), clock, k - 1);
      assert moves[..k] == [Enter(call)] + Writes(k - 1) && moves[k] == WriteOne;
      assert Program(call)[k - 1..][1..] == Program(call)[k..];
    }
  }

  /** An uninterrupted call does what the watchdog's method does. */
  lemma CallRunsItsProgram(w: World, s: State, call: Call, clock: nat -> real)
    requires LockFree(s) && forall i: nat :: clock(i) == s.clock
    ensures Exec(w, s, Uninterrupted(call)) ==
              Some(s.(memory := Executed(s.memory, Program(call), clock, |Program(call)|)))
  {
    var moves, k := Uninterrupted(call), |Program(call)|;
    WritesRunTheProgram(w, s, call, clock, k);
    hide Program, Executed;
    assert moves[..k + 1] == [Enter(call)] + Writes(k) && moves[k + 1] == Leave;
    assert Program(call)[k..] == [];
  }

  lemma BeatNow(w: World, s: State)
    requires LockFree(s)
    ensures Exec(w, s, Uninterrupted(HeartbeatCall)).Some?
    ensures var t := Exec(w, s, Uninterrupted(HeartbeatCall)).value;
            && t == s.(memory := t.memory)
            && t.memory == s.memory.(local := t.memory.local)
            && t.memory.local.Keys >= s.memory.local.Keys + {UpdatedAt, NowKey}
            && t.memory.local[UpdatedAt] == s.clock && t.memory.local[NowKey] == s.clock
  {
    var clock := (_: nat) => s.clock;
    CallRunsItsProgram(w, s, HeartbeatCall, clock);
    var ws := Program(HeartbeatCall);
    var one := Executed(s.memory, ws, clock, 1);
    assert one == Written(Executed(s.memory, ws, clock, 0), CountBeat, s.clock);
    var two := Executed(s.memory, ws, clock, 2);
    assert two == Written(one, Stamp(UpdatedAt), s.clock);
    assert Executed(s.memory, ws, clock, 3) == Written(two, Stamp(NowKey), s.clock);
  }

  /** Reading `updated_at`, then two beats, then reading `now`: a first reading can
      fail at the very moment the loop beats, though no gap exceeds the threshold. */
  lemma TornReadFailsFalsely(w: World, s: State) returns (moves: seq<Move>)
    requires s.ticker == Resting && s.trainer == Out && StepKey in s.memory.local
    requires UpdatedAt in s.memory.local && s.memory.local[UpdatedAt] == s.clock
    requires Resolve(w.stall, s.memory.phase, s.memory.baselines) == 300.0
    ensures moves == [TakeLock, StampNow, DropLock, Read, Read, Pass(200.0)] + Uninterrupted(HeartbeatCall)
                     + [Pass(200.0)] + Uninterrupted(HeartbeatCall) + [Read, Read]
    ensures Exec(w, s, moves).Some?
    ensures var t := Exec(w, s, moves).value;
            && UpdatedAt in t.memory.local && t.memory.local[UpdatedAt] == t.clock == s.clock + 400.0
            && t.log == s.log + [Judged(false, Fail, t.clock, 300.0)]
  {
    var beat := Uninterrupted(HeartbeatCall);
    var opening := [TakeLock, StampNow, DropLock, Read, Read, Pass(200.0)];
    var a := Opening(w, s, opening);
    BeatNow(w, a);
    var b := Exec(w, a, beat).value;
    assert Exec(w, b, [Pass(200.0)]) == Some(b.(clock := b.clock + 200.0)) by { ExecOne(w, b, Pass(200.0)); }
    var c := Exec(w, b, [Pass(200.0)]).value;
    BeatNow(w, c);
    var d := Exec(w, c, beat).value;
    var e := Closing(w, d, s.clock);
    hide Exec, Uninterrupted, Next, Resolve;
    moves := opening + beat + [Pass(200.0)] + beat + [Read, Read];
    ExecConcat(w, s, opening, beat);
    ExecConcat(w, s, opening + beat, [Pass(200.0)]);
    ExecConcat(w, s, opening + beat + [Pass(200.0)], beat);
    ExecConcat(w, s, opening + beat + [Pass(200.0)] + beat, [Read, Read]);
  }

  // --- when a fail is a false alarm -----------------------------------------------------------

  /** How many times a schedule stamps `updated_at`. */
  function Beats(w: World, from: State, moves: seq<Move>): nat {
    if moves == [] then 0
    else
      var k := |moves| - 1;
      var s := Exec(w, from, moves[..k]);
      Beats(w, from, moves[..k])
      + if moves[k] == WriteOne && s.Some? && s.value.trainer.In? && s.value.trainer.rest != []
           && s.value.trainer.rest[0] == Stamp(UpdatedAt) then 1 else 0
  }

  /** The stamp is never older than `stamp`, and is that one if nobody has beaten. */
  predicate StampSince(s: State, stamp: real, beats: nat) {
    && UpdatedAt in s.memory.local && stamp <= s.memory.local[UpdatedAt]
    && (beats == 0 ==> s.memory.local[UpdatedAt] == stamp)
  }

  /** The poll has that stamp in hand, whatever else it has read since. */
  predicate InHand(s: State, stamp: real) {
    s.ticker.Polling? ==>
      match s.ticker.seen
      case GotUpdated(updated) => updated == stamp
      case GotNow(updated, now) => updated == stamp && now <= s.clock
      case _ => false
  }

  lemma OnlyBeatsStamp(w: World, s: State, m: Move)
    requires Inv(s) && Next(w, s, m).Some? && (m.Enter? ==> Clean(m.call)) && UpdatedAt in s.memory.local
    ensures var t := Next(w, s, m).value;
            UpdatedAt in t.memory.local
            && ((m == WriteOne && s.trainer.rest[0] == Stamp(UpdatedAt))
                || t.memory.local[UpdatedAt] == s.memory.local[UpdatedAt])
  {
    if m == WriteOne {
      PairedTail(s.trainer.rest);
    }
    hide Resolve, Paired;
  }

  lemma {:induction false} StampsAreBeats(w: World, s: State, moves: seq<Move>, stamp: real)
    requires Inv(s) && UpdatedAt in s.memory.local && s.memory.local[UpdatedAt] == stamp && InHand(s, stamp)
    requires s.ticker.Polling? && CleanMoves(moves) && Exec(w, s, moves).Some?
    ensures var t := Exec(w, s, moves).value;
            && StampSince(t, stamp, Beats(w, s, moves))
            && |s.log| <= |t.log|
            && (|t.log| == |s.log| ==> t.ticker.Polling? && InHand(t, stamp))
  {
    if moves != [] {
      var k := |moves| - 1;
      var before := Exec(w, s, moves[..k]).value;
      StampsAreBeats(w, s, moves[..k], stamp);
      ExecKeepsInv(w, s, moves[..k]);
      NextKeepsInv(w, before, moves[k]);
      OnlyBeatsStamp(w, before, moves[k]);
      hide Inv, Resolve, Exec, Written;
      assert Exec(w, s, moves) == Next(w, before, moves[k]) by { ExecLast(w, s, moves); }
    }
  }

  lemma ExecLast(w: World, s: State, moves: seq<Move>)
    requires moves != [] && Exec(w, s, moves).Some?
    ensures Exec(w, s, moves[..|moves| - 1]).Some?
    ensures Exec(w, s, moves) == Next(w, Exec(w, s, moves[..|moves| - 1]).value, moves[|moves| - 1])
  {
  }

  /** A poll has just read the stamp; `moves` lead to its verdict, with `now` read
      on the way. Without a beat in between, a fail is a true alarm: the latest beat
      is more than the threshold ago. And while the latest beat is within the
      threshold, it fails exactly when some beat did come in between and the `now`
      it read lies more than the threshold past the stamp it read. */
  lemma FalseAlarmIff(w: World, s: State, moves: seq<Move>)
    requires Inv(s) && s.ticker.Polling? && UpdatedAt in s.memory.local
    requires s.ticker.seen == GotUpdated(s.memory.local[UpdatedAt])
    requires CleanMoves(moves) && Exec(w, s, moves).Some?
    requires var t := Exec(w, s, moves).value;
             t.log == s.log && t.ticker.Polling? && t.ticker.seen.GotNow?
    ensures var t := Exec(w, s, moves).value;
            var note := ReadOnce(w, t).log[|s.log|];
            && note.Judged? && note.at == t.clock && UpdatedAt in t.memory.local
            && var silence := t.clock - t.memory.local[UpdatedAt];
               var age := t.ticker.seen.now - s.memory.local[UpdatedAt];
            && (note.status == Fail && Beats(w, s, moves) == 0 ==> silence > note.budget)
            && (silence <= note.budget ==> (note.status == Fail <==> Beats(w, s, moves) > 0 && age > note.budget))
  {
    StampsAreBeats(w, s, moves, s.memory.local[UpdatedAt]);
    hide Exec, Beats, Resolve, Inv;
  }

  lemma ExecOne(w: World, s: State, m: Move)
    ensures Exec(w, s, [m]) == Next(w, s, m)
  {
    assert [m][..0] == [];
    assert Exec(w, s, [m][..0]) == Some(s);
  }

  lemma Opening(w: World, s: State, opening: seq<Move>) returns (t: State)
    requires s.ticker == Resting && s.trainer == Out && StepKey in s.memory.local && UpdatedAt in s.memory.local
    requires opening == [TakeLock, StampNow, DropLock, Read, Read, Pass(200.0)]
    ensures Exec(w, s, opening) == Some(t)
    ensures t == s.(memory := Written(s.memory, Stamp(NowKey), s.clock), clock := s.clock + 200.0,
                    ticker := Polling(false, GotUpdated(s.memory.local[UpdatedAt])))
  {
    assert opening[..0] == [] && opening[..1][..0] == opening[..0] && opening[..2][..1] == opening[..1];
    assert opening[..3][..2] == opening[..2] && opening[..4][..3] == opening[..3];
    assert opening[..5][..4] == opening[..4] && opening[..6] == opening && opening[..6][..5] == opening[..5];
    var memory := Written(s.memory, Stamp(NowKey), s.clock);
    assert Exec(w, s, opening[..1]) == Some(s.(ticker := Holding(false)));
    assert Exec(w, s, opening[..2]) == Some(s.(memory := memory, ticker := Holding(true)));
    assert Exec(w, s, opening[..3]) == Some(s.(memory := memory, ticker := Polling(false, Nothing)));
    assert Exec(w, s, opening[..4]) == Some(s.(memory := memory, ticker := Polling(false, GotStep(true))));
    var updated := GotUpdated(s.memory.local[UpdatedAt]);
    assert Exec(w, s, opening[..5]) == Some(s.(memory := memory, ticker := Polling(false, updated)));
    t := Exec(w, s, opening).value;
  }

  lemma Closing(w: World, s: State, stamp: real) returns (t: State)
    requires s.ticker == Polling(false, GotUpdated(stamp)) && NowKey in s.memory.local
    requires s.memory.local[NowKey] - stamp > Resolve(w.stall, s.memory.phase, s.memory.baselines)
    ensures Exec(w, s, [Read, Read]) == Some(t)
    ensures t == s.(ticker := Waiting(s.clock + w.confirmDelay),
                    log := s.log + [Judged(false, Fail, s.clock, Resolve(w.stall, s.memory.phase, s.memory.baselines))])
  {
    assert [Read, Read][..1] == [Read];
    ExecOne(w, s, Read);
    t := Exec(w, s, [Read, Read]).value;
  }
}
