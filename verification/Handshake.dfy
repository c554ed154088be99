/** The checkpoint handshake of L3: the ladder's thread asks and waits, the
    training loop looks, saves and stops, and they share three flags. */
module Handshake {
  import opened Verdicts
  import L = Ladder

  // --- the waiting side, as it is written ---------------------------------------

  /** The cooperative side of L3. `clock(i)` is the i-th reading of the clock in
      one wait, and `savedAt(i)` what the flag shows right after it: the flag
      belongs to the other thread. */
  class CheckpointHooks {
    var requested: bool
    var saved: bool

    constructor ()
      ensures !requested && !saved
    {
      requested, saved := false, false;
    }

    method RequestCheckpoint()
      modifies this`requested
      ensures requested
    {
      requested := true;
    }

    /** Waiting always ends, and says yes exactly when some poll before the
        deadline saw the flag. */
    static method WaitForCheckpoint(timeout: real, clock: nat -> real, savedAt: nat -> bool) returns (seen: bool)
      requires forall i: nat :: clock(i + 1) >= clock(i)
      requires forall i: nat :: i > 0 ==> clock(i + 1) >= clock(i) + 1.0
      ensures seen <==> exists i: nat :: i > 0 && clock(i) < clock(0) + timeout && savedAt(i)
    {
      var deadline := clock(0) + timeout;
      var i: nat := 1;
      while clock(i) < deadline
        invariant i > 0 && forall k: nat :: 0 < k < i ==> !savedAt(k)
        decreases deadline - clock(i)
      {
        if savedAt(i) {
          return true;
        }
        i := i + 1;
      }
      forall k: nat | k > 0 && clock(k) < deadline ensures !savedAt(k) {
        if k >= i {
          ClockOnlyAdvances(clock, i, k);
        }
      }
      return false;
    }
  }

  lemma ClockOnlyAdvances(clock: nat -> real, i: nat, k: nat)
    requires i <= k && forall j: nat :: clock(j + 1) >= clock(j)
    ensures clock(i) <= clock(k)
    decreases k
  {
    if i < k {
      ClockOnlyAdvances(clock, i, k - 1);
      assert clock(k - 1 + 1) >= clock(k - 1);
    }
  }

  // --- both threads, one atomic step at a time -------------------------------------

  /** `Died` is a training step that raised, `DiedSaving` a save that did. */
  datatype LoopAt =
    | Training | AtSafePoint | Saving | SaveDone | AtHaltCheck
    | Broke | RanOut | Died | DiedSaving

  datatype LadderAt =
    | Idle
    | Halting
    | Waiting(start: real, wakeAt: real, polls: nat)
    | Looking(start: real, polls: nat)

  datatype Event = Requested | Looked(due: bool) | SaveBegan | SaveCompleted | Reported(saved: bool)

  datatype State = State(
    requested: bool, saved: bool, halted: bool,
    loop: LoopAt, ladder: LadderAt, clock: real, log: seq<Event>)

  const START := State(false, false, false, Training, Idle, 0.0, [])

  /** `Tick` lets time pass. `Shut` is a shutdown's request: it does not wait, and
      may come from any thread at any time, a wait of the ladder's included. */
  datatype Move =
    | Tick(seconds: real)
    | Train | TrainRaises | Look | Save | SaveRaises | MarkSaved | CheckHalt(last: bool)
    | Escalate | Request | Shut | Wake | ReadFlag

  function Say(s: State, e: Event): State {
    s.(log := s.log + [e])
  }

  function Next(timeout: real, s: State, m: Move): Option<State> {
    match m
    case Tick(seconds) =>
      if seconds < 0.0 then None else Some(s.(clock := s.clock + seconds))
    // the training loop
    case Train =>
      if s.loop != Training then None else Some(s.(loop := AtSafePoint))
    case TrainRaises =>
      if s.loop != Training then None else Some(s.(loop := Died))
    case Look =>
      if s.loop != AtSafePoint then None
      else
        var due := s.requested && !s.saved;
        Some(Say(s, Looked(due)).(loop := if due then Saving else AtHaltCheck))
    case Save =>
      if s.loop != Saving then None
      else Some(s.(loop := SaveDone, log := s.log + [SaveBegan, SaveCompleted]))
    case SaveRaises =>
      if s.loop != Saving then None else Some(Say(s, SaveBegan).(loop := DiedSaving))
    case MarkSaved =>
      if s.loop != SaveDone then None else Some(s.(saved := true, loop := AtHaltCheck))
    case CheckHalt(last) =>
      if s.loop != AtHaltCheck then None
      else Some(s.(loop := if s.halted then Broke else if last then RanOut else Training))
    // the ladder
    case Escalate =>
      if s.ladder != Idle then None else Some(s.(halted := true, ladder := Halting))
    case Request =>
      if s.ladder != Halting then None
      else Some(Say(s, Requested).(requested := true, ladder := Waiting(s.clock, s.clock, 0)))
    case Shut => Some(Say(s, Requested).(requested := true))
    case Wake =>
      if !s.ladder.Waiting? || s.clock < s.ladder.wakeAt then None
      else if s.clock < s.ladder.start + timeout
      then Some(s.(ladder := Looking(s.ladder.start, s.ladder.polls)))
      else Some(Say(s, Reported(false)).(ladder := Idle))
    case ReadFlag =>
      if !s.ladder.Looking? then None
      else if s.saved then Some(Say(s, Reported(true)).(ladder := Idle))
      else Some(s.(ladder := Waiting(s.ladder.start, s.clock + 1.0, s.ladder.polls + 1)))
  }

  /** The state an interleaving leads to, if every move of it was possible. */
  function Exec(timeout: real, from: State, moves: seq<Move>): Option<State> {
    if moves == [] then Some(from)
    else
      var k := |moves| - 1;
      var s := Exec(timeout, from, moves[..k]);
      if s.None? then None else Next(timeout, s.value, moves[k])
  }

  /** Who may move when: time always passes and a shutdown always asks; the loop makes the
      move its place calls for, and so does the ladder, which sleeps until its next poll. */
  lemma MayMoveExactly(timeout: real, s: State, m: Move)
    ensures Next(timeout, s, m).Some? <==>
              match m
              case Tick(seconds) => seconds >= 0.0
              case Train | TrainRaises => s.loop.Training?
              case Look => s.loop.AtSafePoint?
              case Save | SaveRaises => s.loop.Saving?
              case MarkSaved => s.loop.SaveDone?
              case CheckHalt(_) => s.loop.AtHaltCheck?
              case Escalate => s.ladder.Idle?
              case Request => s.ladder.Halting?
              case Shut => true
              case Wake => s.ladder.Waiting? && s.ladder.wakeAt <= s.clock
              case ReadFlag => s.ladder.Looking?
  {
  }

  // --- what no interleaving breaks ----------------------------------------------------

  /** A save that began after a request, and was completed. */
  ghost predicate SavedOnRequest(log: seq<Event>) {
    exists i, j, k :: 0 <= i < j < k < |log| && log[i] == Requested && log[j] == SaveBegan && log[k] == SaveCompleted
  }

  ghost predicate WasRequested(log: seq<Event>) {
    exists i :: 0 <= i < |log| && log[i] == Requested
  }

  /** Some look of the loop came after some request. */
  ghost predicate LookedInTime(log: seq<Event>) {
    exists i, j :: 0 <= i < j < |log| && log[i] == Requested && log[j].Looked?
  }

  ghost predicate ReportsAreBacked(log: seq<Event>) {
    forall k :: 0 <= k < |log| && log[k] == Reported(true) ==> SavedOnRequest(log[..k])
  }

  predicate TriesToSave(loop: LoopAt) {
    loop == Saving || loop == SaveDone || loop == DiedSaving
  }

  ghost predicate Inv(timeout: real, s: State) {
    && (s.requested <==> WasRequested(s.log))
    && (TriesToSave(s.loop) ==> !s.saved && s.requested)
    && (s.loop == SaveDone || s.saved ==> SavedOnRequest(s.log))
    && (TriesToSave(s.loop) || s.saved <==> LookedInTime(s.log))
    && (s.loop == Broke ==> s.halted)
    && (s.ladder.Waiting? ==> s.ladder.wakeAt >= s.ladder.start + s.ladder.polls as real
                              && (s.ladder.polls > 0 ==> (s.ladder.polls - 1) as real < timeout))
    && (s.ladder.Looking? ==> s.ladder.polls as real < timeout && s.clock >= s.ladder.start + s.ladder.polls as real)
    && ReportsAreBacked(s.log)
  }

  lemma LogGrows(log: seq<Event>, e: Event)
    ensures WasRequested(log + [e]) <==> WasRequested(log) || e == Requested
    ensures LookedInTime(log + [e]) <==> LookedInTime(log) || (e.Looked? && WasRequested(log))
    ensures SavedOnRequest(log) ==> SavedOnRequest(log + [e])
    ensures ReportsAreBacked(log) && (e == Reported(true) ==> SavedOnRequest(log)) ==> ReportsAreBacked(log + [e])
  {
    var more := log + [e];
    assert more[|log|] == e && forall k :: 0 <= k < |log| ==> more[k] == log[k];
    assert forall k :: 0 <= k <= |log| ==> more[..k] == log[..k];
  }

  lemma SaveIsOnRequest(log: seq<Event>)
    requires WasRequested(log)
    ensures SavedOnRequest(log + [SaveBegan, SaveCompleted])
  {
    var i :| 0 <= i < |log| && log[i] == Requested;
    var more := log + [SaveBegan, SaveCompleted];
    assert more[i] == Requested && more[|log|] == SaveBegan && more[|log| + 1] == SaveCompleted;
  }

  lemma NextKeepsInv(timeout: real, s: State, m: Move)
    requires Inv(timeout, s) && Next(timeout, s, m).Some?
    ensures Inv(timeout, Next(timeout, s, m).value)
  {
    hide WasRequested, LookedInTime, SavedOnRequest, ReportsAreBacked;
    match m {
      case Look => LogGrows(s.log, Looked(s.requested && !s.saved));
      case Save =>
        assert s.log + [SaveBegan, SaveCompleted] == s.log + [SaveBegan] + [SaveCompleted];
        LogGrows(s.log, SaveBegan);
        LogGrows(s.log + [SaveBegan], SaveCompleted);
        SaveIsOnRequest(s.log);
      case SaveRaises => LogGrows(s.log, SaveBegan);
      case Request => LogGrows(s.log, Requested);
      case Shut => LogGrows(s.log, Requested);
      case Wake => LogGrows(s.log, Reported(false));
      case ReadFlag => LogGrows(s.log, Reported(true));
      case _ =>
    }
  }

  lemma {:induction false} ExecKeepsInv(timeout: real, moves: seq<Move>)
    requires Exec(timeout, START, moves).Some?
    ensures Inv(timeout, Exec(timeout, START, moves).value)
  {
    if moves != [] {
      var k := |moves| - 1;
      ExecKeepsInv(timeout, moves[..k]);
      NextKeepsInv(timeout, Exec(timeout, START, moves[..k]).value, moves[k]);
    }
  }

  /** `checkpoint_saved=True` is only ever reported once the loop has completed a
      save that it began after a request. */
  lemma ReportsAreTrue(timeout: real, moves: seq<Move>, k: nat)
    requires Exec(timeout, START, moves).Some?
    requires k < |Exec(timeout, START, moves).value.log|
    requires Exec(timeout, START, moves).value.log[k] == Reported(true)
    ensures SavedOnRequest(Exec(timeout, START, moves).value.log[..k])
  {
    ExecKeepsInv(timeout, moves);
  }

  /** A wait never polls more than the timeout allows, whatever the loop does;
      and a waiting ladder can always move on once its second of sleep is over. */
  lemma WaitingIsBounded(timeout: real, moves: seq<Move>)
    requires Exec(timeout, START, moves).Some?
    ensures var s := Exec(timeout, START, moves).value;
            && (s.ladder.Waiting? ==> s.ladder.polls == 0 || s.ladder.polls as real < timeout + 1.0)
            && (s.ladder.Looking? ==> s.ladder.polls as real < timeout)
            && (s.ladder.Waiting? && s.clock >= s.ladder.wakeAt ==> Next(timeout, s, Wake).Some?)
            && (s.ladder.Looking? ==> Next(timeout, s, ReadFlag).Some?)
  {
    hide WasRequested, LookedInTime, SavedOnRequest, ReportsAreBacked;
    ExecKeepsInv(timeout, moves);
  }

  lemma {:induction false} NextPollIsNear(timeout: real, moves: seq<Move>)
    requires Exec(timeout, START, moves).Some?
    ensures var s := Exec(timeout, START, moves).value;
            s.ladder.Waiting? ==> s.ladder.wakeAt <= s.clock + 1.0
  {
    if moves != [] {
      NextPollIsNear(timeout, moves[..|moves| - 1]);
    }
  }

  predicate OfTheWait(m: Move) {
    m.Tick? || m.Wake? || m.ReadFlag?
  }

  lemma {:induction false} ExecConcat(timeout: real, from: State, a: seq<Move>, b: seq<Move>)
    requires Exec(timeout, from, a).Some?
    ensures Exec(timeout, from, a + b) == Exec(timeout, Exec(timeout, from, a).value, b)
  {
    if b == [] {
      assert a + b == a;
    } else {
      var k := |b| - 1;
      assert (a + b)[..|a| + k] == a + b[..k];
      ExecConcat(timeout, from, a, b[..k]);
    }
  }

  /** How long a wait sleeps on. */
  function SleepLeft(s: State): real
    requires s.ladder.Waiting?
  {
    if s.ladder.wakeAt > s.clock then s.ladder.wakeAt - s.clock else 0.0
  }

  lemma WakesUp(timeout: real, s: State)
    requires s.ladder.Waiting?
    ensures var now := s.clock + SleepLeft(s);
            Exec(timeout, s, [Tick(SleepLeft(s)), Wake]) ==
              Some(if now < s.ladder.start + timeout
                   then s.(clock := now, ladder := Looking(s.ladder.start, s.ladder.polls))
                   else s.(clock := now, ladder := Idle, log := s.log + [Reported(false)]))
  {
    var up := [Tick(SleepLeft(s)), Wake];
    assert up[..0] == [] && up[..2] == up && Exec(timeout, s, up[..0]) == Some(s);
    hide Exec;
    ExecNext(timeout, s, up, 0);
    ExecNext(timeout, s, up, 1);
  }

  lemma Looks(timeout: real, s: State)
    requires s.ladder.Looking?
    ensures Exec(timeout, s, [ReadFlag]) ==
              Some(if s.saved then s.(ladder := Idle, log := s.log + [Reported(true)])
                   else s.(ladder := Waiting(s.ladder.start, s.clock + 1.0, s.ladder.polls + 1)))
  {
    assert [ReadFlag][..0] == [];
  }

  /** A save is noticed within a second: a wait that finds it before the deadline reports
      it, and one whose next poll comes too late reports that it timed out. */
  lemma SaveIsNoticed(timeout: real, moves: seq<Move>)
    requires Exec(timeout, START, moves).Some?
    requires Exec(timeout, START, moves).value.saved && Exec(timeout, START, moves).value.ladder.Waiting?
    ensures var s := Exec(timeout, START, moves).value;
            var wait := if s.ladder.wakeAt > s.clock then s.ladder.wakeAt - s.clock else 0.0;
            && wait <= 1.0
            && (if s.clock + wait < s.ladder.start + timeout then
                  Exec(timeout, s, [Tick(wait), Wake] + [ReadFlag]) ==
                    Some(s.(clock := s.clock + wait, ladder := Idle, log := s.log + [Reported(true)]))
                else
                  Exec(timeout, s, [Tick(wait), Wake]) ==
                    Some(s.(clock := s.clock + wait, ladder := Idle, log := s.log + [Reported(false)])))
  {
    hide Exec, Next;
    NextPollIsNear(timeout, moves);
    var s := Exec(timeout, START, moves).value;
    WakesUp(timeout, s);
    var up := Exec(timeout, s, [Tick(SleepLeft(s)), Wake]).value;
    ExecConcat(timeout, s, [Tick(SleepLeft(s)), Wake], [ReadFlag]);
    if up.ladder.Looking? {
      Looks(timeout, up);
    }
  }

  /** A wait left to itself ends, from any state: second by second it looks, and by its
      deadline it has reported what the flag showed. */
  lemma {:induction false} WaitEnds(timeout: real, s: State) returns (moves: seq<Move>)
    requires s.ladder.Waiting?
    ensures forall i :: 0 <= i < |moves| ==> OfTheWait(moves[i])
    ensures var t := Exec(timeout, s, moves);
            && t.Some? && t.value.ladder.Idle? && t.value.saved == s.saved && t.value.loop == s.loop
            && (t.value.log == s.log + [Reported(true)] || t.value.log == s.log + [Reported(false)])
            && (!s.saved ==> t.value.log == s.log + [Reported(false)])
    decreases s.ladder.start + timeout - if s.ladder.wakeAt > s.clock then s.ladder.wakeAt else s.clock
  {
    hide Exec, Next;
    WakesUp(timeout, s);
    moves := [Tick(SleepLeft(s)), Wake];
    var woken := Exec(timeout, s, moves).value;
    if woken.ladder.Looking? {
      Looks(timeout, woken);
      ExecConcat(timeout, s, moves, [ReadFlag]);
      moves := moves + [ReadFlag];
      if !s.saved {
        var rest := WaitEnds(timeout, Exec(timeout, s, moves).value);
        ExecConcat(timeout, s, moves, rest);
        moves := moves + rest;
      }
    }
  }

  /** Halted does not mean saved. A halted loop stops with a checkpoint exactly
      when some request was made before one of its looks. */
  lemma HaltedLoopSavedIffItLooked(timeout: real, moves: seq<Move>)
    requires Exec(timeout, START, moves).Some?
    requires Exec(timeout, START, moves).value.loop == Broke
    ensures var s := Exec(timeout, START, moves).value;
            s.saved <==> LookedInTime(s.log)
  {
    ExecKeepsInv(timeout, moves);
  }

  /** The handshake can be lost: the loop looks, then the ladder halts and asks,
      then the loop sees the halt and stops, with a request pending and no save.
      The shutdown on its way out finds the ladder's thread still waiting. */
  lemma LostHandshake() returns (moves: seq<Move>)
    ensures moves == [Train, Look, Escalate, Request, CheckHalt(false), Shut]
    ensures var s := Exec(600.0, START, moves);
            && s.Some? && s.value.loop == Broke && s.value.halted && s.value.requested && !s.value.saved
            && s.value.ladder.Waiting?
  {
    moves := [Train, Look, Escalate, Request, CheckHalt(false), Shut];
    assert moves[..0] == [] && moves[..6] == moves && Exec(600.0, START, moves[..0]) == Some(START);
    hide Exec;
    for k := 0 to 6
      invariant Exec(600.0, START, moves[..k]) == Some(Lost(k))
    {
      ExecNext(600.0, START, moves, k);
    }
  }

  function Lost(k: nat): State
    requires k <= 6
  {
    var looked := Say(START, Looked(false)).(loop := AtHaltCheck);
    var halted := looked.(halted := true, ladder := Halting);
    var asked := Say(halted, Requested).(requested := true, ladder := Waiting(0.0, 0.0, 0));
    match k
    case 0 => START
    case 1 => START.(loop := AtSafePoint)
    case 2 => looked
    case 3 => halted
    case 4 => asked
    case 5 => asked.(loop := Broke)
    case 6 => Say(asked.(loop := Broke), Requested)
  }

  lemma ExecNext(timeout: real, from: State, moves: seq<Move>, k: nat)
    requires k < |moves| && Exec(timeout, from, moves[..k]).Some?
    ensures Exec(timeout, from, moves[..k + 1]) == Next(timeout, Exec(timeout, from, moves[..k]).value, moves[k])
  {
    assert moves[..k + 1][..k] == moves[..k];
  }

  predicate LoopIsOver(s: State) {
    s.loop == Broke || s.loop == RanOut || s.loop == Died || s.loop == DiedSaving
  }

  // --- a halt does end the loop ---------------------------------------------------------

  predicate TrainsOn(m: Move) {
    m.Train? || m.TrainRaises?
  }

  predicate OfTheLoop(m: Move) {
    TrainsOn(m) || m.Look? || m.Save? || m.SaveRaises? || m.MarkSaved? || m.CheckHalt?
  }

  function LoopMoves(moves: seq<Move>): nat {
    if moves == [] then 0
    else LoopMoves(moves[..|moves| - 1]) + if OfTheLoop(moves[|moves| - 1]) then 1 else 0
  }

  function Trainings(moves: seq<Move>): nat {
    if moves == [] then 0
    else Trainings(moves[..|moves| - 1]) + if TrainsOn(moves[|moves| - 1]) then 1 else 0
  }

  /** How many moves a halted loop has left at most. */
  function MovesLeft(loop: LoopAt): nat {
    match loop
    case Training => 5
    case AtSafePoint => 4
    case Saving => 3
    case SaveDone => 2
    case AtHaltCheck => 1
    case Broke | RanOut | Died | DiedSaving => 0
  }

  /** Once the ladder has halted, under every interleaving and whether it saves or not,
      the loop trains for at most the one step it is about to take, its next look at the
      halt is its last move, and it makes no more than five moves in all. */
  lemma {:induction false} HaltEndsTheLoop(timeout: real, from: State, moves: seq<Move>)
    requires from.halted && Exec(timeout, from, moves).Some?
    ensures var s := Exec(timeout, from, moves).value;
            && s.halted
            && Trainings(moves) + (if s.loop == Training then 1 else 0) <= (if from.loop == Training then 1 else 0)
            && ((exists i :: 0 <= i < |moves| && moves[i].CheckHalt?) ==> s.loop == Broke)
            && LoopMoves(moves) + MovesLeft(s.loop) <= MovesLeft(from.loop) <= 5
  {
    if moves != [] {
      var k := |moves| - 1;
      HaltEndsTheLoop(timeout, from, moves[..k]);
      OneMoveHalted(timeout, Exec(timeout, from, moves[..k]).value, moves[k]);
      assert forall i :: 0 <= i < k ==> moves[..k][i] == moves[i];
      hide Next, MovesLeft, TrainsOn, OfTheLoop;
    }
  }

  lemma OneMoveHalted(timeout: real, s: State, m: Move)
    requires Next(timeout, s, m).Some? && s.halted
    ensures var t := Next(timeout, s, m).value;
            && t.halted
            && (if TrainsOn(m) then 1 else 0) + (if t.loop == Training then 1 else 0)
                 <= (if s.loop == Training then 1 else 0)
            && (m.CheckHalt? || s.loop == Broke ==> t.loop == Broke)
            && (if OfTheLoop(m) then 1 else 0) + MovesLeft(t.loop) <= MovesLeft(s.loop)
  {
  }

  predicate EndsUnhalted(m: Move) {
    m == CheckHalt(true) || m.TrainRaises? || m.SaveRaises?
  }

  /** A loop nobody halts goes on: it is over exactly when it has run out of steps, or
      training or saving has raised. */
  lemma {:induction false} UnhaltedLoopGoesOn(timeout: real, moves: seq<Move>)
    requires Exec(timeout, START, moves).Some? && forall i :: 0 <= i < |moves| ==> !moves[i].Escalate?
    ensures var s := Exec(timeout, START, moves).value;
            && !s.halted
            && (LoopIsOver(s) <==> exists i :: 0 <= i < |moves| && EndsUnhalted(moves[i]))
  {
    if moves != [] {
      var k := |moves| - 1;
      UnhaltedLoopGoesOn(timeout, moves[..k]);
      assert forall i :: 0 <= i < k ==> moves[..k][i] == moves[i];
      var before, now := Exec(timeout, START, moves[..k]).value, Exec(timeout, START, moves).value;
      OneMoveUnhalted(timeout, before, moves[k]);
      hide Next, LoopIsOver, EndsUnhalted;
    }
  }

  lemma OneMoveUnhalted(timeout: real, s: State, m: Move)
    requires Next(timeout, s, m).Some? && !s.halted && !m.Escalate?
    ensures !Next(timeout, s, m).value.halted
    ensures LoopIsOver(Next(timeout, s, m).value) <==> LoopIsOver(s) || EndsUnhalted(m)
  {
  }

  /** Halted or not, it can always move on: a loop that is not over has a move to make. */
  lemma LoopIsNeverStuck(timeout: real, s: State)
    requires !LoopIsOver(s)
    ensures exists m :: OfTheLoop(m) && Next(timeout, s, m).Some?
  {
    var m := match s.loop
      case Training => Train
      case AtSafePoint => Look
      case Saving => Save
      case SaveDone => MarkSaved
      case _ => CheckHalt(false);
    assert OfTheLoop(m) && Next(timeout, s, m).Some?;
  }

  /** But it is never lost in silence: once the loop is over without a save, no
      later wait, under any interleaving, reports one. */
  lemma {:induction false} UnsavedIsNeverReported(timeout: real, from: State, moves: seq<Move>)
    requires LoopIsOver(from) && !from.saved
    requires Exec(timeout, from, moves).Some?
    ensures var s := Exec(timeout, from, moves).value;
            && LoopIsOver(s) && !s.saved && |from.log| <= |s.log|
            && forall k :: |from.log| <= k < |s.log| ==> s.log[k] != Reported(true)
  {
    if moves != [] {
      UnsavedIsNeverReported(timeout, from, moves[..|moves| - 1]);
    }
  }

  /** What a wait's report is to the ladder that waited. */
  function Waited(saved: bool): L.WaitOutcome {
    if saved then L.Saved else L.TimedOut
  }

  /** A wait that reports a save leaves its action at L3, and nothing is killed for it. */
  lemma SavedStaysAtL3(env: L.Env, n: nat, v: Verdict)
    requires env.trainer && !env.calls(n).requestRaises && env.calls(n).wait == Waited(true)
    ensures L.RecordOf(env, n, v, HALT, true).level == HALT
    ensures forall e :: e in L.ExecuteEffects(env, n, v, HALT) ==> !e.Killed? && !e.KillImpossible?
  {
  }

  /** And so L3 goes on to L4: an action aimed at a halt whose wait reported after
      an unsaved loop's end is recorded at L4, and attempts a kill. */
  lemma UnsavedGoesToL4(
    timeout: real, from: State, moves: seq<Move>, k: nat, env: L.Env, n: nat, v: Verdict)
    requires LoopIsOver(from) && !from.saved && Exec(timeout, from, moves).Some?
    requires |from.log| <= k < |Exec(timeout, from, moves).value.log|
    requires var e := Exec(timeout, from, moves).value.log[k];
             e.Reported? && env.calls(n).wait == Waited(e.saved)
    ensures L.RecordOf(env, n, v, HALT, true).level == TERMINATE
    ensures exists e :: e in L.ExecuteEffects(env, n, v, HALT) && (e.Killed? || e.KillImpossible?)
  {
    UnsavedIsNeverReported(timeout, from, moves);
    hide Exec;
    var did := L.ExecuteEffects(env, n, v, HALT);
    var last := did[|did| - 1];
    assert last in did && (last.Killed? || last.KillImpossible?);
  }
}
